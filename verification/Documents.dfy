/**
 The text an entry is hashed over is a JSON object: read by the rules of RFC 8259 it has
 the entry's fields, each under its own key, the keys in the order RFC 8785 puts them in.
 */
module Documents {
  import opened Vocabulary
  import opened Encoding
  import E = Encoding

  /** A value of a flat object: null, a string, or a number as it is written. */
  datatype Json = Null | Text(text: string) | Digits(text: string)

  type Member = (string, Json)

  predicate NumberChar(c: char) { c == '-' || '0' <= c <= '9' }

  /** The number a text begins with, and what follows it. */
  function Span(s: string): (r: (string, string))
    ensures |r.1| == |s| - |r.0|
  {
    if |s| > 0 && NumberChar(s[0]) then ([s[0]] + Span(s[1..]).0, Span(s[1..]).1) else ("", s)
  }

  function ReadValue(s: string): (r: Option<(Json, string)>)
    ensures r.Some? ==> |r.value.1| < |s|
  {
    if |s| > 0 && s[0] == '"' then
      match ReadText(s[1..])
      case Some((text, rest)) => Some((Text(text), rest))
      case None => None
    else if "null" <= s then Some((Null, s[4..]))
    else if Span(s).0 != "" then Some((Digits(Span(s).0), Span(s).1))
    else None
  }

  function ReadMember(s: string): (r: Option<(Member, string)>)
    ensures r.Some? ==> |r.value.1| < |s|
  {
    if |s| == 0 || s[0] != '"' then None
    else match ReadText(s[1..])
      case None => None
      case Some((key, rest)) =>
        if |rest| == 0 || rest[0] != ':' then None
        else match ReadValue(rest[1..])
          case None => None
          case Some((value, more)) => Some(((key, value), more))
  }

  /** The members up to the closing brace, and nothing after it. */
  function ReadMembers(s: string): Option<seq<Member>>
    decreases |s|
  {
    match ReadMember(s)
    case None => None
    case Some((member, rest)) =>
      if rest == "}" then Some([member])
      else if |rest| > 0 && rest[0] == ',' then
        match ReadMembers(rest[1..])
        case None => None
        case Some(others) => Some([member] + others)
      else None
  }

  function ReadObject(s: string): Option<seq<Member>> {
    if |s| > 0 && s[0] == '{' then ReadMembers(s[1..]) else None
  }

  // -- one member ---------------------------------------------------------------------------------

  /** Text that is written as it is. */
  predicate Clean(s: string) { forall i :: 0 <= i < |s| ==> s[i] as int >= 0x20 && s[i] != '"' && s[i] != '\\' }

  lemma {:induction false} CleanEscaped(s: string)
    requires Clean(s)
    ensures Escaped(s) == s
  {
    if |s| > 0 {
      CleanEscaped(s[1..]);
      assert Escape(s[0]) == [s[0]];
      assert s == [s[0]] + s[1..];
    }
  }

  predicate Ends(r: string) { |r| > 0 && (r[0] == ',' || r[0] == '}') }

  /** Written so, before a comma or the closing brace, it reads as this value. */
  ghost predicate Reads(written: string, v: Json) {
    forall r: string :: Ends(r) ==> ReadValue(written + r) == Some((v, r))
  }

  lemma QuotedReads(text: string)
    ensures Reads("\"" + Escaped(text) + "\"", Text(text))
  {
    var w := "\"" + Escaped(text) + "\"";
    forall r: string | Ends(r) ensures ReadValue(w + r) == Some((Text(text), r)) {
      assert (w + r)[1..] == Escaped(text) + "\"" + r;
      ReadsBack(text, r);
    }
  }

  lemma PlainReads(text: string)
    requires Clean(text)
    ensures Reads(Plain(text), Text(text))
  {
    CleanEscaped(text);
    QuotedReads(text);
  }

  function Optional(text: Option<string>): Json {
    if text.Some? then Text(text.value) else Null
  }

  lemma NullReads()
    ensures Reads("null", Null)
  {
    forall r: string | Ends(r) ensures ReadValue("null" + r) == Some((Null, r)) {
      assert ("null" + r)[0] == 'n' && ("null" + r)[..4] == "null" && ("null" + r)[4..] == r;
    }
  }

  lemma QuoteReads(text: Option<string>)
    ensures Reads(Quote(text), Optional(text))
  {
    if text.Some? { QuotedReads(text.value); } else { NullReads(); }
  }

  lemma {:induction false} SpanReads(s: string, r: string)
    requires (forall i :: 0 <= i < |s| ==> NumberChar(s[i])) && Ends(r)
    ensures Span(s + r) == (s, r)
  {
    if |s| > 0 {
      assert (s + r)[1..] == s[1..] + r;
      SpanReads(s[1..], r);
      assert [s[0]] + s[1..] == s;
    } else {
      assert s + r == r;
    }
  }

  function Signed(n: int): string { if n < 0 then "-" + Number(-n) else Number(n) }

  lemma NumberReads(n: int)
    ensures Reads(Signed(n), Digits(Signed(n))) && Counted(n) == Signed(n) + ","
  {
    var s := Signed(n);
    forall r: string | Ends(r) ensures ReadValue(s + r) == Some((Digits(s), r)) {
      SpanReads(s, r);
      assert (s + r)[0] == s[0];
    }
  }

  function Written(key: string, value: string): string { "\"" + key + "\":" + value }

  lemma MemberParts(key: string, rest: string, value: Json, more: string)
    requires Clean(key) && |rest| > 0 && rest[0] == ':' && ReadValue(rest[1..]) == Some((value, more))
    ensures ReadMember("\"" + key + "\"" + rest) == Some(((key, value), more))
  {
    hide ReadText, ReadValue, Escaped;
    var s := "\"" + key + "\"" + rest;
    CleanEscaped(key);
    assert s[1..] == key + "\"" + rest;
    ReadsBack(key, rest);
  }

  lemma MemberReads(key: string, value: string, v: Json, r: string)
    requires Clean(key) && Reads(value, v) && Ends(r)
    ensures ReadMember(Written(key, value) + r) == Some(((key, v), r))
  {
    hide ReadValue, ReadMember, Clean;
    var rest := ":" + value + r;
    assert rest[1..] == value + r;
    MemberParts(key, rest, v, r);
    assert "\"" + key + "\"" + rest == Written(key, value) + r;
  }

  // -- the object -----------------------------------------------------------------------------------

  /** Members, with commas between them and a brace after the last. */
  function Joined(parts: seq<string>): string
    requires |parts| > 0
  {
    if |parts| == 1 then parts[0] + "}" else parts[0] + "," + Joined(parts[1..])
  }

  ghost predicate AllRead(keys: seq<string>, values: seq<string>, vs: seq<Json>) {
    && |keys| == |values| == |vs|
    && forall i :: 0 <= i < |keys| ==> Clean(keys[i]) && Reads(values[i], vs[i])
  }

  function Parts(keys: seq<string>, values: seq<string>): (r: seq<string>)
    requires |keys| == |values|
    ensures |r| == |keys|
  {
    seq(|keys|, i requires 0 <= i < |keys| => Written(keys[i], values[i]))
  }

  function Paired(keys: seq<string>, vs: seq<Json>): (r: seq<Member>)
    requires |keys| == |vs|
    ensures |r| == |keys|
  {
    seq(|keys|, i requires 0 <= i < |keys| => (keys[i], vs[i]))
  }

  lemma {:induction false} JoinedReads(keys: seq<string>, values: seq<string>, vs: seq<Json>)
    requires |keys| > 0 && AllRead(keys, values, vs)
    ensures ReadMembers(Joined(Parts(keys, values))) == Some(Paired(keys, vs))
  {
    hide Reads, ReadMember, Clean;
    var parts := Parts(keys, values);
    var s := Joined(parts);
    if |keys| == 1 {
      assert s == Written(keys[0], values[0]) + "}";
      MemberReads(keys[0], values[0], vs[0], "}");
      assert Paired(keys, vs) == [(keys[0], vs[0])];
    } else {
      JoinedReads(keys[1..], values[1..], vs[1..]);
      assert parts[1..] == Parts(keys[1..], values[1..]);
      var more := "," + Joined(parts[1..]);
      assert s == Written(keys[0], values[0]) + more;
      MemberReads(keys[0], values[0], vs[0], more);
      assert more[1..] == Joined(parts[1..]);
      assert Paired(keys, vs) == [(keys[0], vs[0])] + Paired(keys[1..], vs[1..]);
    }
  }

  // -- the entry's document ---------------------------------------------------------------------------

  const NAMES: seq<string> := [
    "amount", "balance_after", "counterparty_id", "direction", "entry_id", "entry_type", "format", "memo", "prev_hash",
          "ref", "scope_id", "sequence", "timestamp", "transaction_id"
  ]

  /** How the fields are written, key by key. */
  function Fields(t: Texts, e: Entry): (r: seq<string>)
    ensures |r| == 14
  {
    [Plain(Fixed(e.amount)), Plain(Fixed(e.balanceAfter)), Quote(e.counterparty), Plain(DirectionText(e.direction)),
     Plain(t.id(e.id)), Plain(KindText(e.kind)), Plain("AGOV3"), Quote(Some(e.memo)), Quote(Some(e.prevHash)),
     RefText(t, e.ref), Quote(Some(e.scope)), Signed(e.sequence), Plain(t.instant(e.time)), Plain(t.id(e.txn))]
  }

  /** What the fields are. */
  function Read(t: Texts, e: Entry): (r: seq<Json>)
    ensures |r| == 14
  {
    [Text(Fixed(e.amount)), Text(Fixed(e.balanceAfter)), Optional(e.counterparty), Text(DirectionText(e.direction)),
     Text(t.id(e.id)), Text(KindText(e.kind)), Text("AGOV3"), Text(e.memo), Text(e.prevHash),
     if e.ref.Some? then Text(t.id(e.ref.value)) else Null, Text(e.scope), Digits(Signed(e.sequence)),
     Text(t.instant(e.time)), Text(t.id(e.txn))]
  }

  /** Ids and instants are written in plain characters. */
  ghost predicate PlainTexts(t: Texts) { (forall a :: Clean(t.id(a))) && (forall a :: Clean(t.instant(a))) }

  lemma NamesClean()
    ensures |NAMES| == 14 && forall i :: 0 <= i < |NAMES| ==> Clean(NAMES[i])
  {
  }

  lemma KindClean(e: Entry)
    ensures Clean(KindText(e.kind))
  {
  }

  lemma WordsClean(e: Entry)
    ensures Clean(DirectionText(e.direction)) && Clean(KindText(e.kind)) && Clean("AGOV3")
  {
    hide KindText;
    KindClean(e);
  }

  lemma AmountClean(amount: int)
    ensures Clean(Fixed(amount))
  {
  }

  lemma FieldsRead(t: Texts, e: Entry)
    requires PlainTexts(t)
    ensures AllRead(NAMES, Fields(t, e), Read(t, e))
  {
    hide Reads, Clean, Plain, Quote, Fixed;
    NamesClean();
    WordsClean(e);
    AmountClean(e.amount);
    AmountClean(e.balanceAfter);
    PlainReads(Fixed(e.amount));
    PlainReads(Fixed(e.balanceAfter));
    QuoteReads(e.counterparty);
    PlainReads(DirectionText(e.direction));
    PlainReads(t.id(e.id));
    PlainReads(KindText(e.kind));
    PlainReads("AGOV3");
    QuoteReads(Some(e.memo));
    QuoteReads(Some(e.prevHash));
    if e.ref.Some? { PlainReads(t.id(e.ref.value)); } else { NullReads(); }
    QuoteReads(Some(e.scope));
    NumberReads(e.sequence);
    PlainReads(t.instant(e.time));
    PlainReads(t.id(e.txn));
  }

  // -- the text is that object ------------------------------------------------------------------------

  /** Keys and values from the `k`-th on, and the closing brace. */
  function TailAt(values: seq<string>, k: nat): string
    requires |values| == 13 && k <= 13
    decreases 13 - k
  {
    if k == 13 then "}" else KEYS[k] + values[k] + TailAt(values, k + 1)
  }

  lemma {:induction false} TailIs(values: seq<string>, k: nat)
    requires |values| == 13 && k <= 13
    ensures Concat(Laced(KEYS, values)[2 * k..]) + "}" == TailAt(values, k)
    decreases 13 - k
  {
    var all := Laced(KEYS, values);
    assert |KEYS| == 13;
    if k < 13 {
      TailIs(values, k + 1);
      var from := all[2 * k..];
      hide TailAt, Laced;
      assert from[0] == KEYS[k] && from[1..][0] == values[k] && from[1..][1..] == all[2 * (k + 1)..];
      assert Concat(from) == KEYS[k] + (values[k] + Concat(all[2 * (k + 1)..]));
      NextTail(values, k);
    }
  }

  lemma NextTail(values: seq<string>, k: nat)
    requires |values| == 13 && k < 13
    ensures TailAt(values, k) == KEYS[k] + values[k] + TailAt(values, k + 1)
  {
  }

  /** The members from the `j`-th on. */
  function From(parts: seq<string>, j: nat): string
    requires j < |parts|
  {
    Joined(parts[j..])
  }

  lemma FromNext(parts: seq<string>, j: nat)
    requires j + 1 < |parts|
    ensures From(parts, j) == parts[j] + "," + From(parts, j + 1)
  {
    assert parts[j..][0] == parts[j] && parts[j..][1..] == parts[j + 1..];
  }

  lemma FromLast(parts: seq<string>, j: nat)
    requires j + 1 == |parts|
    ensures From(parts, j) == parts[j] + "}"
  {
    assert parts[j..] == [parts[j]];
  }

  /** A key as it stands in the text, before a value. */
  lemma Glue(lead: string, name: string, key: string, value: string, rest: string)
    requires key == lead + "\"" + name + "\":"
    ensures key + value + rest == lead + (Written(name, value) + rest)
  {
  }

  /** The key of a member, and the comma before it. */
  function Lead(name: string): string { "," + "\"" + name + "\":" }

  lemma Sizes()
    ensures |KEYS| == 13 && |NAMES| == 14
  {
  }

  lemma FirstKeys()
    ensures |KEYS| == 13 && |NAMES| == 14
    ensures KEYS[0] == "{" + "\"" + NAMES[0] + "\":"
    ensures KEYS[1] == Lead(NAMES[1]) && KEYS[2] == Lead(NAMES[2])
  {
  }

  lemma NextKeys()
    ensures |KEYS| == 13 && |NAMES| == 14
    ensures KEYS[3] == Lead(NAMES[3]) && KEYS[4] == Lead(NAMES[4]) && KEYS[5] == Lead(NAMES[5])
  {
  }

  lemma FormatKey()
    ensures |KEYS| == 13 && |NAMES| == 14 && KEYS[6] == "," + Written(NAMES[6], Plain("AGOV3")) + Lead(NAMES[7])
  {
    assert Plain("AGOV3") == "\"AGOV3\"";
  }

  lemma MiddleKeys()
    ensures |KEYS| == 13 && |NAMES| == 14
    ensures KEYS[7] == Lead(NAMES[8]) && KEYS[8] == Lead(NAMES[9])
  {
  }

  lemma LastKeys()
    ensures |KEYS| == 13 && |NAMES| == 14
    ensures KEYS[9] == Lead(NAMES[10]) && KEYS[10] == Lead(NAMES[11])
    ensures KEYS[11] == "\"" + NAMES[12] + "\":" && KEYS[12] == Lead(NAMES[13])
  {
  }

  /** One more member in front. */
  lemma TailStep(values: seq<string>, fields: seq<string>, k: nat, j: nat)
    requires |values| == 13 && |fields| == |NAMES| == 14 && k < 13 && j < 13 && KEYS[k] == Lead(NAMES[j])
    requires values[k] == fields[j] && TailAt(values, k + 1) == "," + From(Parts(NAMES, fields), j + 1)
    ensures TailAt(values, k) == "," + From(Parts(NAMES, fields), j)
  {
    Sizes();
    hide From, KEYS, NAMES, TailAt;
    var parts := Parts(NAMES, fields);
    NextTail(values, k);
    FromNext(parts, j);
    Glue(",", NAMES[j], KEYS[k], values[k], TailAt(values, k + 1));
    assert parts[j] == Written(NAMES[j], fields[j]);
  }

  /** The last member, with the brace that closes the object. */
  lemma TailEnd(values: seq<string>, fields: seq<string>)
    requires |values| == 13 && |fields| == |NAMES| == 14 && values[12] == fields[13]
    ensures TailAt(values, 12) == "," + From(Parts(NAMES, fields), 13)
  {
    LastKeys();
    hide From, KEYS, NAMES;
    FromLast(Parts(NAMES, fields), 13);
    Glue(",", NAMES[13], KEYS[12], values[12], "}");
  }

  lemma TailLast(values: seq<string>, fields: seq<string>)
    requires |values| == 13 && |fields| == |NAMES| == 14 && values[12] == fields[13] && values[11] == fields[12]
    ensures TailAt(values, 11) == From(Parts(NAMES, fields), 12)
  {
    LastKeys();
    hide From, KEYS, NAMES, TailAt;
    var parts := Parts(NAMES, fields);
    TailEnd(values, fields);
    NextTail(values, 11);
    FromNext(parts, 12);
    Glue("", NAMES[12], KEYS[11], values[11], TailAt(values, 12));
    assert parts[12] == Written(NAMES[12], fields[12]);
  }

  lemma TailSequence(values: seq<string>, fields: seq<string>)
    requires |values| == 13 && |fields| == |NAMES| == 14 && values[10] == fields[11] + ","
    requires TailAt(values, 11) == From(Parts(NAMES, fields), 12)
    ensures TailAt(values, 10) == "," + From(Parts(NAMES, fields), 11)
  {
    hide From, KEYS, NAMES, TailAt;
    LastKeys();
    var parts := Parts(NAMES, fields);
    NextTail(values, 10);
    FromNext(parts, 11);
    Glue(",", NAMES[11], KEYS[10], fields[11], "," + TailAt(values, 11));
    assert values[10] + TailAt(values, 11) == fields[11] + ("," + TailAt(values, 11));
    assert parts[11] == Written(NAMES[11], fields[11]);
  }

  lemma TailFormat(values: seq<string>, fields: seq<string>)
    requires |values| == 13 && |fields| == |NAMES| == 14 && fields[6] == Plain("AGOV3") && values[6] == fields[7]
    requires TailAt(values, 7) == "," + From(Parts(NAMES, fields), 8)
    ensures TailAt(values, 6) == "," + From(Parts(NAMES, fields), 6)
  {
    hide From, KEYS, NAMES, TailAt, Plain;
    FormatKey();
    var parts := Parts(NAMES, fields);
    NextTail(values, 6);
    FromNext(parts, 6);
    FromNext(parts, 7);
    assert parts[6] == Written(NAMES[6], fields[6]) && parts[7] == Written(NAMES[7], fields[7]);
    Glue(",", NAMES[7], Lead(NAMES[7]), values[6], TailAt(values, 7));
    assert KEYS[6] + values[6] + TailAt(values, 7)
        == "," + parts[6] + (Lead(NAMES[7]) + values[6] + TailAt(values, 7));
  }

  lemma TailFirst(values: seq<string>, fields: seq<string>)
    requires |values| == 13 && |fields| == |NAMES| == 14 && values[0] == fields[0]
    requires TailAt(values, 1) == "," + From(Parts(NAMES, fields), 1)
    ensures TailAt(values, 0) == "{" + From(Parts(NAMES, fields), 0)
  {
    hide From, KEYS, NAMES, TailAt;
    FirstKeys();
    var parts := Parts(NAMES, fields);
    NextTail(values, 0);
    FromNext(parts, 0);
    Glue("{", NAMES[0], KEYS[0], values[0], TailAt(values, 1));
    assert parts[0] == Written(NAMES[0], fields[0]);
  }

  lemma LaterTail(t: Texts, e: Entry)
    ensures |NAMES| == 14 && TailAt(Values(t, e), 6) == "," + From(Parts(NAMES, Fields(t, e)), 6)
  {
    hide TailAt, From, KEYS, NAMES, Plain, Quote, Fixed, Signed, RefText;
    var v, f := Values(t, e), Fields(t, e);
    LastKeys();
    MiddleKeys();
    NumberReads(e.sequence);
    TailLast(v, f);
    TailSequence(v, f);
    TailStep(v, f, 9, 10);
    TailStep(v, f, 8, 9);
    TailStep(v, f, 7, 8);
    TailFormat(v, f);
  }

  lemma WholeTail(t: Texts, e: Entry)
    ensures |NAMES| == 14 && TailAt(Values(t, e), 0) == "{" + From(Parts(NAMES, Fields(t, e)), 0)
  {
    hide TailAt, From, KEYS, NAMES, Plain, Quote, Fixed, Signed, RefText;
    var v, f := Values(t, e), Fields(t, e);
    FirstKeys();
    NextKeys();
    LaterTail(t, e);
    TailStep(v, f, 5, 5);
    TailStep(v, f, 4, 4);
    TailStep(v, f, 3, 3);
    TailStep(v, f, 2, 2);
    TailStep(v, f, 1, 1);
    TailFirst(v, f);
  }

  lemma TextIsObject(t: Texts, e: Entry)
    ensures |NAMES| == 14 && E.Text(t, e) == "{" + Joined(Parts(NAMES, Fields(t, e)))
  {
    Sizes();
    hide TailAt, Joined, KEYS, NAMES, Concat, Values, Fields;
    var v, parts := Values(t, e), Parts(NAMES, Fields(t, e));
    TailIs(v, 0);
    WholeTail(t, e);
    assert Laced(KEYS, v)[0..] == Laced(KEYS, v);
    assert parts[0..] == parts;
  }

  /** The text an entry is hashed over, read as JSON, has exactly the entry's fields, each
      under its own key. */
  lemma DocumentReads(t: Texts, e: Entry)
    requires PlainTexts(t)
    ensures |NAMES| == 14 && ReadObject(E.Text(t, e)) == Some(Paired(NAMES, Read(t, e)))
  {
    hide NAMES, Joined, ReadMembers, Parts, Read, Fields, E.Text, AllRead;
    TextIsObject(t, e);
    FieldsRead(t, e);
    JoinedReads(NAMES, Fields(t, e), Read(t, e));
    assert ("{" + Joined(Parts(NAMES, Fields(t, e))))[1..] == Joined(Parts(NAMES, Fields(t, e)));
  }

  /** In the order of their characters. */
  predicate Less(a: string, b: string) {
    if |b| == 0 then false else if |a| == 0 then true else if a[0] != b[0] then a[0] < b[0] else Less(a[1..], b[1..])
  }

  lemma FirstDiffers(a: string, b: string)
    requires |a| > 0 && |b| > 0 && a[0] < b[0]
    ensures Less(a, b)
  {
  }

  lemma SecondDiffers(a: string, b: string)
    requires |a| > 1 && |b| > 1 && a[0] == b[0] && a[1] < b[1]
    ensures Less(a, b)
  {
  }

  lemma {:induction false} SharedStart(start: string, a: string, b: string)
    requires Less(a, b)
    ensures Less(start + a, start + b)
  {
    if |start| > 0 {
      assert (start + a)[1..] == start[1..] + a && (start + b)[1..] == start[1..] + b;
      SharedStart(start[1..], a, b);
    } else {
      assert start + a == a && start + b == b;
    }
  }

  /** The keys stand in the order section 3.2.3 of RFC 8785 sorts them in. */
  lemma KeysSorted(i: nat)
    requires i < 13
    ensures |NAMES| == 14 && Less(NAMES[i], NAMES[i + 1])
  {
    hide Less;
    if i == 4 {
      FirstDiffers("id", "type");
      SharedStart("entry_", "id", "type");
      assert NAMES[4] == "entry_" + "id" && NAMES[5] == "entry_" + "type";
    } else if i == 10 || i == 12 {
      SecondDiffers(NAMES[i], NAMES[i + 1]);
    } else {
      FirstDiffers(NAMES[i], NAMES[i + 1]);
    }
  }
}
