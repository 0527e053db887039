/**
 The text an entry is hashed over, in the newest version: canonical JSON as in RFC
 8785, written out directly.  No two entries have the same text, so a length and a
 head, or a length and a Merkle root, name one whole chain, unless two texts or tree
 nodes of those very chains collide.
 */
module Encoding {
  import opened Vocabulary
  import opened Engine
  import opened Replays
  import opened Laws
  import Merkle

  // -- decimal digits -----------------------------------------------------------------

  function Digit(d: nat): (c: char)
    requires d < 10
    ensures '0' <= c <= '9'
  {
    '0' + d as char
  }

  function DigitValue(c: char): nat
    requires '0' <= c <= '9'
  {
    (c - '0') as nat
  }

  predicate AllDigits(s: string) { forall i :: 0 <= i < |s| ==> '0' <= s[i] <= '9' }

  function Number(n: nat): (s: string)
    ensures AllDigits(s) && |s| > 0
  {
    if n < 10 then [Digit(n)] else Number(n / 10) + [Digit(n % 10)]
  }

  /** Exactly `width` digits. */
  function Padded(n: nat, width: nat): (s: string)
    ensures AllDigits(s) && |s| == width
  {
    if width == 0 then [] else Padded(n / 10, width - 1) + [Digit(n % 10)]
  }

  function NumberOf(s: string): nat
    requires AllDigits(s)
  {
    if |s| == 0 then 0 else NumberOf(s[..|s| - 1]) * 10 + DigitValue(s[|s| - 1])
  }

  /** No leading zero but zero's own. */
  predicate Canonical(s: string) { |s| > 0 && AllDigits(s) && (|s| > 1 ==> s[0] != '0') }

  lemma {:induction false} NumberBack(n: nat)
    ensures NumberOf(Number(n)) == n && Canonical(Number(n)) && (n > 0 ==> Number(n)[0] != '0')
  {
    if n >= 10 {
      NumberBack(n / 10);
      var s := Number(n);
      assert s[..|s| - 1] == Number(n / 10);
    } else {
      var s := Number(n);
      assert s[..0] == [] && NumberOf(s[..0]) == 0;
    }
  }

  lemma {:induction false} CanonicalBack(s: string)
    requires Canonical(s)
    ensures Number(NumberOf(s)) == s && (s[0] != '0' ==> NumberOf(s) > 0)
  {
    var init := s[..|s| - 1];
    if |s| > 1 {
      assert init[0] == s[0];
      CanonicalBack(init);
      var d := DigitValue(s[|s| - 1]);
      assert NumberOf(s) == NumberOf(init) * 10 + d;
      hide NumberOf;
      NumberSplits(NumberOf(init), d);
      assert s == init + [s[|s| - 1]];
    } else {
      assert NumberOf(init) == 0;
      assert s == [s[0]];
    }
  }

  lemma NumberSplits(n: nat, d: nat)
    requires n > 0 && d < 10
    ensures Number(n * 10 + d) == Number(n) + [Digit(d)]
  {
    assert (n * 10 + d) / 10 == n && (n * 10 + d) % 10 == d;
  }

  function Pow10(k: nat): (p: nat)
    ensures p > 0
  {
    if k == 0 then 1 else 10 * Pow10(k - 1)
  }

  lemma {:induction false} PaddedBack(n: nat, width: nat)
    requires n < Pow10(width)
    ensures NumberOf(Padded(n, width)) == n
  {
    if width > 0 {
      PaddedBack(n / 10, width - 1);
      var s := Padded(n, width);
      assert s[..|s| - 1] == Padded(n / 10, width - 1);
    }
  }

  lemma {:induction false} DigitsBack(s: string)
    requires AllDigits(s)
    ensures NumberOf(s) < Pow10(|s|) && Padded(NumberOf(s), |s|) == s
  {
    if |s| > 0 {
      DigitsBack(s[..|s| - 1]);
      assert s == s[..|s| - 1] + [s[|s| - 1]];
    }
  }

  // -- amounts ---------------------------------------------------------------------------

  const UNIT: nat := 100000000

  function FixedNat(n: nat): string {
    Number(n / UNIT) + "." + Padded(n % UNIT, 8)
  }

  function Fixed(amount: int): string {
    if amount < 0 then "-" + FixedNat(-amount) else FixedNat(amount)
  }

  /** Reads the grammar of an unsigned amount, and nothing else. */
  function ParseNat(s: string): Option<nat> {
    if |s| < 10 || s[|s| - 9] != '.' then None
    else
      var whole, part := s[..|s| - 9], s[|s| - 8..];
      if Canonical(whole) && AllDigits(part) then Some(NumberOf(whole) * UNIT + NumberOf(part)) else None
  }

  function Negated(n: Option<nat>): Option<int> {
    if n.None? || n.value == 0 then None else Some(0 - n.value)
  }

  /** A minus sign only before an amount that is not zero. */
  function Parse(s: string): Option<int> {
    if |s| > 0 && s[0] == '-' then Negated(ParseNat(s[1..])) else ParseNat(s)
  }

  lemma UnitIsPow()
    ensures Pow10(8) == UNIT
  {
    assert Pow10(0) == 1 && Pow10(1) == 10 && Pow10(2) == 100 && Pow10(3) == 1000 && Pow10(4) == 10000;
    assert Pow10(5) == 100000 && Pow10(6) == 1000000 && Pow10(7) == 10000000;
  }

  lemma ParseNatFixed(n: nat)
    ensures ParseNat(FixedNat(n)) == Some(n) && FixedNat(n)[0] != '-'
  {
    var whole, part := Number(n / UNIT), Padded(n % UNIT, 8);
    var s := FixedNat(n);
    assert s[..|s| - 9] == whole && s[|s| - 8..] == part && s[|s| - 9] == '.';
    NumberBack(n / UNIT);
    UnitIsPow();
    PaddedBack(n % UNIT, 8);
    assert s[0] == whole[0];
  }

  lemma FixedParseNat(s: string)
    requires ParseNat(s).Some?
    ensures FixedNat(ParseNat(s).value) == s
  {
    hide Number, NumberOf, Padded, AllDigits, Canonical;
    var whole, part := s[..|s| - 9], s[|s| - 8..];
    assert s == whole + "." + part;
    CanonicalBack(whole);
    DigitsBack(part);
    UnitIsPow();
    Parted(NumberOf(whole), NumberOf(part));
  }

  lemma Parted(whole: nat, part: nat)
    requires part < UNIT
    ensures (whole * UNIT + part) / UNIT == whole && (whole * UNIT + part) % UNIT == part
  {
  }

  /** Every amount reads back exactly. */
  lemma AmountRoundTrip(amount: int)
    ensures Parse(Fixed(amount)) == Some(amount)
  {
    hide ParseNat, FixedNat;
    if amount < 0 {
      ParseNatFixed(-amount);
      assert Fixed(amount)[1..] == FixedNat(-amount);
    } else {
      ParseNatFixed(amount);
    }
  }

  /** What reads as an amount is exactly how that amount is written: one text for each,
      and none for a negative zero. */
  lemma AmountTextUnique(s: string)
    requires Parse(s).Some?
    ensures Fixed(Parse(s).value) == s
  {
    hide ParseNat, FixedNat;
    if |s| > 0 && s[0] == '-' {
      FixedParseNat(s[1..]);
      assert s == "-" + s[1..];
    } else {
      FixedParseNat(s);
    }
  }

  lemma NoQuoteInNat(n: nat)
    ensures '"' !in FixedNat(n)
  {
  }

  lemma NoQuoteInAmount(amount: int)
    ensures '"' !in Fixed(amount)
  {
    hide FixedNat;
    NoQuoteInNat(if amount < 0 then -amount else amount);
  }

  // -- strings: quoted and escaped as in section 3.2.2.2 of RFC 8785 --------------------------

  function Hex(d: nat): char
    requires d < 16
  {
    if d < 10 then '0' + d as char else 'a' + (d - 10) as char
  }

  function Escape(c: char): (s: string)
    ensures |s| > 0
  {
    if c == '\\' then "\\\\"
    else if c == '"' then "\\\""
    else if c as int == 8 then "\\b"
    else if c as int == 12 then "\\f"
    else if c == '\n' then "\\n"
    else if c == '\r' then "\\r"
    else if c == '\t' then "\\t"
    else if c as int < 0x20 then "\\u00" + [Hex(c as int / 16), Hex(c as int % 16)]
    else [c]
  }

  function Escaped(text: string): string {
    if |text| == 0 then [] else Escape(text[0]) + Escaped(text[1..])
  }

  function Quote(text: Option<string>): string {
    match text
    case None => "null"
    case Some(t) => "\"" + Escaped(t) + "\""
  }

  /** The escape of a character never starts a quote, and none starts another's. */
  lemma EscapeApart(a: char, b: char, r: string, s: string)
    requires Escape(a) + r == Escape(b) + s
    ensures a == b && r == s
  {
    var x, y := Escape(a) + r, Escape(b) + s;
    assert x[0] == y[0];
    if |Escape(a)| > 1 && |Escape(b)| > 1 {
      assert x[1] == y[1];
      if |Escape(a)| > 2 && |Escape(b)| > 2 {
        assert x[4] == y[4] && x[5] == y[5];
      }
    }
    assert a == b;
    assert x[|Escape(a)|..] == r && y[|Escape(b)|..] == s;
  }

  // -- reading a string back ---------------------------------------------------------------

  predicate HexDigit(c: char) { '0' <= c <= '9' || 'a' <= c <= 'f' }

  function Nibble(c: char): (n: nat)
    requires HexDigit(c)
    ensures n < 16
  {
    if c <= '9' then c as int - '0' as int else c as int - 'a' as int + 10
  }

  /** What a short escape of section 7 of RFC 8259 stands for. */
  function Short(c: char): Option<char> {
    match c
    case '"' => Some('"')
    case '\\' => Some('\\')
    case '/' => Some('/')
    case 'b' => Some(8 as char)
    case 'f' => Some(12 as char)
    case 'n' => Some('\n')
    case 'r' => Some('\r')
    case 't' => Some('\t')
    case _ => None
  }

  /** Read a string's text up to its closing quote, by section 7 of RFC 8259, and what
      follows; a \\u escape is read for characters below the surrogates. */
  function ReadText(s: string): (r: Option<(string, string)>)
    ensures r.Some? ==> |r.value.1| < |s|
  {
    if |s| == 0 then None
    else if s[0] == '"' then Some(("", s[1..]))
    else if (s[0] as int) < 0x20 then None
    else if s[0] != '\\' then Read(s[0], ReadText(s[1..]))
    else if |s| > 1 && Short(s[1]).Some? then Read(Short(s[1]).value, ReadText(s[2..]))
    else if |s| > 5 && s[1] == 'u' && (forall i :: 2 <= i < 6 ==> HexDigit(s[i])) && Nibble(s[2]) < 13 then
      Read((((Nibble(s[2]) * 16 + Nibble(s[3])) * 16 + Nibble(s[4])) * 16 + Nibble(s[5])) as char, ReadText(s[6..]))
    else None
  }

  function Read(c: char, rest: Option<(string, string)>): Option<(string, string)> {
    if rest.Some? then Some(([c] + rest.value.0, rest.value.1)) else None
  }

  lemma NibbleHex(d: nat)
    requires d < 16
    ensures HexDigit(Hex(d)) && Nibble(Hex(d)) == d
  {
  }

  lemma ControlReads(c: char, rest: string)
    requires (c as int) < 0x20
    ensures ReadText("\\u00" + [Hex(c as int / 16), Hex(c as int % 16)] + rest) == Read(c, ReadText(rest))
  {
    var s := "\\u00" + [Hex(c as int / 16), Hex(c as int % 16)] + rest;
    NibbleHex(c as int / 16);
    NibbleHex(c as int % 16);
    assert s[6..] == rest;
  }

  /** The escape of a character reads as that character. */
  lemma EscapeReads(c: char, rest: string)
    ensures ReadText(Escape(c) + rest) == Read(c, ReadText(rest))
  {
    var e := Escape(c);
    var s := e + rest;
    if |e| == 6 {
      ControlReads(c, rest);
    } else if |e| == 2 {
      assert s[0] == '\\' && s[1] == e[1] && s[2..] == rest;
    } else {
      assert s[0] == c && s[1..] == rest;
    }
  }

  /** Whatever a text holds, what it is written as reads back as it, by the rules of JSON. */
  lemma {:induction false} ReadsBack(text: string, rest: string)
    ensures ReadText(Escaped(text) + "\"" + rest) == Some((text, rest))
  {
    hide Escape;
    if |text| == 0 {
      assert Escaped(text) + "\"" + rest == "\"" + rest;
    } else {
      var more := Escaped(text[1..]) + "\"" + rest;
      assert Escaped(text) + "\"" + rest == Escape(text[0]) + more;
      hide ReadText;
      EscapeReads(text[0], more);
      ReadsBack(text[1..], rest);
      assert [text[0]] + text[1..] == text;
    }
  }

  /** Only the empty text is closed at once. */
  lemma ClosesAtOnce(a: string, r: string)
    ensures (Escaped(a) + "\"" + r)[0] == '"' <==> |a| == 0
  {
  }

  lemma {:induction false} EscapedApart(a: string, b: string, r: string, s: string)
    requires Escaped(a) + "\"" + r == Escaped(b) + "\"" + s
    ensures a == b && r == s
  {
    hide Escape;
    var x, y := Escaped(a) + "\"" + r, Escaped(b) + "\"" + s;
    ClosesAtOnce(a, r);
    ClosesAtOnce(b, s);
    if |a| == 0 {
      assert x[1..] == r && y[1..] == s;
    } else {
      var p, q := Escaped(a[1..]) + "\"" + r, Escaped(b[1..]) + "\"" + s;
      assert x == Escape(a[0]) + p && y == Escape(b[0]) + q;
      EscapeApart(a[0], b[0], p, q);
      EscapedApart(a[1..], b[1..], r, s);
      assert a == [a[0]] + a[1..] && b == [b[0]] + b[1..];
    }
  }

  // -- the document ------------------------------------------------------------------------------

  /** Neither text starts the other, unless they are the same. */
  ghost predicate Apart(x: string, y: string) {
    forall r: string, s: string :: x + r == y + s ==> x == y
  }

  function Concat(parts: seq<string>): string {
    if |parts| == 0 then [] else parts[0] + Concat(parts[1..])
  }

  /** Texts put together from parts that stand apart come apart in one way. */
  lemma {:induction false} ConcatApart(xs: seq<string>, ys: seq<string>)
    requires |xs| == |ys| && Concat(xs) == Concat(ys)
    requires forall i :: 0 <= i < |xs| ==> Apart(xs[i], ys[i])
    ensures xs == ys
  {
    if |xs| > 0 {
      assert Apart(xs[0], ys[0]);
      assert xs[0] + Concat(xs[1..]) == ys[0] + Concat(ys[1..]);
      assert xs[0] == ys[0];
      Cancel(xs[0], Concat(xs[1..]), Concat(ys[1..]));
      ConcatApart(xs[1..], ys[1..]);
      assert xs == [xs[0]] + xs[1..] && ys == [ys[0]] + ys[1..];
    }
  }

  lemma Cancel(x: string, r: string, s: string)
    requires x + r == x + s
    ensures r == s
  {
    assert (x + r)[|x|..] == r && (x + s)[|x|..] == s;
  }

  /** A value in quotes that holds none. */
  function Plain(s: string): string { "\"" + s + "\"" }

  /** Where a character first is. */
  function FirstAt(s: string, mark: char): nat {
    if |s| == 0 || s[0] == mark then 0 else 1 + FirstAt(s[1..], mark)
  }

  lemma {:induction false} FirstAfter(a: string, mark: char, r: string)
    requires mark !in a
    ensures FirstAt(a + [mark] + r, mark) == |a|
  {
    if |a| > 0 {
      assert (a + [mark] + r)[1..] == a[1..] + [mark] + r;
      assert a[0] in a;
      FirstAfter(a[1..], mark, r);
    }
  }

  /** Two texts closed by a mark they do not hold are the same, or neither starts the other. */
  lemma ClosedApart(a: string, b: string, mark: char)
    requires mark !in a && mark !in b
    ensures Apart(a + [mark], b + [mark])
  {
    hide FirstAt;
    forall r: string, s: string | a + [mark] + r == b + [mark] + s ensures a + [mark] == b + [mark] {
      FirstAfter(a, mark, r);
      FirstAfter(b, mark, s);
      assert (a + [mark] + r)[..|a|] == a && (b + [mark] + s)[..|b|] == b;
    }
  }

  lemma PlainApart(a: string, b: string)
    requires '"' !in a && '"' !in b
    ensures Apart(Plain(a), Plain(b)) && (Plain(a) == Plain(b) ==> a == b)
  {
    ClosedApart(a, b, '"');
    forall r: string, s: string | Plain(a) + r == Plain(b) + s ensures Plain(a) == Plain(b) {
      var x, y := Plain(a) + r, Plain(b) + s;
      assert x[1..] == a + ['"'] + r && y[1..] == b + ['"'] + s;
      assert Plain(a) == "\"" + (a + ['"']) && Plain(b) == "\"" + (b + ['"']);
    }
    assert Plain(a)[1..|a| + 1] == a && Plain(b)[1..|b| + 1] == b;
  }

  lemma QuoteApart(a: Option<string>, b: Option<string>)
    ensures Apart(Quote(a), Quote(b)) && (Quote(a) == Quote(b) ==> a == b)
  {
    hide Escaped;
    forall r: string, s: string | Quote(a) + r == Quote(b) + s ensures a == b {
      var x, y := Quote(a) + r, Quote(b) + s;
      assert x[0] == y[0];
      if a.Some? {
        assert x[1..] == Escaped(a.value) + "\"" + r && y[1..] == Escaped(b.value) + "\"" + s;
        EscapedApart(a.value, b.value, r, s);
      }
    }
    assert Quote(a) + [] == Quote(a) && Quote(b) + [] == Quote(b);
    if Quote(a) == Quote(b) { assert Quote(a) + [] == Quote(b) + []; }
  }

  /** A number, closed by the comma after it. */
  function Counted(n: int): string {
    (if n < 0 then "-" + Number(-n) else Number(n)) + ","
  }

  lemma CountedApart(m: int, n: int)
    ensures Apart(Counted(m), Counted(n)) && (Counted(m) == Counted(n) ==> m == n)
  {
    hide Number, Apart;
    var a, b := if m < 0 then "-" + Number(-m) else Number(m), if n < 0 then "-" + Number(-n) else Number(n);
    ClosedApart(a, b, ',');
    assert Counted(m) == a + [','] && Counted(n) == b + [','];
    assert Counted(m)[..|a|] == a && Counted(n)[..|b|] == b;
    if Counted(m) == Counted(n) {
      assert |a| == |b|;
      assert a == b;
      NumberBack(if m < 0 then -m else m);
      NumberBack(if n < 0 then -n else n);
      assert a[0] == b[0];
      if m < 0 { assert a[1..] == Number(-m) && b[1..] == Number(-n); }
    }
  }

  function KindText(kind: Kind): string {
    match kind
    case Funding => "funding" case Allocation => "allocation" case Release => "release" case Hold => "hold"
    case HoldVoid => "hold_void" case Spend => "spend" case Reversal => "reversal"
    case CircuitTripped => "circuit_tripped" case CircuitReset => "circuit_reset" case Anchor => "anchor"
    case Seal => "seal" case Checkpoint => "checkpoint"
  }

  function DirectionText(d: Direction): string {
    match d case Debit => "DR" case Credit => "CR" case Neutral => "--"
  }

  /** How ids and instants are written, and how a text is hashed. */
  datatype Texts = Texts(id: Id -> string, instant: int -> string, sha: string -> Hash)

  /** One text for each id and instant, with no quote in it. */
  ghost predicate Faithful(t: Texts) {
    && (forall a, b :: t.id(a) == t.id(b) ==> a == b) && (forall a :: '"' !in t.id(a))
    && (forall a, b :: t.instant(a) == t.instant(b) ==> a == b) && (forall a :: '"' !in t.instant(a))
  }

  function RefText(t: Texts, ref: Option<Id>): string {
    if ref.None? then "null" else Plain(t.id(ref.value))
  }

  /** The fields of the document in canonical order, each after its key. */
  function Values(t: Texts, e: Entry): (r: seq<string>)
    ensures |r| == 13
  {
    [Plain(Fixed(e.amount)), Plain(Fixed(e.balanceAfter)), Quote(e.counterparty), Plain(DirectionText(e.direction)),
     Plain(t.id(e.id)), Plain(KindText(e.kind)), Quote(Some(e.memo)), Quote(Some(e.prevHash)),
     RefText(t, e.ref), Quote(Some(e.scope)), Counted(e.sequence), Plain(t.instant(e.time)), Plain(t.id(e.txn))]
  }

  const KEYS: seq<string> := [
    "{\"amount\":", ",\"balance_after\":", ",\"counterparty_id\":", ",\"direction\":", ",\"entry_id\":",
    ",\"entry_type\":", ",\"format\":\"AGOV3\",\"memo\":", ",\"prev_hash\":", ",\"ref\":", ",\"scope_id\":",
    ",\"sequence\":", "\"timestamp\":", ",\"transaction_id\":"]

  /** The text an entry is hashed over. */
  function Text(t: Texts, e: Entry): string {
    Concat(Laced(KEYS, Values(t, e))) + "}"
  }

  /** Keys and values, one after the other. */
  function Laced(keys: seq<string>, values: seq<string>): (r: seq<string>)
    requires |keys| == |values|
    ensures |r| == 2 * |keys|
    ensures forall i :: 0 <= i < |keys| ==> r[2 * i] == keys[i] && r[2 * i + 1] == values[i]
  {
    seq(2 * |keys|, i requires 0 <= i < 2 * |keys| => if i % 2 == 0 then keys[i / 2] else values[i / 2])
  }

  lemma SameApart(x: string)
    ensures Apart(x, x)
  {
  }

  lemma RefApart(t: Texts, a: Option<Id>, b: Option<Id>)
    requires Faithful(t)
    ensures Apart(RefText(t, a), RefText(t, b)) && (RefText(t, a) == RefText(t, b) ==> a == b)
  {
    if a.Some? && b.Some? {
      PlainApart(t.id(a.value), t.id(b.value));
    } else {
      forall r: string, s: string | RefText(t, a) + r == RefText(t, b) + s ensures RefText(t, a) == RefText(t, b) {
        assert (RefText(t, a) + r)[0] == (RefText(t, b) + s)[0];
      }
      assert RefText(t, a) == RefText(t, b) ==> RefText(t, a)[0] == RefText(t, b)[0];
    }
  }

  lemma NamesApart(a: Entry, b: Entry)
    ensures Apart(Plain(KindText(a.kind)), Plain(KindText(b.kind)))
              && (Plain(KindText(a.kind)) == Plain(KindText(b.kind)) ==> a.kind == b.kind)
    ensures Apart(Plain(DirectionText(a.direction)), Plain(DirectionText(b.direction)))
         && (Plain(DirectionText(a.direction)) == Plain(DirectionText(b.direction)) ==> a.direction == b.direction)
  {
    hide Plain, Apart;
    PlainApart(KindText(a.kind), KindText(b.kind));
    PlainApart(DirectionText(a.direction), DirectionText(b.direction));
    if KindText(a.kind) == KindText(b.kind) { KindsApart(a.kind, b.kind); }
    assert DirectionText(a.direction) == DirectionText(b.direction)
           ==> DirectionText(a.direction)[0] == DirectionText(b.direction)[0];
  }

  lemma KindsApart(a: Kind, b: Kind)
    requires KindText(a) == KindText(b)
    ensures a == b
  {
    assert |KindText(a)| == |KindText(b)| && KindText(a)[0] == KindText(b)[0] && KindText(a)[1] == KindText(b)[1];
  }

  lemma AmountApart(m: int, n: int)
    ensures Apart(Plain(Fixed(m)), Plain(Fixed(n))) && (Plain(Fixed(m)) == Plain(Fixed(n)) ==> m == n)
  {
    hide Plain, Apart, Fixed, Parse;
    NoQuoteInAmount(m);
    NoQuoteInAmount(n);
    PlainApart(Fixed(m), Fixed(n));
    AmountRoundTrip(m);
    AmountRoundTrip(n);
  }

  lemma ValuesApart(t: Texts, a: Entry, b: Entry, i: nat)
    requires Faithful(t) && i < 13
    ensures Apart(Values(t, a)[i], Values(t, b)[i])
  {
    hide Apart, Plain, Quote, Fixed, Counted, RefText, KindText, DirectionText;
    if i == 0 { AmountApart(a.amount, b.amount); }
    else if i == 1 { AmountApart(a.balanceAfter, b.balanceAfter); }
    else if i == 2 { QuoteApart(a.counterparty, b.counterparty); }
    else if i == 3 || i == 5 { NamesApart(a, b); }
    else if i == 4 { PlainApart(t.id(a.id), t.id(b.id)); }
    else if i == 6 { QuoteApart(Some(a.memo), Some(b.memo)); }
    else if i == 7 { QuoteApart(Some(a.prevHash), Some(b.prevHash)); }
    else if i == 8 { RefApart(t, a.ref, b.ref); }
    else if i == 9 { QuoteApart(Some(a.scope), Some(b.scope)); }
    else if i == 10 { CountedApart(a.sequence, b.sequence); }
    else if i == 11 { PlainApart(t.instant(a.time), t.instant(b.time)); }
    else { PlainApart(t.id(a.txn), t.id(b.txn)); }
  }

  /** Two entries of one version that differ at most in the hash they carry. */
  predicate SameFields(a: Entry, b: Entry) {
    a.(hash := b.hash, version := b.version) == b
  }

  lemma ValuesTell(t: Texts, a: Entry, b: Entry)
    requires Faithful(t) && Values(t, a) == Values(t, b)
    ensures SameFields(a, b)
  {
    hide Apart, Plain, Quote, Fixed, Counted, RefText, KindText, DirectionText;
    var x, y := Values(t, a), Values(t, b);
    assert x[0] == y[0] && x[1] == y[1] && x[2] == y[2] && x[3] == y[3] && x[4] == y[4] && x[5] == y[5] && x[6] == y[6];
    assert x[7] == y[7] && x[8] == y[8] && x[9] == y[9] && x[10] == y[10] && x[11] == y[11] && x[12] == y[12];
    AmountApart(a.amount, b.amount);
    AmountApart(a.balanceAfter, b.balanceAfter);
    QuoteApart(a.counterparty, b.counterparty);
    NamesApart(a, b);
    QuoteApart(Some(a.memo), Some(b.memo));
    QuoteApart(Some(a.prevHash), Some(b.prevHash));
    QuoteApart(Some(a.scope), Some(b.scope));
    RefApart(t, a.ref, b.ref);
    CountedApart(a.sequence, b.sequence);
    PlainApart(t.id(a.id), t.id(b.id));
    PlainApart(t.instant(a.time), t.instant(b.time));
    PlainApart(t.id(a.txn), t.id(b.txn));
  }

  lemma CloseBrace(x: string, y: string)
    requires x + "}" == y + "}"
    ensures x == y
  {
    assert |x| == |y|;
    assert (x + "}")[..|x|] == x && (y + "}")[..|y|] == y;
  }

  /** No two entries are hashed over the same text, whatever their scope ids and memos hold. */
  lemma TextInjective(t: Texts, a: Entry, b: Entry)
    requires Faithful(t) && Text(t, a) == Text(t, b)
    ensures SameFields(a, b)
  {
    hide Values, Concat, Apart, SameFields, Faithful;
    var xs, ys := Laced(KEYS, Values(t, a)), Laced(KEYS, Values(t, b));
    CloseBrace(Concat(xs), Concat(ys));
    forall i | 0 <= i < |xs| ensures Apart(xs[i], ys[i]) {
      if i % 2 == 0 { SameApart(KEYS[i / 2]); } else { ValuesApart(t, a, b, i / 2); }
    }
    hide Laced;
    ConcatApart(xs, ys);
    forall i | 0 <= i < 13 ensures Values(t, a)[i] == Values(t, b)[i] {
      assert xs[2 * i + 1] == Values(t, a)[i] && ys[2 * i + 1] == Values(t, b)[i];
    }
    assert Values(t, a) == Values(t, b);
    ValuesTell(t, a, b);
  }

  // -- the head names the chain ----------------------------------------------------------------

  /** At one place the two chains hash different texts to one hash. */
  ghost predicate TextsClash(t: Texts, a: seq<Entry>, b: seq<Entry>) {
    exists i :: 0 <= i < |a| && i < |b| && ClashAt(t, a[i], b[i])
  }

  predicate ClashAt(t: Texts, x: Entry, y: Entry) { Text(t, x) != Text(t, y) && t.sha(Text(t, x)) == t.sha(Text(t, y)) }

  /** A chain of the newest version: each entry in its place, linked to the one before,
      carrying the hash of its own text. */
  ghost predicate Linked(t: Texts, genesis: Hash, chain: seq<Entry>) {
    forall i :: 0 <= i < |chain| ==> LinkedAt(t, genesis, chain, i)
  }

  predicate LinkedAt(t: Texts, genesis: Hash, chain: seq<Entry>, i: nat)
    requires i < |chain|
  {
    && chain[i].version.V3? && chain[i].hash == t.sha(Text(t, chain[i]))
    && chain[i].prevHash == (if i == 0 then genesis else chain[i - 1].hash)
  }

  function HeadOf(genesis: Hash, chain: seq<Entry>): Hash {
    if |chain| == 0 then genesis else chain[|chain| - 1].hash
  }

  lemma LinkedPrefix(t: Texts, genesis: Hash, chain: seq<Entry>, n: nat)
    requires Linked(t, genesis, chain) && n <= |chain|
    ensures Linked(t, genesis, chain[..n])
  {
    hide Text;
    forall i | 0 <= i < n ensures LinkedAt(t, genesis, chain[..n], i) { assert LinkedAt(t, genesis, chain, i); }
  }

  lemma ClashLater(t: Texts, a: seq<Entry>, b: seq<Entry>, n: nat)
    requires n <= |a| && n <= |b| && TextsClash(t, a[..n], b[..n])
    ensures TextsClash(t, a, b)
  {
    hide ClashAt;
    var i :| 0 <= i < n && ClashAt(t, a[..n][i], b[..n][i]);
    assert ClashAt(t, a[i], b[i]);
  }

  /** A length and a head name one chain, or the two chains hold, at one place, different
      texts with one hash. */
  lemma {:induction false} HeadNamesChain(t: Texts, genesis: Hash, a: seq<Entry>, b: seq<Entry>)
    requires Faithful(t) && Linked(t, genesis, a) && Linked(t, genesis, b)
    requires |a| == |b| && HeadOf(genesis, a) == HeadOf(genesis, b)
    ensures a == b || TextsClash(t, a, b)
  {
    hide Text, Faithful;
    if |a| > 0 {
      var n := |a| - 1;
      var x, y := a[n], b[n];
      assert LinkedAt(t, genesis, a, n) && LinkedAt(t, genesis, b, n);
      assert t.sha(Text(t, x)) == t.sha(Text(t, y));
      if Text(t, x) != Text(t, y) {
        assert ClashAt(t, a[n], b[n]);
      } else {
        TextInjective(t, x, y);
        LinkedPrefix(t, genesis, a, n);
        LinkedPrefix(t, genesis, b, n);
        hide TextsClash, Linked;
        HeadNamesChain(t, genesis, a[..n], b[..n]);
        if TextsClash(t, a[..n], b[..n]) { ClashLater(t, a, b, n); }
        assert a == a[..n] + [x] && b == b[..n] + [y];
      }
    }
  }

  /** The engine hashes entries of the newest version over their text. */
  ghost predicate HashesText(t: Texts, env: Env) {
    forall e: Entry :: e.version.V3? ==> env.digest(e) == t.sha(Text(t, e))
  }

  /** Every accepted chain of the newest version is linked. */
  lemma AcceptedIsLinked(t: Texts, env: Env, unit: Unit, chain: seq<Entry>)
    requires Replay(env, unit, chain).Ok? && HashesText(t, env)
    requires forall i :: 0 <= i < |chain| ==> chain[i].version.V3?
    ensures Linked(t, unit.genesis, chain)
  {
    hide Text, Steps;
    forall i | 0 <= i < |chain| ensures LinkedAt(t, unit.genesis, chain, i) {
      AcceptedForm(env, REPLAYING, unit, chain, i);
    }
  }

  /** Entries of the newest version, hashed over their text, that a replay accepts. */
  ghost predicate Replayable(t: Texts, env: Env, unit: Unit, chain: seq<Entry>) {
    && HashesText(t, env) && (forall i :: 0 <= i < |chain| ==> chain[i].version.V3?)
    && Replay(Replaying(env, chain), unit, chain).Ok?
  }

  lemma ReplayableIsLinked(t: Texts, env: Env, unit: Unit, chain: seq<Entry>)
    requires Replayable(t, env, unit, chain)
    ensures Linked(t, unit.genesis, chain)
    ensures var tip := Replay(Replaying(env, chain), unit, chain).value.tip;
            tip.length == |chain| && tip.head == HeadOf(unit.genesis, chain)
  {
    hide Text, Steps, SpendIndex, StoreRefunds, Leaves;
    AcceptedIsLinked(t, Replaying(env, chain), unit, chain);
    FrontierKept(Replaying(env, chain), REPLAYING, unit, chain);
  }

  /** Two replayable chains that end in states of one length and one head are one chain,
      or hold, at one place, different texts with one hash. */
  lemma HeadNamesReplay(t: Texts, env: Env, unit: Unit, a: seq<Entry>, b: seq<Entry>)
    requires Faithful(t) && Replayable(t, env, unit, a) && Replayable(t, env, unit, b)
    requires var x, y := Replay(Replaying(env, a), unit, a).value.tip, Replay(Replaying(env, b), unit, b).value.tip;
             x.length == y.length && x.head == y.head
    ensures a == b || TextsClash(t, a, b)
  {
    hide Faithful, Replayable, Linked, TextsClash;
    ReplayableIsLinked(t, env, unit, a);
    ReplayableIsLinked(t, env, unit, b);
    HeadNamesChain(t, unit.genesis, a, b);
  }

  // -- the root names the chain -------------------------------------------------------------------

  /** A digest as it is written: 64 lower-case hex digits. */
  predicate HexHash(h: Hash) { |h| == 64 && forall i :: 0 <= i < |h| ==> HexDigit(h[i]) }

  /** Two digits to the byte, which is how a leaf is read from an entry's hash. */
  ghost predicate ReadsHex(leaf: Hash -> Merkle.Bytes) {
    forall h :: HexHash(h) ==> ReadHex(h, leaf(h))
  }

  predicate ReadHex(h: Hash, b: Merkle.Bytes)
    requires HexHash(h)
  {
    |b| == 32 && forall i :: 0 <= i < |b| ==> b[i] as int == 16 * Nibble(h[2 * i]) + Nibble(h[2 * i + 1])
  }

  lemma HexTells(leaf: Hash -> Merkle.Bytes, g: Hash, h: Hash)
    requires ReadsHex(leaf) && HexHash(g) && HexHash(h) && leaf(g) == leaf(h)
    ensures g == h
  {
    assert ReadHex(g, leaf(g)) && ReadHex(h, leaf(h));
    forall j | 0 <= j < 64 ensures g[j] == h[j] {
      var i := j / 2;
      var b := leaf(g)[i] as int;
      assert b == 16 * Nibble(g[2 * i]) + Nibble(g[2 * i + 1]) && b == 16 * Nibble(h[2 * i]) + Nibble(h[2 * i + 1]);
      assert Nibble(g[2 * i]) == Nibble(h[2 * i]) && Nibble(g[2 * i + 1]) == Nibble(h[2 * i + 1]);
      assert j == 2 * i || j == 2 * i + 1;
    }
  }

  lemma RootedHash(t: Texts, genesis: Hash, chain: seq<Entry>, e: Entry)
    requires Linked(t, genesis, chain) && e in chain && (forall x :: HexHash(t.sha(x)))
    ensures HexHash(e.hash)
  {
    hide Text, HexHash;
    var i :| 0 <= i < |chain| && chain[i] == e;
    assert LinkedAt(t, genesis, chain, i);
  }

  /** Two replayable chains of one length and one Merkle root are one chain; or, at one
      place, they hold different texts with one hash; or hashing their two trees met a
      collision. */
  lemma RootNamesReplay(t: Texts, env: Env, unit: Unit, a: seq<Entry>, b: seq<Entry>)
    requires Faithful(t) && Replayable(t, env, unit, a) && Replayable(t, env, unit, b) && |a| == |b|
    requires Merkle.FixedWidth(env.sha) && ReadsHex(env.leaf) && forall x :: HexHash(t.sha(x))
    requires var x, y := Replay(Replaying(env, a), unit, a).value.tip, Replay(Replaying(env, b), unit, b).value.tip;
             Merkle.Root(env.sha, x.frontier) == Merkle.Root(env.sha, y.frontier)
    ensures a == b || TextsClash(t, a, b) || Merkle.Clash(env.sha, Leaves(env, a), Leaves(env, b))
  {
    hide Faithful, Linked, TextsClash, Merkle.Clash, HexHash, Steps, Leaves, Merkle.Root, ReadsHex, Merkle.FixedWidth,
          Text, SpendIndex, StoreRefunds;
    ReplayableIsLinked(t, env, unit, a);
    ReplayableIsLinked(t, env, unit, b);
    var at, bt := Replaying(env, a), Replaying(env, b);
    forall x, y | x in a && y in b && at.leaf(x.hash) == at.leaf(y.hash) ensures x.hash == y.hash {
      RootedHash(t, unit.genesis, a, x);
      RootedHash(t, unit.genesis, b, y);
      HexTells(env.leaf, x.hash, y.hash);
    }
    SameLeaves(env, at, a);
    SameLeaves(env, at, b);
    RootIdentifiesChain(at, bt, REPLAYING, unit, a, b);
    if |a| > 0 && !Merkle.Clash(env.sha, Leaves(env, a), Leaves(env, b)) { assert a[|a| - 1].hash == b[|a| - 1].hash; }
    if HeadOf(unit.genesis, a) == HeadOf(unit.genesis, b) { HeadNamesChain(t, unit.genesis, a, b); }
  }

  // -- a chain that moved ------------------------------------------------------------------------

  datatype Moved = Rollback(confirmed: bool) | Rewritten

  /** The hash a view remembers for a sequence, among the newest it kept. */
  function Known(recent: seq<(int, Hash)>, sequence: int): (r: Option<Hash>)
    ensures r.Some? ==> (sequence, r.value) in recent
  {
    if |recent| == 0 then None
    else if recent[0].0 == sequence then Some(recent[0].1)
    else Known(recent[1..], sequence)
  }

  /** What a view says when the store no longer holds the head it verified. */
  function Refused(recent: seq<(int, Hash)>, verified: nat, length: nat, head: Hash): Moved {
    var known := Known(recent, length);
    if 0 < length < verified && (known.None? || known.value == head) then Rollback(known.Some?) else Rewritten
  }

  /** A confirmed rollback means what it says: the store, if what it holds replays, holds a
      proper prefix of the chain the view replayed, or the two hold, at one place,
      different texts with one hash. */
  lemma RollbackIsAPrefix(t: Texts, env: Env, unit: Unit, view: seq<Entry>, store: seq<Entry>, recent: seq<(int, Hash)>)
    requires Faithful(t) && Replayable(t, env, unit, view) && Replayable(t, env, unit, store)
    requires forall p :: p in recent ==> 0 < p.0 <= |view| && p.1 == view[p.0 - 1].hash
    requires Refused(recent, |view|, |store|, HeadOf(unit.genesis, store)) == Rollback(true)
    ensures (|store| < |view| && store == view[..|store|]) || TextsClash(t, store, view)
  {
    hide Text, Faithful, Linked, Replayable, TextsClash;
    var n := |store|;
    ReplayableIsLinked(t, env, unit, view);
    ReplayableIsLinked(t, env, unit, store);
    LinkedPrefix(t, unit.genesis, view, n);
    HeadNamesChain(t, unit.genesis, store, view[..n]);
    assert store[..n] == store;
    if TextsClash(t, store, view[..n]) { ClashLater(t, store, view, n); }
  }

  /** What is called a rollback is shorter than what was verified; confirmed if and only if
      its head is the one remembered there, unconfirmed only where none is remembered; and
      what is as long, or empty, or has another head than the one remembered, never is. */
  lemma RollbackMeans(recent: seq<(int, Hash)>, verified: nat, length: nat, head: Hash)
    requires forall p, q :: p in recent && q in recent && p.0 == q.0 ==> p == q
    ensures var r := Refused(recent, verified, length, head);
            && (r == Rollback(true) <==> 0 < length < verified && (length as int, head) in recent)
            && (r == Rollback(false) <==> 0 < length < verified && forall p :: p in recent ==> p.0 != length)
  {
    if p :| p in recent && p.0 == length {
      assert (length as int, p.1) in recent;
      KnownFound(recent, length);
    }
  }

  /** A store cut back to a prefix within what the view remembers is always called so. */
  lemma PrefixIsARollback(genesis: Hash, view: seq<Entry>, n: nat, recent: seq<(int, Hash)>)
    requires 0 < n < |view| && (n as int, view[n - 1].hash) in recent
    requires forall p :: p in recent ==> 0 < p.0 <= |view| && p.1 == view[p.0 - 1].hash
    ensures Refused(recent, |view|, n, HeadOf(genesis, view[..n])) == Rollback(true)
  {
    KnownFound(recent, n);
  }

  lemma {:induction false} KnownFound(recent: seq<(int, Hash)>, sequence: int)
    requires exists h :: (sequence, h) in recent
    ensures Known(recent, sequence).Some?
  {
    var h :| (sequence, h) in recent;
    if recent[0].0 != sequence {
      assert (sequence, h) in recent[1..];
      KnownFound(recent[1..], sequence);
    }
  }
}
