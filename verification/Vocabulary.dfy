/**
 The ledger's vocabulary: entries, their kinds and directions, scopes, and the
 reasons a rule can refuse an entry.  Amounts are whole counts of 1e-8 of the
 ledger's unit, instants are integers, and identifiers are abstract numbers.
 */
module Vocabulary {
  type Id = nat
  type Scope = string
  type Hash = string
  type HoldKey = (Scope, int)

  datatype Option<+T> = None | Some(value: T)

  datatype Direction = Debit | Credit | Neutral

  datatype Kind =
    | Funding | Allocation | Release | Hold | HoldVoid | Spend | Reversal
    | CircuitTripped | CircuitReset | Anchor | Seal | Checkpoint

  datatype Version = V1 | V2 | V3 | Unknown(tag: string)

  datatype Entry = Entry(
    sequence: int, id: Id, txn: Id, time: int, kind: Kind, direction: Direction,
    scope: Scope, counterparty: Option<Scope>, amount: int, balanceAfter: int,
    prevHash: Hash, hash: Hash, memo: string, ref: Option<Id>, version: Version)

  predicate LegalDirection(kind: Kind, direction: Direction) {
    match kind
    case Funding | HoldVoid | Reversal => direction.Credit?
    case Allocation | Release => direction.Debit? || direction.Credit?
    case Hold | Spend => direction.Debit?
    case CircuitTripped | CircuitReset | Anchor | Seal | Checkpoint => direction.Neutral?
  }

  predicate Balanced(kind: Kind) { kind.Allocation? || kind.Release? }

  predicate ZeroValue(kind: Kind) {
    kind.CircuitTripped? || kind.CircuitReset? || kind.Anchor? || kind.Seal? || kind.Checkpoint?
  }

  predicate Scopeless(kind: Kind) { kind.Seal? || kind.Checkpoint? }

  /** Kinds that may name a hold, or (from the third version) a spend. */
  predicate Referencing(kind: Kind, version: Version) {
    kind.HoldVoid? || kind.Spend? || (kind.Reversal? && version.V3?)
  }

  function Signed(direction: Direction, amount: int): int {
    match direction
    case Credit => amount
    case Debit => -amount
    case Neutral => 0
  }

  function Key(e: Entry): HoldKey { (e.scope, e.amount) }

  /** What is known of a scope: only structure, never money. */
  datatype Node = Node(scope: Scope, parent: Option<Scope>, depth: nat, allotted: int,
                       children: seq<Scope>, created: int)

  datatype Trip = Trip(at: int, reason: string)

  datatype Totals = Totals(funded: int, spent: int, reversed: int, holdsOpen: int)

  /** What a ledger conserves: its genesis, and the smallest count of it. */
  datatype Unit = Unit(genesis: Hash, quantum: nat)

  const MAX_ID_BYTES := 1024
  const MAX_MEMO_BYTES := 65536

  function Utf8Size(text: string): nat {
    if |text| == 0 then 0
    else
      var c := text[0] as int;
      (if c < 0x80 then 1 else if c < 0x800 then 2 else if c < 0x10000 then 3 else 4) + Utf8Size(text[1..])
  }

  predicate ControlChar(c: char) {
    (c as int) < 0x20 || 0x7f <= (c as int) <= 0x9f
  }

  predicate TextAllowed(text: string, limit: nat, identifier: bool) {
    && Utf8Size(text) <= limit
    && (if identifier then forall i :: 0 <= i < |text| ==> !ControlChar(text[i])
        else forall i :: 0 <= i < |text| ==> text[i] as int != 0)
  }

  datatype Fault =
    | SequenceGap | BrokenLink | UnknownVersion | HashMismatch
    | OldEntryAfterNew | RefOnFirstVersion | KindNotInFirstVersion | NotSealed | FormatWentBack
    | WrongDirection | BadText | TimeRanBack | CheckpointVersion
    | AmountNotPositive | AmountTooFine | AmountNotZero | ScopeMissing | ScopeNotAllowed
    | MalformedCheckpoint | CheckpointNotBefore | CheckpointNotAfter | SecondSeal | NothingToSeal
    | Unbalanced | WrongBalance | RefNotAllowed | NotReleasedHere
    | NotASpend | SpendOfAnotherScope | SpendOverRefunded
    | ReleaseNamesNoHold | HoldNotOpen | HoldOfAnotherScope | HoldOfAnotherAmount | NoSuchHoldOpen
    | ScopeOverRefunded | BadSeal | NotARoot | ScopeExists | UnknownParent | NotChildAndParent
    | UnknownScope | NoLines | SnapshotMismatch | HeadMoved

  datatype Result<+T> = Ok(value: T) | Err(fault: Fault) {
    predicate IsFailure() { Err? }
    function PropagateFailure<U>(): Result<U>
      requires Err?
    {
      Err(fault)
    }
    function Extract(): T
      requires Ok?
    {
      value
    }
  }

  function Get<K>(m: map<K, int>, k: K): int {
    if k in m then m[k] else 0
  }
}
