# AgentGov ledger: a verified model

AgentGov governs what software agents may spend. Money lives in an append-only,
hash-chained ledger; one rule engine serves writing, catching up, replaying, opening
from a checkpoint and auditing; a governor (`BudgetManager`) writes through it, alone
or as one of a fleet over a shared store. This project models that core in Dafny and
proves what it promises: that all paths through the rules agree, that money is
conserved scope by scope and subtree by subtree, that the concurrent protocols are
safe in every interleaving, and that the hash text and the Merkle frontier mean what
they claim.

How it is laid out:

- `Vocabulary`, `Dict`, `Engine`: entries, insertion-ordered dictionaries, and the
  rules as pure functions (`Step`, `Batch`, `Replay`).
- `Overlay`: the state and the copy-on-write view as classes, each method proved
  against the pure rule; `Layers`: the holds as a view stages them, and exactly when
  that is the rule. `Post`: units of work. `Governor`: the ledger's commit and the
  governor's operations as classes over them.
- `Replays`, `Stores`, `Laws`, `Forms`, `Trees`, `Snapshots`, `Cuts`, `CutInputs`,
  `Opening`, `Origins`, `Acceptance`: agreements between paths, whether refunds are counted in memory
  or asked of a store, what cutting a chain changes, invariants of every accepted
  chain, and exactly which chains are accepted.
- `Audits`, `AuditExact`, `Resume`, `ResumeExact`, `ResumeInputs`: the auditor, exactly
  when an audit passes and when a resumed run agrees with one from genesis, and ledgers on
  which it does not.
- `Manager`, `Effects`, `Accounts`, `Progress`, `Subtree`, `Governance`, `Overdrafts`,
  `Transaction`: what each operation does, records and answers, when it is done, and what
  runs of operations keep.
- `GroupCommit`, `GroupAnswers`, `Fleet`, `FleetLog`, `Composition`, `Async`: protocols as
  step relations over every run, what their steps alone decide, and the fleet as one run of
  operations.
- `Merkle`, `Encoding`, `Documents`, `Heads`, `Reconcile`, `Caches`, `Cognitive`,
  `Detectors`: the frontier, the hash text, matching authorizations and cached rows, the
  cognitive breaker.

Conventions. Amounts are whole counts of 1e-8 of the unit; instants are integers;
UUIDs are abstract ids. Hash functions are parameters: nothing is assumed of them but
the form of their digests, and every result that rests on them names what would have to
collide instead, always two inputs hashed for the very things compared. The rules never
check that entry ids are distinct, so results that need it take it as a hypothesis, as they do
that a newly drawn id is new. How a memo reads as a checkpoint, which entries a refund
can name, and a store's refund sums are parameters of the rules (`Env`). The clock, new
ids, a store's failure and the velocity check's verdict are parameters of the
operations.

Where a promise holds only under a condition, the condition is proved exact.
`OperationOverdraws` and `OverdrawnExactly`: a balance goes negative if and only if a
settlement charges more than its hold and what is left. `ResumedAuditAgrees`: a resumed
audit agrees with one from genesis if and only if the stored digest column, which it does
not read, is right, and every checkpoint named below the mark after the mark was made
would have passed. Both conditions can fail: `SkippedCheckpoint` and `WrongColumn` are
ledgers where they do. `OpeningAgreesWithReplay`: an opening refuses what a replay
accepts if and only if its snapshot cuts a settlement from its release, as in
`CutSettlement`. `ReplaysExactly`: which ledgers replay, said of their entries
alone. `AgreesExactly`: a view answers as the rules do if and only if it reuses
no id of a kept hold. `DoneExactly`: when an operation is done. `AuditPassesExactly`,
`AnswersExactly`, `ChargedExactly`: when an audit passes, what a group commit's caller is
told, when a call is charged. `RetainedExactly`, `RefusedExactly`: what the cognitive
breaker retains, resets included, and refuses.

## Model

| member | source | states |
|---|---|---|
| `Merkle.FrontierAppend` | src/agentgov/core.py:928-948 | the carry loop pops one node per trailing one-bit and leaves exactly the compact range extended by the leaf, with as many nodes as the new length has one-bits |
| `Merkle.ExtendPeaks` | src/agentgov/core.py:928-948 | extending the peaks of n leaves by a leaf gives the peaks of the n + 1 leaves, for every n |
| `Merkle.FoldedIsPeaks` | src/agentgov/core.py:928-948 | appending leaf after leaf from nothing gives the perfect-subtree roots of all of them, largest first |
| `Merkle.FrontierRoot` | src/agentgov/core.py:951-958 | the fold from the right computes the root of the frontier, the empty tree's for an empty one |
| `Merkle.FrontierIsTheTree` | src/agentgov/core.py:928-958 | appending every leaf and taking the root is the recursive Merkle tree hash of section 2.1.1 of RFC 9162 over them; the frontier has as many nodes as the length has one-bits |
| `Merkle.RootCommits` | src/agentgov/core.py:928-958 | equal length and equal root mean equal leaves, or two different inputs, one hashed in each of the two trees, have one digest |
| `Overlays.ChainState.constructor` | src/agentgov/core.py:1038-1040 | the state of a ledger with no entries |
| `Overlays.Overlay.constructor` | src/agentgov/core.py:1155-1200 | a view over a state sees exactly that state, with no transaction open and nothing staged |
| `Forms.EveryChainIsFormal` | src/agentgov/core.py:1429-1461 | on every accepted chain formats never go back, entries of the oldest format are followed by exactly one seal and there is no other, and in the newest format time never runs backwards |
| `Forms.EveryEntryIsShaped` | src/agentgov/core.py:1463-1552 | on every accepted chain each entry has a legal direction, a positive whole number of quanta or none, a scope where its kind has one, text within bounds in the newest format; and each checkpoint names an earlier sequence, later than any named before |
| `Overlays.Overlay.BeginTransaction` | src/agentgov/core.py:1554-1558 | an entry of another transaction closes the one before it |
| `Overlays.Overlay.EndTransaction` | src/agentgov/core.py:1356-1368 | a transaction whose transfers do not net to zero is refused; else its settleable holds are forgotten |
| `Overlays.Overlay.CheckBalance` | src/agentgov/core.py:1333-1343 | the recorded running balance must be the implied one; transfers add to the transaction's net |
| `Overlays.Overlay.CheckHolds` | src/agentgov/core.py:1560-1583 | holds are placed, released, and named by the spends that settle them; a reference elsewhere is refused |
| `Overlays.Overlay.ReleaseNamed` | src/agentgov/core.py:1609-1645 | a named release closes the open hold of that id, scope and amount |
| `Overlays.Overlay.FindHold` | src/agentgov/core.py:1647-1664 | the search finds the first open hold of a scope and amount across base and staged holds, or that there is none |
| `Overlays.Overlay.ReleaseUnnamed` | src/agentgov/core.py:1647-1664 | a first-version release closes the first open hold of its scope and amount and marks that key ambiguous |
| `Overlays.Overlay.CheckRefund` | src/agentgov/core.py:1585-1607 | a refund naming a spend: it must be one, of this scope, and not be refunded past its amount by all refunds naming it |
| `Overlays.Overlay.CheckFlows` | src/agentgov/core.py:1671-1695 | lifetime spend and refunds of a scope; refunds beyond spend refused for new entries |
| `Overlays.Overlay.Allocate` | src/agentgov/core.py:1756-1782 | a delegation's credit creates the child under its parent, one deeper, listed last; its debit needs a known scope |
| `Overlays.Overlay.ReleaseBetween` | src/agentgov/core.py:1784-1794 | a release is between a child and its own parent, whichever leg it is |
| `Overlays.Overlay.Control` | src/agentgov/core.py:1796-1802 | trips latch and resets unlatch a known scope |
| `Overlays.Overlay.CheckTree` | src/agentgov/core.py:1697-1738 | what each kind of entry does to the delegation tree, staged copy-on-write |
| `Overlays.Overlay.Apply` | src/agentgov/core.py:1286-1354 | the imperative copy-on-write step is exactly the pure step of a view with its staged holds, fault for fault, on every entry; and the pure rule on the value shown while no id of a kept hold is reused |
| `Overlays.Overlay.Merge` | src/agentgov/core.py:1382-1425 | popping each closed hold, putting in each placed one, overwriting only the allotment of a known scope, adding new ones, extending child lists, and setting or dropping trips and counts, one by one, leaves exactly the value the view showed, orders included |
| `Overlays.Overlay.CacheRows` | src/agentgov/core.py:1278-1282 | the staged rows written over the base's rows are the rows of the whole new state; the staged holds layered over the base's are the open holds |
| `Overlays.RunBatch` | src/agentgov/core.py:1832-1865 | one view, every entry, one merge is the pure batch of a view with its staged holds; a batch that fails leaves the state untouched, and one whose holds are new does what the rules say |
| `Layers.AgreesExactly` | src/agentgov/core.py:1213-1223 | a view answers every next entry as the rules do on what it shows if and only if it placed no hold under the id of a kept one |
| `Layers.ReusedDiffers` | src/agentgov/core.py:1666-1669 | a hold placed under a kept id and released by name: the rules have it gone, the view does not find it or shows the kept hold again |
| `Layers.BatchAgrees` | src/agentgov/core.py:1832-1865 | a batch whose holds are new to the state goes through the staged layers exactly as through the rules |
| `Stores.DivisionAgrees` | src/agentgov/core.py:1382-1425 | however entries are cut into views merged one after another, refunds counted in memory or asked of a store: if each is accepted one view over all accepts to the same state, and if that one accepts so does every division cut between transactions |
| `Replays.ResolverGrows` | src/agentgov/core.py:1868-1878 | a spend a write could name is found, the same, by the replay of any longer chain |
| `Replays.WriteThenReplay` | src/agentgov/core.py:2712-2716 | an entry the write rules accept, the replay rules accept with the same effect |
| `Stores.PostsReplay` | src/agentgov/core.py:1832-1878 | whatever writes commit in any number of units of work, over either kind of ledger, one replay of the whole chain reaches the state they left |
| `Stores.PostedOverStore` | src/agentgov/core.py:3232-3236 | posting over a store that keeps history accepts, refuses and reaches what posting in memory does, but for the counts only memory keeps |
| `Stores.BatchEither` | src/agentgov/core.py:1252-1259 | one view of either kind, over the same entries: same verdict, same fault, same state but for the counts |
| `Posts.Pending.Build` | src/agentgov/core.py:2610-2706 | lines are refused at the first bad one, else become the entries the drafting function defines: sequence, link, running balance, time, hash |
| `Posts.Pending.Post` | src/agentgov/core.py:2595-2716 | a post succeeds exactly when its lines are well formed and the built entries pass every rule; then the view and the work grow by them, else the work's entries are unchanged |
| `Posts.BuiltFits` | src/agentgov/core.py:2613-2706 | whatever the lines, a built entry never fails its link, hash, balance, direction, text or time when applied |
| `Posts.DraftStamps` | src/agentgov/core.py:2613-2706 | a post stamps its entries with the ids drawn, one transaction, consecutive sequences, and the clock's time or the chain's if that is later, and gives them the lines' words, references and counterparties |
| `Posts.PostsAreOneBatch` | src/agentgov/core.py:2595-2716 | several transactions posted into one unit of work are one batch over all their entries |
| `Laws.HoldEffect` | src/agentgov/core.py:1560-1669 | an accepted entry places its own hold or takes out one of its own scope and amount, and nothing else |
| `Laws.WorthStep` | src/agentgov/core.py:1333-1346 | balance + held + spent - refunded of a scope changes only by funding and transfers |
| `Laws.EveryChainKeeps` | src/agentgov/core.py:1333-1368 | on every accepted chain with distinct ids, at every point: each scope is worth what it was granted; balances + holds + spent - reversed - funded is the open transaction's net; hold totals and counts are those of the open holds |
| `Laws.ReplayConserves` | src/agentgov/core.py:3338-3362 | at the end of a replay the conservation identity holds exactly |
| `Laws.NoHoldReleasedTwice` | src/agentgov/core.py:1609-1645 | every named release names an earlier hold of its scope and amount, no two name the same one, and a released hold is never open again |
| `Stores.NeverOverRefunded` | src/agentgov/core.py:1585-1607 | on every replayable chain with distinct ids, of either kind, the refunds naming a spend never sum to more than it |
| `Laws.AcceptedForm` | src/agentgov/core.py:1305-1354 | every accepted entry is in its place, linked, correctly hashed, and moves a positive amount or none |
| `Laws.FrontierKept` | src/agentgov/core.py:1351-1354 | the length, head and frontier of a state are those of its entries |
| `Laws.RootIdentifiesChain` | src/agentgov/core.py:928-958 | two accepted chains of one length and root hold the same entry hashes, place by place, or hashing their two trees met a collision |
| `Acceptance.AcceptedExactly` | src/agentgov/core.py:1286-1830 | entries are accepted if and only if each agrees with those before it, where agreeing names no state the engine keeps: its place, link, format, form, transaction, balance, hold, refund and scopes are what those entries say they must be |
| `Acceptance.ReplaysExactly` | src/agentgov/core.py:1832-1866 | a ledger replays if and only if each entry so agrees and its last transaction balances |
| `Acceptance.StateIsSaid` | src/agentgov/core.py:1286-1354 | on every accepted chain the engine's balances, lifetime flows, open holds in their order, refunds of each spend and open transaction are those its entries say |
| `Acceptance.FaultsAreTrue` | src/agentgov/core.py:1286-1830 | whatever is refused, the reason given is true of the entry and of the entries before it |
| `Origins.EntryTellsTruth` | src/agentgov/core.py:1333-1343 | every accepted entry records the balance it leaves its scope, refers only to what its kind and version may, and, refunding a named spend, stays in that spend's scope |
| `Origins.TransactionsBalance` | src/agentgov/core.py:1356-1368 | wherever one transaction ends and another begins, all transfers so far add up to nothing |
| `Origins.AmbiguousExactly` | src/agentgov/core.py:1647-1664 | the ambiguous keys are exactly those of a release that named no hold |
| `Origins.RefundsWithinSpend` | src/agentgov/core.py:1671-1695 | on a chain of writes, or of the newest version, no scope is refunded more than it spent |
| `Origins.SealVouches` | src/agentgov/core.py:1819-1832 | the one seal of an accepted chain vouches for what came before it |
| `Trees.EveryTreeIsKept` | src/agentgov/core.py:1697-1802 | every accepted chain builds a well-formed tree: parents registered first, depth one more than the parent's, children listed both ways, trips only on known scopes |
| `Origins.TreeTellsChain` | src/agentgov/core.py:1697-1802 | each scope was created when its first grant was entered, under the scope it came from, and is allotted the sum of its grants; it is tripped exactly if its newest control entry is a trip, as of its time and for its reason |
| `Origins.FamilyTellsChain` | src/agentgov/core.py:1697-1794 | the tree lists scopes, roots and the children of each in the order the chain created them, and no other |
| `Origins.ScopesKnown` | src/agentgov/core.py:1804-1812 | every entry that belongs to a scope belongs to one the chain created |
| `Trees.GovernKeeps` | src/agentgov/core.py:1697-1802 | an entry keeps the tree well formed and never moves, removes or shrinks what was there |
| `Trees.HaltedBy` | src/agentgov/core.py:6868-6876 | the ancestor walk ends, and finds a tripped scope at or above exactly when there is one |
| `Trees.UnderStays` | src/agentgov/core.py:6868-6882 | who is under whom never changes as the tree grows |
| `Snapshots.RoundTrip` | src/agentgov/core.py:2314-2457 | every sound state decodes back from its snapshot, but for the refunds a store answers for |
| `Snapshots.OneDocument` | src/agentgov/core.py:2314-2320 | no two documents decode to one state |
| `Snapshots.DigestNamesState` | src/agentgov/core.py:2314-2320 | two sound states with one snapshot digest are one state, refund counts aside, or their own two documents differ with one digest |
| `Opens.StepTwins` | src/agentgov/core.py:1252-1259 | counting refunds in memory and asking the store for them accept and refuse the same entries with the same effect |
| `Opens.OpeningFindsSpends` | src/agentgov/core.py:3247-3253 | the resolver of an opening finds the same spends as one over the whole chain |
| `Opens.OpeningAgreesWithReplay` | src/agentgov/core.py:2905-2916 | opening from the snapshot of any replayed prefix and verifying the rest accepts exactly what a replay from genesis accepts, to its state, but for a settlement the snapshot cut from its release, which it refuses |
| `Opens.OpeningBetweenTransactions` | src/agentgov/core.py:2905-2916 | from a snapshot between two transactions it accepts exactly what a replay accepts, always |
| `Cuts.TwoParts` | src/agentgov/core.py:1356-1380 | a chain verified in two parts is accepted exactly when it is accepted whole and no spend settles a hold its transaction released only before the cut; then to one state |
| `CutInputs.CutSettlement` | src/agentgov/core.py:1578-1583 | a chain of four entries that replays whole and is refused from the snapshot between the release and its settlement |
| `Opens.OnlyTheNamedSnapshotOpens` | src/agentgov/core.py:2865-2916 | whatever is stored in place of the snapshot the newest checkpoint names, opening refuses, or serves what a full replay reaches, or the stored document differs from the named one and has its digest |
| `Opens.NamedSnapshotOpens` | src/agentgov/core.py:2865-2916 | and the snapshot the newest checkpoint names, as it was made, does open to what a full replay reaches, unless it cuts a settlement from its release |
| `Audits.FoldIn` | src/agentgov/audit.py:153-158 | folding a view at a checkpoint closes its transaction, merges, and fails unless the stored and named snapshot is the state's |
| `Audits.Run` | src/agentgov/audit.py:147-178 | the audit loop, merging at every checkpoint, is the pure audit: same verdict, same fault, same state |
| `Resumes.Resume` | src/agentgov/audit.py:194-209 | the newest usable mark is started from, or genesis when none is |
| `Resumes.AuditCarries` | src/agentgov/audit.py:146-161 | what an audit accepted, an audit of the longer ledger accepts, to the same view |
| `AuditExact.AuditPassesExactly` | src/agentgov/audit.py:147-178 | an audit from genesis passes if and only if the chain replays, every checkpoint named in it is the state there by digest, document and column and cuts no settlement, and the chain is as long and ends in the head as reported; its state is then the replay's |
| `AuditExact.AuditedReplays` | src/agentgov/audit.py:147-161 | as far as an audit gets a replay gets |
| `AuditExact.PickedAgrees` | src/agentgov/audit.py:194-209 | a run resumed from whichever mark was picked agrees with one from genesis under the same exact condition, marks being what earlier audits left |
| `ResumeExact.ResumedAuditAgrees` | src/agentgov/audit.py:131-209 | over a ledger and records only added to, a resumed audit says the same of every prefix as one from genesis if and only if the stored digest column is right and every checkpoint below the mark named since would have passed and cuts no settlement from its release; or the document stored at the mark is not the verified state's and has its digest |
| `ResumeExact.ResumedRunAgrees` | src/agentgov/audit.py:162-178 | then the whole resumed run has the verdict, state and head of the run from genesis |
| `ResumeExact.NamedMarkAgrees` | src/agentgov/audit.py:139-144 | when the mark's checkpoint was already in the chain nothing below it is late, so the two agree exactly where the stored digest column is right, or the document stored there differs from the state's with its digest |
| `ResumeInputs.SkippedCheckpoint` | src/agentgov/audit.py:153-158 | a chain the run from genesis refuses and the resumed one accepts whole: sequence 1 was named by a checkpoint after the mark at 2, and its snapshot is missing; for every digest |
| `ResumeInputs.WrongColumn` | src/agentgov/audit.py:200-206 | a chain on which they differ because only the run from genesis reads the stored digest column; for every digest |
| `Resumes.NamedStays` | src/agentgov/core.py:1537-1552 | once a sequence is named by a checkpoint, nothing at or below it is ever named anew, so a resumed run skips no checkpoint |
| `Governors.Ledger.Commit` | src/agentgov/core.py:3189-3230 | a commit the store refuses changes nothing; one it takes makes state, entries, authorizations and cache rows move together, the rows being what the chain implies and authorizations one per open hold |
| `Governors.BudgetManager.Staged` | src/agentgov/core.py:6972-6984 | the trip a settlement stages: overdrawn, or spent out with no hold left, unless latched |
| `Governors.BudgetManager.Work` | src/agentgov/core.py:6733-6767 | a unit of work is done whole or not at all, and keeps the ledger's caches and tree in order |
| `Governors.BudgetManager.OpenRoot` | src/agentgov/core.py:5738-5778 | refused exactly for a non-positive envelope, an empty or a known scope; done, the scope is a childless root allotted and holding the envelope, and nothing else changed; otherwise nothing changed |
| `Governors.BudgetManager.Fund` | src/agentgov/core.py:5806-5834 | refused exactly for a non-positive amount or a scope that is not a known root; done, its balance and allotment grew by the amount rounded down, and nothing else changed |
| `Governors.BudgetManager.Delegate` | src/agentgov/core.py:5868-5927 | refused exactly for its seven reasons, the halt found by walking the ancestors; done, parent and child balances moved by the amount either way, the child is a new leaf one deeper under its parent, and nothing else changed |
| `Governors.BudgetManager.GiveBack` | src/agentgov/core.py:5950-5987 | refused, or without effect, exactly when it should be; done, the amount moved from the scope to its parent and the tree is as it was |
| `Governors.BudgetManager.Authorize` | src/agentgov/core.py:6060-6111 | done, the scope was not halted and could pay, its balance fell by the hold, and exactly that hold is open more; a refusal trips the scope exactly on a runaway loop or, by policy, an overdraft attempt, with that as its reason, and else changes nothing |
| `Governors.BudgetManager.Capture` | src/agentgov/core.py:6170-6235 | refused exactly for a negative cost or a hold not open; done, the hold is gone, its scope's balance moved by hold less charge, its spend grew by the charge, nothing else moved, and overdrawn implies tripped |
| `Governors.BudgetManager.VoidHold` | src/agentgov/core.py:7000-7019 | refused exactly for a hold not open; done, the hold is gone, its amount is back, and nothing else changed |
| `Governors.BudgetManager.Refund` | src/agentgov/core.py:6357-6416 | refused exactly beyond what the scope, or the spend named, has unrefunded; done, balance and refunds of the scope grew by the amount and nothing else changed, and the entry names the spend, so of it so much more is refunded and of no other |
| `Governors.BudgetManager.Redeem` | src/agentgov/core.py:5308-5356 | refused exactly for an unknown scope; done, the claim's hold is gone if it was open, balance and spend moved by hold and claim, nothing else moved, and overdrawn implies tripped |
| `Governors.BudgetManager.AnchorIn` | src/agentgov/core.py:6437-6454 | refused exactly for an empty record or an unknown scope; done, the chain is longer and no money, hold or scope changed |
| `Governors.BudgetManager.TripScope` | src/agentgov/core.py:6585-6598 | refused exactly for an unknown scope, without effect on a latched one; done, that scope is latched and nothing else changed |
| `Governors.BudgetManager.ResetScope` | src/agentgov/core.py:6601-6628 | refused exactly without a memo or for an unknown scope, without effect on an unlatched one; done, that scope is unlatched and nothing else changed |
| `Governors.BudgetManager.IsHalted` | src/agentgov/core.py:6868-6882 | halted exactly when some scope at or above is tripped |
| `Accounts.WhatIsEntered` | src/agentgov/core.py:5738-6454 | when an operation is done the chain grew by exactly the entries its arguments ask for, kind, direction, scope, counterparty, amount, reference and the caller's words, and at most a trip of the scope settled in |
| `Accounts.RefusedTruly` | src/agentgov/core.py:5738-6454 | whatever reason an operation is refused for is so, on the state it was refused on |
| `Accounts.SettlementTrips` | src/agentgov/core.py:6972-6984 | a settlement trips its scope if and only if it left it overdrawn, or, after a hold, spent out with no hold open and the policy on, and says which; and no other breaker moves |
| `Accounts.CountMeans` | src/agentgov/core.py:6972-6984 | the count such a trip reads is zero exactly when the scope has no hold open |
| `Accounts.RefundIsNamed` | src/agentgov/core.py:6374-6413 | a refund done names the spend it was asked to, so of that spend exactly the credited amount more is refunded and of every other as much as before |
| `Accounts.CallsAreNamed` | src/agentgov/core.py:6374-6413 | on every run the refunds in the chain that name a spend are those of the calls done that named it |
| `Accounts.CallsWithinSpend` | src/agentgov/core.py:6374-6413 | so the calls of a run that name a spend never refund more of it than it spent |
| `Governors.CachesAreReplayed` | src/agentgov/core.py:3189-3266 | after any commits, the state, topology rows, control rows and authorizations are those a replay of the chain implies, one authorization for each open hold |
| `Governors.ManagerConserves` | src/agentgov/core.py:5738-5987 | a manager object is always at the run of its operations so far, so what is proved of runs holds of it: here, that every subtree is worth its allotment less what it gave back |
| `Governors.ManagerDone` | src/agentgov/core.py:6733-6767 | on a manager's state an operation is done exactly when its own checks pass, its lines are legal and the store takes them, and fails exactly when there was something to write and one of the last two was wanting |
| `Progress.PerformsExactly` | src/agentgov/core.py:2595-2716 | on every ready state an operation writes if and only if it planned lines of legal text and whole amounts, releasing holds into their own scope, or planned a trip: no rule refuses what its checks let through |
| `Progress.DoneExactly` | src/agentgov/core.py:6733-6767 | so its caller is told it is done exactly then, and that it failed exactly when there was something to write that was not legal or the store refused |
| `Progress.TextDecides` | src/agentgov/core.py:2610-2640 | apart from a claim's, planned lines are legal if and only if their scopes and memos are text the ledger can hold |
| `Progress.RunReady` | src/agentgov/core.py:5738-6628 | every state a run of operations reaches is ready: scopes of legal text, holds of known scopes, whole amounts, a well-formed tree |
| `Caches.NodeRowProblems` | src/agentgov/core.py:7147-7168 | no topology row is reported if and only if the rows are exactly what the chain's scopes imply |
| `Caches.ControlRowProblems` | src/agentgov/core.py:7171-7202 | no control row is reported if and only if the rows are the chain's trips and resets, each once |
| `Managers.Credited` | src/agentgov/core.py:383-389 | what is granted is the whole number of quanta at or just below the amount |
| `Managers.Charged` | src/agentgov/core.py:374-380 | what is charged is the whole number of quanta at or just above the amount |
| `Managers.RefundPlanIsTheRule` | src/agentgov/core.py:6374-6400 | a refund passes the governor's own check if and only if the rules would take its entry |
| `Governance.RunIsPosted` | src/agentgov/core.py:6733-6767 | a run of operations is a run of posts, so every result about posted chains holds of it |
| `Governance.PerformShape` | src/agentgov/core.py:5738-6235 | every commit of an operation has one of a few shapes, with its guard true of the state it was built on |
| `Governance.SubtreeConserves` | src/agentgov/core.py:5738-5987 | on every run and for every scope, the subtree's balances + holds + spend - refunds equal the scope's allotment less what it gave back |
| `Governance.NothingOverdrawn` | src/agentgov/core.py:6060-6235 | if no settlement exceeds its open hold, no balance is ever negative |
| `Governance.CommitOverdraws` | src/agentgov/core.py:6207-6220 | a commit takes a balance below zero if and only if it is a settlement costing more than its hold and all the scope has left |
| `Overdrafts.OperationOverdraws` | src/agentgov/core.py:6170-6235 | an operation takes a balance below zero if and only if it is committed and is a settlement whose charge, known before the call, exceeds its open hold and the balance together |
| `Overdrafts.OverdrawnExactly` | src/agentgov/core.py:6060-6235 | on every run no balance is ever negative if and only if no committed settlement overran so |
| `Governance.OverdraftTrips` | src/agentgov/core.py:6207-6234 | an operation that takes a balance below zero leaves that scope tripped |
| `Governance.SubtreeSpendBounded` | src/agentgov/core.py:5837-5927 | then a scope and everything below it never spend, net of refunds, more than its allotment less what it gave back |
| `Governance.SolventSpendBounded` | src/agentgov/core.py:5837-5927 | the same of any run, as long as no scope is overdrawn at its end |
| `Governance.HaltedUntilReset` | src/agentgov/core.py:6868-6882 | from a trip of a scope until its reset, over every run: no hold is placed on its subtree, no scope created in it, and all spend there settles a hold open at the trip or books a claim that had none |
| `Governance.DepthBounded` | src/agentgov/core.py:5891-5898 | on every run no scope is deeper than the policy allows |
| `Subtrees.LawDelegate` | src/agentgov/core.py:5904-5927 | a delegation keeps the law of every subtree |
| `Subtrees.LawReturn` | src/agentgov/core.py:5964-5987 | so does a return to the parent |
| `Transactions.RollBackRestores` | src/agentgov/core.py:2944-2950 | after a block that raised, rewinding gives exactly the state, authorizations and key records from before it |
| `Transactions.AllOrOnlyTrips` | src/agentgov/core.py:5128-5157 | a transaction, over memory or a store read again, keeps all of its commits, or leaves the session as it was followed only by the trips it recorded |
| `Transactions.RecordedIsATrip` | src/agentgov/core.py:6919-6931 | what a block records to write again is always a trip it wrote, by scope and reason |
| `Transactions.BlockRecords` | src/agentgov/core.py:6919-6931 | a block records exactly the trips its commits begin with, in order |
| `Transactions.RetripKeeps` | src/agentgov/core.py:5191-5205 | writing the trips again adds only single-trip commits, of scopes the block tripped, and no key record |
| `Transactions.RetripTrips` | src/agentgov/core.py:5191-5205 | afterwards the scopes tripped are exactly those tripped before and those known with a trip of legal reason to write |
| `Transactions.TripsSurvive` | src/agentgov/core.py:5146-5157 | after a block that raised, the scopes tripped are exactly those tripped before it and those it tripped that existed before it |
| `Transactions.CommittedTripsSurvive` | src/agentgov/core.py:5146-5157 | told from the commits: after a block that raised, a scope is tripped if and only if it was before it, or existed before it and one of the block's commits began with its trip |
| `Transactions.CallIsRecorded` | src/agentgov/core.py:6771-6859 | a call under a key leaves a record that names its result, or, answered before or writing nothing, leaves the session as it was |
| `Fleet.ReloadAgrees` | src/agentgov/core.py:5541-5570 | reading the whole ledger again gives the state the committed writes left |
| `Fleet.CatchUpAgrees` | src/agentgov/core.py:5421-5485 | catching up from any commit always succeeds and reaches the state of the whole committed chain |
| `Fleet.FollowedIsCurrent` | src/agentgov/core.py:5369-5395 | a governor that follows, dirty or behind, becomes current and is never refused |
| `Fleet.ViewsAreReplays` | src/agentgov/core.py:4796-4893 | in every interleaving: a view not dirty is the replay of a prefix of the committed chain, and a caught-up lock holder's is the replay of all of it with its own uncommitted entries |
| `Fleet.OneWriter` | src/agentgov/core.py:4839-4858 | only one governor is ever inside the writer lock |
| `Fleet.GuardsHoldOfTheChain` | src/agentgov/core.py:4796-4808 | whatever a governor checked in memory before writing held of the replay of everything committed before that write |
| `Fleet.HoldsAreCovered` | src/agentgov/core.py:6080-6111 | so no two governors hold the same funds: every committed hold was covered by what all earlier commits left |
| `Fleet.OneResultPerKey` | src/agentgov/core.py:6771-6859 | over every run at most one committed write answers a key, its record names its result entry, and asking again returns that entry or refuses another request |
| `Fleet.RetryAppendsNothing` | src/agentgov/core.py:6785-6795 | no session can write under a key already answered |
| `FleetLog.StoredExactly` | src/agentgov/core.py:4839-4858 | told from the steps alone: the store holds exactly what the sessions that reached it posted, each whole and in that order, with the key records of those writes, and each governor has pending what its session posted since |
| `FleetLog.EveryStepServes` | src/agentgov/core.py:4796-4893 | opening, following and committing leave the governor with the replay of all that is stored, following under the lock leaves it writing, and a session lost or broken off after posting leaves it marked to read everything again; no other governor is touched |
| `FleetLog.NobodyIsStuck` | src/agentgov/core.py:4796-4858 | at every moment an idle governor can follow, and take a free lock; one inside the lock can follow, commit or break off |
| `FleetLog.NewExactly` | src/agentgov/core.py:6785-6795 | a call is new to a session exactly when neither the store nor the session holds a write that answers its key |
| `Composition.FleetIsGoverned` | src/agentgov/core.py:4796-4869 | when every post is what an operation commits on its governor's own view, the committed chain of any interleaving is one run of operations, one for each commit, with the same state after each |
| `Composition.FleetConserves` | src/agentgov/core.py:4796-4869 | so subtree conservation and the depth bound hold fleet-wide at every moment |
| `Composition.FleetSpendBounded` | src/agentgov/core.py:4796-4869 | while no scope is overdrawn, no subtree has spent across the fleet, net of refunds, more than its allotment less what it gave back |
| `Composition.FleetOverdrawnExactly` | src/agentgov/core.py:6170-6235 | no balance was below zero after any commit of the fleet if and only if no commit was a settlement overrunning its hold and what was left |
| `Composition.FleetHalts` | src/agentgov/core.py:6868-6882 | from the commit that trips a scope until one that resets it, whichever governors commit: no hold on its subtree, no scope in it, and spend there only from holds open at the trip or claims that had none |
| `GroupCommit.OneLeader` | src/agentgov/core.py:4726-4748 | in every interleaving: the lead flag is down only over an empty queue, at most one caller leads or was handed the lead, a unit runs only under the governor's lock, and no wake lock is released twice |
| `GroupCommit.InQueueOrder` | src/agentgov/core.py:4761-4794 | requests are taken and settled in arrival order, each once, in units of at most 256, and what is durable is in that order |
| `GroupCommit.ResultsAfterCommit` | src/agentgov/core.py:4736-4753 | a caller returns only after its unit ended as a whole; one that returns a value is durable; every failure is its own or its unit's |
| `GroupCommit.NobodyIsForgotten` | src/agentgov/core.py:4739-4753 | while a caller has not returned, the protocol can take a step, unless an outsider holds the governor's lock |
| `GroupCommit.EveryCallerReturns` | src/agentgov/core.py:4739-4794 | between arrivals and outsiders every step leaves fewer to take, so the protocol stops, and when it can take none every caller has returned |
| `GroupAnswers.AnswersExactly` | src/agentgov/core.py:4772-4794 | a returned caller was told an error of its own if and only if the one step that ran its work had it raise, a value if and only if its work did not raise and its unit committed, and its unit's failure if and only if the unit failed and its work had not raised |
| `GroupAnswers.RunOnce` | src/agentgov/core.py:4761-4777 | no caller's work is run twice |
| `GroupAnswers.DurableExactly` | src/agentgov/core.py:4739-4794 | a caller's work is durable exactly when a step that stores, a commit or a failure the store kept all the same, was taken with it aboard |
| `Encoding.AmountRoundTrip` | src/agentgov/core.py:697-709 | every amount reads back exactly from its fixed-point text |
| `Encoding.AmountTextUnique` | src/agentgov/core.py:697-709 | what reads as an amount is the one text of it, and there is no negative zero |
| `Encoding.EscapedApart` | src/agentgov/core.py:746-751 | escaped strings closed by a quote determine the string and where it ends |
| `Encoding.ReadsBack` | src/agentgov/core.py:746-751 | whatever a text holds, what it is written as reads back as it by section 7 of RFC 8259 |
| `Documents.DocumentReads` | src/agentgov/core.py:782-797 | the text an entry is hashed over, read as a JSON object, has exactly the entry's fields, each under its own key |
| `Documents.KeysSorted` | src/agentgov/core.py:782-797 | its keys stand in the order section 3.2.3 of RFC 8785 sorts them in |
| `Encoding.TextInjective` | src/agentgov/core.py:782-797 | no two entries are hashed over the same text, whatever their ids and memos hold |
| `Encoding.HeadNamesReplay` | src/agentgov/core.py:754-801 | two replayable chains that end in states of one length and head are one chain, or hold at one place different texts with one hash |
| `Encoding.RootNamesReplay` | src/agentgov/core.py:928-958 | two replayable chains of one length and Merkle root are one chain, or hold at one place different texts with one hash, or hashing their two trees met a collision; leaves being read from lower-case hex |
| `Heads.HeadNamesRun` | src/agentgov/core.py:754-801 | two governors, whatever their policies and operations: one length and one head mean the same chain and the same state, or at one place different texts with one hash |
| `Heads.HeadNamesManager` | src/agentgov/core.py:754-801 | the same of two manager objects |
| `Encoding.RollbackIsAPrefix` | src/agentgov/core.py:5503-5515 | a confirmed rollback error means the store, if it replays, holds a proper prefix of the chain the view replayed, or the two hold at one place different texts with one hash |
| `Encoding.PrefixIsARollback` | src/agentgov/core.py:5503-5519 | a store cut back within what the view remembers is always reported as a confirmed rollback |
| `Encoding.RollbackMeans` | src/agentgov/core.py:5503-5519 | a rollback is reported, confirmed, if and only if the store is shorter and ends in the head remembered there, and unconfirmed if and only if it is shorter and none is remembered there |
| `Reconciles.MatchRows` | src/agentgov/core.py:4541-4584 | each row is served on the open hold it names, set aside under its ambiguous key, or reported, exactly as what it names decides; no two on one hold |
| `Reconciles.FreeSuffices` | src/agentgov/core.py:4620-4632 | there are always enough free holds for the rows that name none open, whatever the rows say |
| `Reconciles.ServeKey` | src/agentgov/core.py:4620-4634 | the authorizations of a key are served on distinct open holds of it, and the free queue never runs out |
| `Reconciles.ReportIsSo` | src/agentgov/core.py:4541-4584 | what is reported of a row is so |
| `Reconciles.CheckServed` | src/agentgov/core.py:4586-4596 | reports exactly the open holds of unambiguous keys that no row names; repairing, serves those that nothing serves |
| `Reconciles.SameOrder` | src/agentgov/core.py:4598-4612 | governors that read the same rows in whatever order line them up the same, those naming open holds first |
| `Reconciles.Reconcile` | src/agentgov/core.py:4507-4635 | no problem is reported if and only if every row awaits or stands, every open hold of an unambiguous key is named, and each ambiguous key has as many waiting rows as open holds; then, for distinct authorization ids, what is served is a bijection onto the open holds; and, problems or not, exactly the holds that deserve it are served, all of them when repairing, if no authorization goes by the id of an open hold it does not name |
| `Asyncs.HoldSettledOnce` | src/agentgov/interceptor.py:919-938 | however completions and cancellations interleave, when the call ends its hold was never placed or was captured or voided exactly once |
| `Asyncs.ChargedExactly` | src/agentgov/interceptor.py:919-938 | a call that is over, its hold once placed, was charged if and only if the guarded call ended well, and its hold given back if and only if the guarded call raised or a cancellation came before it ended |
| `Asyncs.NotPlacedNotCharged` | src/agentgov/interceptor.py:926-936 | a call whose hold was not placed is never charged |
| `Asyncs.UndoAfterSuccess` | src/agentgov/_aio.py:83-93 | an undo is begun only after the call it undoes finished successfully |
| `Asyncs.OtherSteps` | src/agentgov/_aio.py:96-102 | no number of cancellations keeps a call from ending: at most seven other steps in any run |
| `Cognitives.CognitiveBreaker.Touch` | src/agentgov/cognitive.py:1225-1241 | the observed trajectory becomes the most recent and the least recent are evicted past the limit |
| `Cognitives.CognitiveBreaker.Observe` | src/agentgov/cognitive.py:1020-1093 | an observation updates the retained trajectories as specified, and is refused exactly when latched, pending or judged |
| `Cognitives.CognitiveBreaker.Check` | src/agentgov/cognitive.py:1134-1144 | a check refuses exactly when latched or pending, latches what was pending, and moves nothing |
| `Cognitives.CognitiveBreaker.ResetTrajectory` | src/agentgov/cognitive.py:1190-1193 | after a reset the trajectory is neither retained nor latched, every other latch is as it was, and so is what follows each in the order but for it |
| `Cognitives.LatchHolds` | src/agentgov/cognitive.py:1056-1064 | a latched trajectory stays latched until it is reset or as many others as the limit were observed since it was |
| `Cognitives.RefusedExactly` | src/agentgov/cognitive.py:1056-1093 | a retained trajectory is refused at its next call or check if and only if it was found looping, by its detectors or the semantic lane, and has been retained since |
| `Cognitives.RetainedExactly` | src/agentgov/cognitive.py:1225-1241 | with any resets, a trajectory is retained if and only if it was observed after its last reset and at every moment since fewer others than the limit were observed since it and not reset since they were; those are exactly what follows it in the order |
| `Cognitives.RetainedWithoutResets` | src/agentgov/cognitive.py:1225-1241 | without resets that is simply while fewer others than the limit were observed since |
| `Cognitives.ResetsMatter` | src/agentgov/cognitive.py:1190-1191 | with limit 2 and a, b, reset b, c, the first is retained though two others were observed since |
| `Detectors.PruningIsSound` | src/agentgov/cognitive.py:248-268 | the size-ratio shortcut never changes a threshold decision, for all sets and thresholds |
| `Detectors.NearDuplicateObserve` | src/agentgov/cognitive.py:523-572 | trips if and only if the last max_streak pairs in the window are all similar and agree in results, reporting their least similarity |
| `Detectors.CycleObserve` | src/agentgov/cognitive.py:593-620 | finds the shortest period of at least two the calls cycle with, or that there is none |
| `Detectors.CycleFits` | src/agentgov/cognitive.py:1260-1276 | through the breaker a cycle can be seen only if its repeats fit in the window and the call itself |
| `Detectors.FittingCycleSeen` | src/agentgov/cognitive.py:593-620 | and whenever they fit, some history shows it |

## Left out

- SQLite and PostgreSQL stores, drivers, advisory locks and SQL: an abstract append-only store with a lock and an all-or-nothing commit stands for them.
- SHA-256, Ed25519, checkpoint signatures, witnesses and receipts: hashing is a parameter and signatures are absent.
- Full JSON parsing and the canonical snapshot encoder: a snapshot is a document datatype; of JSON only the flat object an entry is hashed over is written and read character by character, before UTF-8.
- AGOV1 and AGOV2 hashing, and the content of the migration seal and of legacy control events: the engine takes the entry digest as a parameter and a ledger with no legacy control events; the first version's unnamed releases are modelled.
- The wording of errors: a fault names the rule that refused, not its message, and a double release is reported as a hold that is not open; reasons of trips carry no amounts.
- Fleet.OneResultPerKey: keys are looked up in the store's table under the writer lock; the per-unit lookup cache is not modelled.
- GroupCommit.OneLeader: a thread killed between two critical sections is not modelled, nor is the metrics recording.
- Governors.BudgetManager.Authorize: every operation's method takes new ids as given; idempotency keys are modelled in `Fleet` and `Transactions`, not on each operation's method.
- Governors.BudgetManager.Capture: the capture of a hold the caller describes wrongly is not modelled; an authorization is named by its id.
- Transactions.RollBackRestores: a store's own rollback is taken to leave its first entries and key rows, from which the state is read again.
- Reconciles.Reconcile: where a row's authorization goes by the id of an open hold the row does not name, one repair can replace another, and what is served then is stated only when no problem is reported; the ambiguous keys come in a given order, and a key's open holds in the order they were placed, which is that of their sequences.
- Asyncs.HoldSettledOnce: ledger calls do not fail on storage, and the executor never drops a call.
- Detectors.PruningIsSound: similarities are real numbers; floating-point rounding is not modelled.
- Cognitives.CognitiveBreaker.Observe: the retained calls themselves, redaction, shingling and the semantic worker's threads are not modelled; the detectors' verdict is an argument.
- Text limits count UTF-8 sizes of characters; lone surrogates cannot occur in a Dafny string.
- Writing CHECKPOINT entries, storing settlement claims and counting velocity windows: the engine, the claim's booking and the velocity verdict are modelled, their schedulers and tables are not.
- Metrics, logging, the CLI, price tables and usage extraction: they neither read nor write the ledger's state.
