# BitSov node authority: a verified model

A Dafny model of the parts of the BitSov node that decide who may act, what may be paid and what
survives a crash, with proofs about whole runs of them. `dafny verify dfyconfig.toml` checks it.

## What is modelled

- **Pairing authority and ledger** (`Roster`, `GrantBook`, `SpendBudget`, `SpendRates`, `PairingLedger`,
  `LedgerClock`, `GrantTerms`, `EnvelopeRuns`, `OneGrant`, `RosterView`, `GrantRules`, `TokenAuthority`,
  `PairingStore`, `PairingService`). Paired clients with their epochs,
  owner-written grants and device-signed envelopes with metered, rate-limited budgets, tokens,
  reservations. Each locked section of the service is one step on a pair
  of files, memory and disk. A write can be lost before the rename, land and be reported as failed,
  or succeed; a restart reloads disk. `PairingService.Service` is the service itself, editing its
  fields in place, and each of its methods is proved to be one such step.
- **Token challenges** (`TokenChallenges`, `ChallengeRuns`), with the pruned memo of spent local proofs compared to
  the set of all proofs ever spent.
- **Payment dispatch** (`PaymentDispatch`): the guarded poll loop of a wallet payment, interleaved
  with arbitrary ledger events, what its end does to the charge, and what the ledger still owes.
- **Quoted re-admission** (`Readmission`): one write for two reservations, and what a crash keeps.
- **First run** (`FirstRunCommit`, `FirstRunCeremony`, `CeremonyRules`): the marker-last commit, the startup
  classifier, and the ceremony with bounded failures.
- **Password decoding** (`PasswordDecoder`): strings of section 7 of RFC 8259, read into one buffer.
- **Media and rate limits** (`MediaQueue`, `IngressBudget`, `RateLimiter`, over `FixedWindow`).
- **Remote unlock** (`UnlockAttempts`, `UnlockRuns`), **call-block grants** (`CallGrants`), **upload staging**
  (`FileStaging`) and **quote ids** (`AdmissionQuote`).

Two kinds of law stand beside the invariants over runs. One says when each operation succeeds, as an
if-and-only-if on what a caller can see, and what it leaves. The other traces a success back over the
run to the events that earned it.

State that the source changes in place is a class whose methods are proved against functions on
values; the theorems over runs are about those functions. Some records carry history variables that
no decision reads, and say so where they are declared. Clocks, random ids, the filesystem, hashes,
signatures and the wallet are parameters. Run theorems assume that random ids are new, and, where
stated, that a clock does not go back and that 64-bit counters neither wrap nor clip; what happens
where they do is proved separately.

## Where a plain reading would be wrong

- A revocation that reports an error is undone by a crash if its write never reached the rename
  (`PairingLedger.RevocationSurvivesCrashIff`): the acknowledgement is what makes it permanent.
- A bump adds to the epoch without a check, so at the last 64-bit value it retires nothing
  (`Roster.BumpRetiresIff`, `Roster.BumpCanWrap`).
- Resolving a share above its reservation saturates at 64 bits and then the tally no longer equals
  its shares (`SpendBudget.ResolveConserves`, `SpendBudget.ResolveCanClip`).
- A rate limit of zero admits one request after each expired window, and cleanup changes that
  answer (`RateLimiter.NothingAllowedStillAdmits`, `RateLimiter.CleanupNeverMattersIff`). A window
  of zero length admits everything (`RateLimiter.NoWindowAdmitsAll`).
- `expire_key` is documented as never granting extra budget within a live window. It ends that
  window, so each call allows one more maximum (`RateLimiter.AtMostTwicePerWindow`).
- A quoted re-admission is documented as never half kept by a crash. A refusal that is itself put on
  record writes the message's raised share with it, while memory takes the raise back
  (`Readmission.HalfReachesDiskIff`, `Readmission.CrashCanKeepHalf`).
- A payment that costs more than was reserved for it is recorded in full, so it can take a grant past
  what its owner approved, by no more than the difference (`GrantTerms.GrantKeepsToItsTerms`).
- An upload that reuses the id of a file being sent separates the guard from its file
  (`FileStaging.UploadKeepsPairingIff`, `FileStaging.UploadCanOrphanGuard`).
- Quote ids are not canonical: the parser takes a plus sign and leading zeros
  (`AdmissionQuote.ParserIsMoreLiberalThanPrinter`).

## Model

| member | source | states |
|---|---|---|
| `PairingLedger.RevocationIsPermanent` | crates/konsensus-api/src/pairing.rs:2371-2534 | Once a revocation, bump, rotation or re-pairing of a client was acknowledged, no token handed out for it earlier in the run is accepted in any later state: through failed writes, writes reported failed after the rename, restarts that reload disk, and the same key pairing again |
| `PairingLedger.RevocationSurvivesCrashIff` | crates/konsensus-api/src/pairing.rs:2393-2442 | Whatever memory and disk held before, a revocation leaves the token refused in memory; after a crash it is accepted again if and only if the old disk accepts it and nothing was written, because the write was lost before the rename or memory no longer had the client; a write that failed after the rename was reported as a failure too and is not undone |
| `PairingLedger.HandedAreRemembered` | crates/konsensus-api/src/pairing.rs:2133-2223 | The epoch of every token handed out in a run is at most what memory and disk both remember for that client, at every later point |
| `PairingLedger.IssueIsRemembered` | crates/konsensus-api/src/pairing.rs:2208-2223 | A token leaves the node only when its epoch is already on disk |
| `PairingLedger.RetirementIsDurable` | crates/konsensus-api/src/pairing.rs:2371-2534 | An acknowledged retirement puts every record the client has or can ever get beyond all epochs remembered so far, in memory and on disk |
| `PairingLedger.RunAdvances` | crates/konsensus-api/src/pairing.rs:1648-1723 | Over every legal run a live record is never behind its history, no remembered epoch is lost, and a retired epoch stays retired, in memory and on disk |
| `PairingLedger.BoundNodeRefusesFirstRunAuthority` | crates/konsensus-api/src/pairing.rs:2542-2564 | In every reachable state a node bound to an identity accepts no token claiming the first-run identity scope, wherever a rebind falls between the two locked halves of a confirmation |
| `PairingLedger.RunStrips` | crates/konsensus-api/src/pairing.rs:1682-1722 | Every record stamped with an identity lacks the identity scope, in memory and on disk, over every run |
| `PairingLedger.SidecarSpendNeedsOwnerDevice` | crates/konsensus-api/src/pairing.rs:2328-2363 | Without an owner console, an accepted token carries spend only on a grant of its own client, epoch and identity, with a budget and unexpired, that the owner's device signed; and never the front-door scope |
| `TokenAuthority.IssuedTokenIsFull` | crates/konsensus-api/src/pairing.rs:2157-2223 | A token handed out is this client's, the node accepts it, and no token of this client that the node accepts is of another epoch or claims a scope it lacks |
| `TokenAuthority.IssuesIff` | crates/konsensus-api/src/pairing.rs:2157-2223 | A token comes out if and only if the pairing exists, was made for this identity and was used or made within 180 days, and the write was kept |
| `TokenAuthority.IssueOnlyTouches` | crates/konsensus-api/src/pairing.rs:2208-2216 | Issuing changes nothing but when that pairing was last used |
| `TokenAuthority.AcceptsIff` | crates/konsensus-api/src/pairing.rs:2242-2326 | A request passes if and only if its token names a pairing, its epoch and this identity, and claims only scopes the pairing carries |
| `TokenAuthority.ScopeIsCarriedIff` | crates/konsensus-api/src/pairing.rs:2328-2363 | A pairing carries a scope if and only if its own record has it in this deployment, or a standing grant of its epoch and identity lends it, or a standing front door does |
| `PairingLedger.BudgetsBalanceOverRuns` | crates/konsensus-api/src/pairing.rs:3254-3457 | Over every run, in memory and on disk, every budget's total is its pending plus its settled shares, every recipient's column balances, no share is both pending and settled, the rolling limits hold of all it admitted, and nothing recorded about a grant is forgotten, a share owed included unless the run resolves it |
| `PairingLedger.PaymentIdentityIsSingleUse` | crates/konsensus-api/src/pairing.rs:3313-3329 | Two reservations accepted under one grant never share a payment identity, whatever refusals, rollbacks, torn writes and restarts happen between them |
| `PairingLedger.ShareIsSettledOnce` | crates/konsensus-api/src/pairing.rs:4110-4161 | One recipient's share of one reservation is acknowledged as applied to the budget at most once in a run |
| `PairingLedger.AcceptIsRemembered` | crates/konsensus-api/src/pairing.rs:3398-3457 | A reservation the caller heard accepted was charged to the first grant they could charge, broke none of its limits and reused none of its identities; both files recall whatever its budget then shows |
| `PairingLedger.AcceptConsumesIds` | crates/konsensus-api/src/pairing.rs:3313-3405 | The identities of an accepted reservation are consumed in both files, and none of them was consumed before |
| `PairingLedger.GrantIsRemembered` | crates/konsensus-api/src/pairing.rs:2772-2843 | A grant its writer heard of is in both files, with the budget it begins with and an id nothing else bears |
| `PairingLedger.SettleIsRemembered` | crates/konsensus-api/src/pairing.rs:4110-4161 | A settlement the caller heard of is on disk at exactly that amount, and the share had not been settled before |
| `PairingLedger.ChargeStaysOwed` | crates/konsensus-api/src/pairing.rs:3398-3457 | Over every run, crashes included, that resolves no share of it, each recipient's share of an accepted reservation stays owed at its full amount, and counted in the grant's total, in memory and on disk, for as long as the grant has a budget |
| `PairingLedger.GrantKeepsToItsRates` | crates/konsensus-api/src/spend_budget.rs:643-695 | From the moment a grant is acknowledged, whether written at the console, signed by a device or created for a first envelope, over every run with crashes and restarts and no reset, the reservations accepted under it keep to its payments per minute, payments per hour and amount per ten minutes in every such interval, wherever it ends |
| `GrantTerms.GrantKeepsToItsTerms` | crates/konsensus-api/src/spend_budget.rs:800-893 | From the moment a grant's terms are acknowledged, over every run with crashes and restarts, what it has committed stays within the approved total and each approved contact's cap, plus at most what the run's payments cost above their own reservations, in memory and on disk |
| `GrantTerms.NeverMoreThanApproved` | crates/konsensus-api/src/spend_budget.rs:800-893 | If no payment costs more than was reserved for it, what is pending and what was paid together never pass the approved total, nor a contact's cap, at any point of any run |
| `GrantTerms.AcceptedCallsKeepToTerms` | crates/konsensus-api/src/spend_budget.rs:807-867 | After any run every call accepted under a grant is one its acknowledged terms allow: its size, every payee on the allowlist, and liquidity fees only if allowed |
| `EnvelopeRuns.RelationPaysOnlyEnvelopes` | crates/konsensus-api/src/spend_budget.rs:484-511 | After any run, crashes and restarts included, a call accepted under a relation grant pays a contact only within an envelope that was signed for that client and that contact, is still open, and covers in one act all the call sends there |
| `EnvelopeRuns.FreshIsUnsigned` | crates/konsensus-api/src/pairing.rs:918-1016 | A new node has no envelope that was not signed |
| `EnvelopeRuns.RunSigned` | crates/konsensus-api/src/pairing/device.rs:1438-1450 | Over every run, in memory and on disk, every envelope in a relation grant is one that was signed for its client |
| `GrantTerms.CeilingHolds` | crates/konsensus-api/src/spend_budget.rs:868-893 | The same bound from any state whose files recall the ceiling |
| `GrantTerms.ResolutionEases` | crates/konsensus-api/src/pairing.rs:4110-4161 | A resolution above its reservation, whatever its write does, moves both files by at most the difference |
| `PairingLedger.AdmissionsAreRationed` | crates/konsensus-api/src/spend_budget.rs:643-695 | The same from any state whose files recall what was admitted so far |
| `LedgerClock.RatesHoldInRealTime` | crates/konsensus-api/src/spend_budget.rs:610-651 | When the clock does not go back, the same limits hold of the times at which callers asked, not only of the clamped times the breaker keeps |
| `LedgerClock.MadeIsAdmitted` | crates/konsensus-api/src/spend_budget.rs:610-651 | With such a clock no breaker, in memory or reloaded from disk, is ever ahead of it, so the clamp never changes a time |
| `PairingLedger.RevocationEndsGrant` | crates/konsensus-api/src/pairing.rs:533-548 | An acknowledged revocation leaves the client's grants without a budget in memory and on disk, and no later request can take their ids |
| `PairingLedger.FreshNodeIsSound` | crates/konsensus-api/src/pairing.rs:726-740 | An empty pairing file satisfies every invariant the run theorems start from |
| `Roster.EditAdvances` | crates/konsensus-api/src/pairing.rs:1648-1896 | Each of the twelve roster edits keeps every client's epoch history, keeps retired epochs retired, and retires where it should |
| `Roster.EditStrips` | crates/konsensus-api/src/pairing.rs:1682-1792 | No edit lets a record keep first-run authority once an identity is stamped on it |
| `Roster.BumpRetiresIff` | crates/konsensus-api/src/pairing.rs:2371-2390 | Bumping an epoch retires what came before exactly when the epoch has not reached its last 64-bit value, where the unchecked addition wraps |
| `Roster.BumpCanWrap` | crates/konsensus-api/src/pairing.rs:2371-2390 | A record at the last epoch that a bump takes back to zero, retiring nothing |
| `Roster.RotateAdvances` | crates/konsensus-api/src/pairing.rs:2445-2534 | A rotation moves both the old and the new id beyond everything ever remembered for either |
| `Roster.ConfirmAdvances` | crates/konsensus-api/src/pairing.rs:1682-1722 | A confirmation assigns the next epoch above both the record and its history, or refuses |
| `Roster.RemotePairAdvances` | crates/konsensus-api/src/pairing.rs:1811-1896 | Binding a transport or pairing remotely never lowers or reuses an epoch |
| `Roster.ConsoleRevokeAdvances` | crates/konsensus-api/src/pairing/console.rs:362-388 | Removing any set of pairings at the console puts each of them beyond everything ever remembered for it and lowers no other |
| `RosterView.EveryClientSees` | crates/konsensus-api/src/pairing.rs:1648-1896 | Each of the twelve list edits is, to every single client, exactly the record it should then have: scopes, epoch, identity and transport; an edit that is refused, or that concerns others, changes no record |
| `RosterView.WritesIff` | crates/konsensus-api/src/pairing.rs:1648-1896 | Each edit is written if and only if its own conditions hold of the records it names; a transport already bound is only confirmed |
| `RosterView.EveryHistory` | crates/konsensus-api/src/pairing.rs:1648-2534 | What is remembered of every client's epochs after each edit, refused ones included |
| `RosterView.RollsBackIff` | crates/konsensus-api/src/pairing.rs:1862-1870 | A failed write is undone in memory for exactly the remote, bootstrap and second-device edits and the console's removal |
| `GrantBook.EffectKeeps` | crates/konsensus-api/src/pairing.rs:2569-2938 | Every grant section, envelopes and device-key removal included, written or undone, keeps each operation id for one request and then at most one grant, every budget balanced and within its rates, and every recorded fact |
| `GrantBook.RewriteKeeps` | crates/konsensus-api/src/pairing.rs:3431-3442 | Restoring a budget by operation id after a failed write undoes exactly the edit, because operation ids are distinct |
| `GrantBook.AcceptShows` | crates/konsensus-api/src/pairing.rs:3262-3405 | Accepting a reservation charges the first chargeable grant, whose limits allow it and whose identities do not meet it, and leaves every other grant as it was |
| `GrantBook.AcceptOwes` | crates/konsensus-api/src/spend_budget.rs:809-867 | Each recipient of an accepted reservation is owed exactly what the call charges it in all, however many charges name it |
| `GrantBook.AcceptStamps` | crates/konsensus-api/src/spend_budget.rs:643-695 | A reservation the breaker lets through keeps all remembered admissions together with it within the limits, in every interval |
| `GrantBook.SettleShows` | crates/konsensus-api/src/pairing.rs:4132-4146 | Resolving a share edits the budget of the one grant with that id, where the share was outstanding |
| `GrantBook.SettleRecords` | crates/konsensus-api/src/spend_budget.rs:871-893 | A resolved share is settled at its amount and no longer outstanding |
| `GrantBook.OpenEnvelopeKeeps` | crates/konsensus-api/src/pairing/device.rs:1367-1470 | Opening an envelope, into the live relation grant or into a new one, keeps every balance, rate and recorded fact; so does putting the grants back after a failed write |
| `GrantBook.EnvelopedKeeps` | crates/konsensus-api/src/pairing/device.rs:1438-1455 | An envelope changes what may be spent with a peer and until when, not what was spent or admitted |
| `GrantBook.CapContactKeeps` | crates/konsensus-api/src/pairing.rs:3497-3612 | Confirming a first contact, which may give it a cap, keeps every balance, rate, ceiling and recorded fact; a failed write takes the cap back |
| `GrantBook.GrantShows` | crates/konsensus-api/src/pairing.rs:2772-2843 | A console grant, a device-signed grant and the grant of a first envelope each stand at the end of the book with the budget they begin with, and nothing else bears their id |
| `GrantBook.LiveBookOk` | crates/konsensus-api/src/pairing.rs:551-559 | Pruning dead grants forgets nothing about the ones that remain |
| `GrantRules.GrantsIff` | crates/konsensus-api/src/pairing.rs:2772-2843 | The owner grants if and only if a request is waiting unexpired, asks for no front door and its client is paired; the grant carries that client's epoch, this identity, the scopes asked for and the time approved, and the client's other grants end |
| `GrantRules.RequestsIff` | crates/konsensus-api/src/pairing.rs:2580-2665 | A request is taken if and only if it is for spend or for the front door alone, from a paired client, with a console, and fewer than four of the client's wait; it waits fifteen minutes |
| `GrantRules.OpensDoorIff` | crates/konsensus-api/src/pairing.rs:2851-2938 | The front door is opened if and only if a waiting request asks for it alone, for at most a day |
| `GrantRules.DeviceGrants` | crates/konsensus-api/src/pairing/approval.rs:632-661 | A grant the owner's device approves is for its client, epoch, identity and time, ends the client's others, and is taken back by a failed write |
| `GrantRules.OpensEnvelopeIff` | crates/konsensus-api/src/pairing/device.rs:1286-1390 | An envelope is opened if and only if the node takes device signatures, window and amounts are in bounds, the client is paired at that epoch and identity, and no working grant of another kind stands |
| `GrantRules.EnvelopeGoesWhere` | crates/konsensus-api/src/pairing/device.rs:1404-1450 | The envelope goes into the client's working relation grant, or into a new one that ends its others |
| `GrantRules.EnvelopeGives` | crates/konsensus-api/src/spend_budget.rs:449-482 | An envelope leaves exactly its amount to go to the peer, sets its act limit and end, moves the total by the difference, and touches no other contact |
| `GrantRules.RenewedLasts` | crates/konsensus-api/src/pairing/device.rs:1444-1458 | A relation grant lasts exactly until the last of its open envelopes runs out |
| `GrantRules.RelationsStartBare` | crates/konsensus-api/src/pairing/device.rs:1420-1436 | A relation grant starts with nothing to spend, at ten payments a minute, sixty an hour, five failures and a million millisatoshi in ten minutes |
| `GrantRules.ReservesIff` | crates/konsensus-api/src/pairing.rs:3262-3405 | A reservation is accepted if and only if the caller is paired at that epoch and the first grant they may charge fits its purpose, has room, has not seen its identities and allows the call |
| `GrantRules.NoGrantNoReservation` | crates/konsensus-api/src/pairing.rs:3280-3292 | Without a grant the caller may charge, nothing is reserved or written |
| `GrantRules.ChargeableIff` | crates/konsensus-api/src/pairing.rs:1067-1082 | A grant may be charged if and only if it works, is the caller's, of their epoch and this identity, is the one named, and is of a kind this deployment honours |
| `GrantRules.AcceptedStillWorks` | crates/konsensus-api/src/pairing.rs:3443-3455 | A reservation is handed out only while its grant still works once the ledger is on disk |
| `GrantRules.ResolvesIff` | crates/konsensus-api/src/pairing.rs:4110-4146 | A share is settled if and only if the client's grant of that id still owes it; otherwise nothing is written |
| `GrantRules.ResetsIff` | crates/konsensus-api/src/pairing.rs:4165-4202 | Breakers start over if and only if the grant works and the console or the owner's device asks; then nothing counts and what was spent still does |
| `GrantRules.ConfirmsContactIff` | crates/konsensus-api/src/pairing.rs:3515-3577 | A first contact is confirmed if and only if the amount fits the call, the total and the contact's cap, and a cap given with it fits them too |
| `GrantRules.PairingEndsExactly` | crates/konsensus-api/src/pairing.rs:533-548 | Each pairing section takes the budget of exactly the grants it ends and leaves every other in place |
| `GrantRules.SectionEndsExactly` | crates/konsensus-api/src/pairing.rs:4207-4212 | Revoking grants ends exactly those meant, and stays in memory when the write fails |
| `GrantRules.PairingDropsRequests` | crates/konsensus-api/src/pairing.rs:2419-2422 | A revocation, a console removal and a rebind end the requests of exactly the clients concerned |
| `GrantRules.PruningKeepsIff` | crates/konsensus-api/src/pairing.rs:397-402 | Pruning keeps a grant if and only if it has a budget, is unexpired and was not written for more than a day |
| `GrantRules.SweepsIff` | crates/konsensus-api/src/pairing.rs:4223-4230 | The sweep writes if and only if a grant or door is dead |
| `GrantRules.UndoIs` | crates/konsensus-api/src/pairing.rs:3434-3441 | Which sections put the grants back in memory when their write fails, and which let the change stand |
| `GrantRules.RequestUndo` | crates/konsensus-api/src/pairing.rs:2645-2662 | A request whose write fails is taken back, and no other with it |
| `GrantRules.SectionAfterWrite` | crates/konsensus-api/src/pairing.rs:3398-3442 | What a kept, a torn and a lost write leave of a grant section in memory and on disk, section by section |
| `GrantRules.PairingAfterWrite` | crates/konsensus-api/src/pairing.rs:1862-1870 | What a kept, a torn and a lost write leave of a pairing section in memory and on disk |
| `GrantRules.RebindTakesHold` | crates/konsensus-api/src/pairing.rs:2542-2564 | A rebind changes the identity whatever becomes of its write: no token of the former identity is accepted |
| `GrantRules.RestartLoadsDisk` | crates/konsensus-api/src/pairing.rs:918-1016 | A restart holds what disk holds, under the identity and deployment it is given |
| `OneGrant.OneGrantPerClient` | crates/konsensus-api/src/pairing.rs:2828-2837 | Over every run, in memory and on disk, no client ever has two spend grants with a budget: a new window or relation grant replaces the old one, and no failed write or restart brings the old one back beside it |
| `OneGrant.EffectKeepsOne` | crates/konsensus-api/src/pairing.rs:2772-2843 | Every grant section, written or undone, keeps at most one working grant per client |
| `OneGrant.OpenEnvelopeKeepsOne` | crates/konsensus-api/src/pairing/device.rs:1367-1437 | An envelope goes into the client's one relation grant, or into a new grant that replaces what is over; it is refused beside a live console grant |
| `OneGrant.WorkingGrantIsUnique` | crates/konsensus-api/src/pairing.rs:2829-2835 | Of two grants of one client at most one can spend |
| `SpendBudget.ResolveConserves` | crates/konsensus-api/src/spend_budget.rs:871-893 | Resolving a share moves exactly its amount from pending to settled in the total and in its recipient's column, if and only if the new tallies fit 64 bits; past that the saturating addition loses the balance |
| `SpendBudget.ResolveCanClip` | crates/konsensus-api/src/spend_budget.rs:871-893 | A concrete budget, one resolution away from clipping, that a resolution leaves unbalanced |
| `SpendBudget.ReserveConserves` | crates/konsensus-api/src/spend_budget.rs:809-867 | A reservation moves exactly its charges into the total, into each recipient's column and into what is pending |
| `SpendBudget.AdmissionKeepsToTerms` | crates/konsensus-api/src/spend_budget.rs:574-653 | An admitted call stays within the owner's total, per-call maximum, contact caps, allowlist, envelopes and failure slots, and within the payments per minute and per hour and the amount per ten minutes counted up to now |
| `SpendBudget.CountedSince` | crates/konsensus-api/src/spend_budget.rs:643-651 | Counting a call adds it to each rolling window and drops nothing those windows still see |
| `SpendBudget.AdmittedIff` | crates/konsensus-api/src/spend_budget.rs:574-653 | A call is admitted if and only if its identities are new, both ledgers have room, and it is within every bound of the grant: pause, failure slots, rates, per-call, total, and for each recipient allowlist, open envelope, act limit and cap |
| `SpendBudget.AllowedIff` | crates/konsensus-api/src/spend_budget.rs:574-653 | The chain of checks refuses nothing exactly for a call within every bound, each bound stated of the call itself |
| `SpendBudget.FailuresInARowPause` | crates/konsensus-api/src/spend_budget.rs:698-709 | Over any sequence of resolutions the breaker counts the failures in a row, a payment starts the count over, and the grant is paused if and only if somewhere they reach the limit |
| `SpendBudget.OverrunIsCounted` | crates/konsensus-api/src/spend_budget.rs:710-722 | What was paid above a reservation counts in the rolling windows, and as one more payment if nothing had been reserved |
| `SpendBudget.ResolveRecords` | crates/konsensus-api/src/pairing.rs:4128-4140 | A share that is settled is recorded in the breaker at what was reserved and what was paid |
| `SpendBudget.NotesIff` | crates/konsensus-api/src/spend_budget.rs:727-749 | A refusal is put on record if and only if a rolling limit made it and that limit's window does not have it on record |
| `SpendBudget.CapNarrows` | crates/konsensus-api/src/pairing.rs:3468-3474 | A cap for one more contact only narrows the grant: it admits no call the grant did not admit before |
| `SpendBudget.ResolvedUnder` | crates/konsensus-api/src/spend_budget.rs:868-893 | A resolution takes the total and the recipient's column past what they may be by at most what it records above the reservation |
| `SpendRates.StampKeepsRated` | crates/konsensus-api/src/spend_budget.rs:643-651 | If a call fits the limits counted back from now, no minute, ten minutes or hour anywhere, past or future, holds more than allowed once it is counted, although the breaker only keeps one hour of buckets |
| `SpendRates.HeldKeepsRated` | crates/konsensus-api/src/spend_budget.rs:574-653 | Admitting a call under the reservation check keeps the rates, with the clock clamped to the last one seen |
| `SpendRates.OutcomeKeepsRated` | crates/konsensus-api/src/spend_budget.rs:698-749 | Recording an outcome keeps the rates, whatever it adds to the breaker |
| `Readmission.HalfReachesDiskIff` | crates/konsensus-api/src/pairing.rs:3768-3885 | Disk comes to hold half of a quote, the raised message without the admission, if and only if a write lands for a quote whose raise is allowed and whose admission then meets a rolling limit not yet on record |
| `Readmission.CrashCanKeepHalf` | crates/konsensus-api/src/pairing.rs:3768-3885 | A concrete budget and quote that are refused, leave memory as it was and leave disk with the raised message |
| `Readmission.MemoryIsAllOrNothing` | crates/konsensus-api/src/pairing.rs:3822-3885 | In memory a quote is reserved whole or not at all, and the caller may pay exactly when it is whole in memory and on disk, within the call's maximum and what the owner confirmed |
| `Readmission.PaysIff` | crates/konsensus-api/src/pairing.rs:3786-3885 | The caller may pay if and only if the message is still owed, both parts fit the call and what the owner confirmed, the grant allows the raise and then the admission, and the write was kept in time |
| `Readmission.ReadmissionConserves` | crates/konsensus-api/src/pairing.rs:3775-3885 | Whatever the write does, memory and disk both balance: a raise kept by mistake is still owed |
| `SpendBudget.Refusing` | crates/konsensus-api/src/spend_budget.rs:574-653 | The iterating form of the reservation check gives the first failing reason in source order |
| `SpendBudget.Rolling` | crates/konsensus-api/src/spend_budget.rs:659-695 | Iterating over the buckets computes the payments and amounts counted after a moment |
| `SpendBudget.CountUnresolved` | crates/konsensus-api/src/spend_budget.rs:659-695 | Iterating over the pending reservations counts the shares with a positive amount |
| `SpendBudget.TryAdmit` | crates/konsensus-api/src/pairing.rs:3309-3397 | The admission under the ledger lock: duplicate identity, full ledgers, purpose limit, then the budget's own checks, with a noted refusal where the breaker keeps one |
| `PairingStore.Persist` | crates/konsensus-api/src/pairing.rs:4294-4332 | The retry loop terminates under a nondecreasing clock, with success whenever the filesystem is sound; on success memory and disk are the input without its dead grants and none is dead at the last clock reading; on failure memory is the input, and disk is untouched or the input pruned at some reading |
| `PairingStore.LiveTwice` | crates/konsensus-api/src/pairing.rs:556-559 | Pruning again later is pruning once at the later time |
| `PairingStore.LiveShrinks` | crates/konsensus-api/src/pairing.rs:551-559 | A grant seen dead is gone after the next pruning, which is what makes the loop progress |
| `PairingService.Service.Save` | crates/konsensus-api/src/pairing.rs:4290-4292 | Writing the file leaves memory and disk as one of the three outcomes of the persist loop, and as written when the filesystem is sound |
| `PairingService.Service.Finish` | crates/konsensus-api/src/pairing.rs:1862-1870 | Edit in place, write, and restore the snapshot where the section does: one step of the ledger machine, whose write is kept when the filesystem is sound |
| `PairingService.Service.FinishGrant` | crates/konsensus-api/src/pairing.rs:3398-3457 | A grant section that writes is one ledger step, and so is one with nothing to write |
| `PairingService.Service.ConfirmPairing` | crates/konsensus-api/src/pairing.rs:1648-1723 | Confirmation's final locked half is one ledger step, with its answer |
| `PairingService.Service.CreateRemotePairing` | crates/konsensus-api/src/pairing.rs:1811-1896 | Remote pairing is one ledger step, including the idempotent answer and the rollback |
| `PairingService.Service.BumpEpoch` | crates/konsensus-api/src/pairing.rs:2371-2390 | A bump is one ledger step and ends the client's grants |
| `PairingService.Service.RevokeClient` | crates/konsensus-api/src/pairing.rs:2393-2442 | A revocation is one ledger step and ends the client's grants and pending elevations; a failed write does not bring the record back |
| `PairingService.Service.ConsoleRevokeClients` | crates/konsensus-api/src/pairing/console.rs:361-410 | Removing pairings at the console is one ledger step: their records, grants and elevations and the relation grants of the removed keys' owners go together, and a failed write brings all of it back |
| `PairingService.Service.RotateKey` | crates/konsensus-api/src/pairing.rs:2445-2534 | A rotation is one ledger step and ends the old id's grants |
| `PairingService.Service.RebindToIdentity` | crates/konsensus-api/src/pairing.rs:2542-2564 | A rebind is one ledger step; the identity changes in memory even when the write fails |
| `PairingService.Service.IssueToken` | crates/konsensus-api/src/pairing.rs:2133-2223 | Issuing is one ledger step; a token comes out only of a write that was kept |
| `PairingService.Service.ReserveSpend` | crates/konsensus-api/src/pairing.rs:3254-3457 | A reservation is one ledger step; a failed write puts the budget back, and a grant that died while syncing yields no authority |
| `PairingService.Service.ResolveSpend` | crates/konsensus-api/src/pairing.rs:4110-4161 | A resolution is one ledger step; a failed write puts the whole budget back |
| `PairingService.Position` | crates/konsensus-api/src/pairing.rs:1845-1850 | The scan finds a client's first record, or that there is none |
| `PairingService.Retain` | crates/konsensus-api/src/pairing.rs:2413-2413 | The scan keeps exactly the other clients' records, in order |
| `PairingService.RetainOthers` | crates/konsensus-api/src/pairing/console.rs:376-380 | The scan keeps exactly the records of clients outside the set, in order |
| `PairingService.Restamp` | crates/konsensus-api/src/pairing.rs:2545-2548 | The scan gives every record the new identity and the default scopes |
| `PairingService.EditForConfirm` | crates/konsensus-api/src/pairing.rs:1682-1719 | The step-by-step edit equals the confirmation the run theorems speak of |
| `PairingService.EditForRemotePair` | crates/konsensus-api/src/pairing.rs:1833-1896 | The step-by-step edit equals the remote pairing the run theorems speak of |
| `PairingService.EditForBump` | crates/konsensus-api/src/pairing.rs:2374-2382 | The step-by-step edit equals the bump the run theorems speak of |
| `PairingService.EditForRevoke` | crates/konsensus-api/src/pairing.rs:2396-2413 | The step-by-step edit equals the revocation the run theorems speak of |
| `PairingService.EditForConsoleRevoke` | crates/konsensus-api/src/pairing/console.rs:361-380 | The loop over the pairings and the scan together equal the edit the run theorems speak of, whatever the order of the pairings |
| `PairingService.EditForRotate` | crates/konsensus-api/src/pairing.rs:2459-2520 | The step-by-step edit equals the rotation the run theorems speak of |
| `PairingService.EffectOfReserve` | crates/konsensus-api/src/pairing.rs:3262-3405 | The first chargeable grant, found and charged step by step, is the reservation the run theorems speak of |
| `PairingService.EffectOfResolve` | crates/konsensus-api/src/pairing.rs:4110-4146 | The resolution up to the write equals the one the run theorems speak of |
| `PairingService.ChangeOfIssue` | crates/konsensus-api/src/pairing.rs:2157-2223 | Issuing up to the write equals the change the run theorems speak of |
| `TokenChallenges.MemoRefinesArchive` | crates/konsensus-api/src/pairing.rs:1999-2045 | With a nondecreasing clock every decision on a local proof is the one taken from the unbounded set of all proofs ever spent |
| `TokenChallenges.ProofIsOneShot` | crates/konsensus-api/src/pairing.rs:1999-2045 | No local proof allocates two challenges in a run, however late the copy arrives |
| `TokenChallenges.ChallengesStayBounded` | crates/konsensus-api/src/pairing.rs:2047-2085 | Over every run at most 128 challenges are live and at most 8 of one client |
| `TokenChallenges.AllocationIsFair` | crates/konsensus-api/src/pairing.rs:2047-2085 | An allocation keeps both bounds, adds exactly the new challenge, and removes no other client's live one |
| `TokenChallenges.OthersKeepTheirChallenges` | crates/konsensus-api/src/pairing.rs:2057-2078 | No event of another client removes a live challenge, short of redeeming it |
| `TokenChallenges.ChallengeIsSingleUse` | crates/konsensus-api/src/pairing.rs:2149-2155 | A redemption, refused or not, ends the challenge for the rest of the run |
| `ChallengeRuns.RedemptionIsEarned` | crates/konsensus-api/src/pairing.rs:2149-2155 | Over every run a challenge is honoured only for the client it was given to, less than two minutes before |
| `ChallengeRuns.RedeemsIff` | crates/konsensus-api/src/pairing.rs:2149-2155 | A redemption succeeds if and only if the challenge exists, is this client's and has not run out; it is gone either way |
| `ChallengeRuns.IssuesIff` | crates/konsensus-api/src/pairing.rs:2047-2085 | A challenge is given if and only if the client is known and there is room: fewer than 128 live, or eight of its own to replace one of; it lasts two minutes |
| `ChallengeRuns.LocalIff` | crates/konsensus-api/src/pairing.rs:1999-2045 | A local proof earns a challenge if and only if it is within thirty seconds, unspent, its pairing stands, and both memos have room |
| `ChallengeRuns.RevokesIts` | crates/konsensus-api/src/pairing.rs:2414-2416 | Revoking a client ends its challenges and no other |
| `TokenChallenges.FindOldest` | crates/konsensus-api/src/pairing.rs:2067-2072 | The scan picks one of the client's own challenges that no other of its own expires before |
| `TokenChallenges.Challenger.IssueChallenge` | crates/konsensus-api/src/pairing.rs:2047-2085 | Issuing in place is one step of the machine, and the challenge it replaces is an oldest of the client's own |
| `TokenChallenges.Challenger.IssueLocalChallenge` | crates/konsensus-api/src/pairing.rs:1999-2045 | The proof is spent only by a successful allocation; otherwise one step of the machine too |
| `TokenChallenges.Challenger.RedeemChallenge` | crates/konsensus-api/src/pairing.rs:2149-2155 | The challenge is removed before anything about it is checked |
| `PaymentDispatch.EveryPollIsInForce` | crates/konsensus-api/src/pairing.rs:4021-4070 | For every interleaving of polls with ledger events, the wallet is polled only while its reservation is pending in an unpaused, unexpired grant of the client's current epoch and identity that is honoured here, with every recipient's envelope still open |
| `PaymentDispatch.UnbarredIff` | crates/konsensus-api/src/pairing.rs:4021-4070 | A poll may run if and only if its reservation is in force |
| `PaymentDispatch.PolledIff` | crates/konsensus-api/src/metered.rs:524-545 | The wallet is polled at a wake-up if and only if the reservation is then in force and, the first time, five seconds remain |
| `PaymentDispatch.VerdictTellsPolled` | crates/konsensus-api/src/metered.rs:524-545 | A refusal for lost authority means the wallet was never polled; losing it after any poll is reported as unresolved; a wallet verdict means it was polled |
| `PaymentDispatch.PolledChargeNeedsTheWalletsWord` | crates/konsensus-api/src/metered.rs:601-610 | Once the wallet was polled the charge is released or settled only on the wallet's own word: a lost grant, an unsure wallet or a dropped flight keeps it reserved |
| `PaymentDispatch.UndecidedChargeStaysOwed` | crates/konsensus-api/src/metered.rs:524-618 | An accepted reservation whose flight ended without a definite amount (a lost grant, an unsure wallet, a paid answer with an unknown fee, a dropped flight) is still owed in full, and counted in the grant's total, in memory and on disk, after every ledger event during the flight and any later run, crashes included, until something resolves the share |
| `PaymentDispatch.DisposalIff` | crates/konsensus-api/src/metered.rs:601-620 | The charge is let go at an amount if and only if the wallet paid, with or without proof, and the amount is principal plus every fee, all known; or the amount is nothing and the wallet did not pay or was never polled |
| `PaymentDispatch.FlightIsSettledAtItsCost` | crates/konsensus-api/src/metered.rs:574-610 | Once what follows a flight is acknowledged, both files record the share settled at exactly that amount for the rest of every run |
| `PaymentDispatch.RevokedReservationNeverDispatches` | crates/konsensus-api/src/pairing.rs:4021-4070 | A reservation accepted under a grant is never polled again once the client's revocation, bump or rotation or the node's rebind was acknowledged, across restarts and re-pairing |
| `PaymentDispatch.FirstPollLeavesMargin` | crates/konsensus-api/src/metered.rs:391-422 | The first poll for a call block leaves five seconds before the block's deadline |
| `PaymentDispatch.Dispatch` | crates/konsensus-api/src/metered.rs:524-545 | The poll loop with its polled flag makes exactly the polls and gives exactly the verdict of the flight |
| `PaymentDispatch.RecordIsExactSum` | crates/konsensus-api/src/metered.rs:437-441 | The recorded fee is the exact sum of all fees, and one unknown or overflowing fee makes it unknown for good |
| `PaymentDispatch.SettledIffFeesKnown` | crates/konsensus-api/src/metered.rs:615-618 | A principal settles, at principal plus all fees, if and only if every fee is known and the sum fits; without any record only a zero principal settles |
| `PaymentDispatch.Debit.RecordPayment` | crates/konsensus-api/src/metered.rs:437-441 | Recording in place appends one payment to the recipient's history |
| `PaymentDispatch.Debit.Settled` | crates/konsensus-api/src/metered.rs:574-581 | What is resolved is principal plus the sum of the recipient's recorded fees, exactly when all are known and it fits |
| `FirstRunCommit.StartupIsExact` | crates/konsensus-api/src/bootstrap.rs:628-759 | From an empty directory, over any number of attempts each ending at any step: bootstrap exactly until the rename, refusal between rename and marker, and a normal start only when rebind, device install and hook all succeeded for the one identity placed |
| `FirstRunCommit.OneIdentityEver` | crates/konsensus-api/src/bootstrap.rs:637-640 | Once an identity is placed no later attempt changes the directory |
| `FirstRunCommit.CommitsOnce` | crates/konsensus-api/src/bootstrap.rs:637-640 | After an attempt that committed every other attempt is a conflict |
| `FirstRunCommit.CommitKeeps` | crates/konsensus-api/src/bootstrap.rs:628-759 | One attempt keeps the marker's promise, never replaces a placed identity, and reports success only with its own identity placed and marked |
| `FirstRunCommit.CommitsIff` | crates/konsensus-api/src/bootstrap.rs:628-759 | An attempt commits if and only if startup would bootstrap, no identity directory exists, the seed is valid and every step succeeds |
| `FirstRunCommit.AttemptLeaves` | crates/konsensus-api/src/bootstrap.rs:628-759 | Where an attempt stops is the first step that did not report success; the identity is in place from the rename on and the marker from its own write on, reported or not; staged material is left exactly by an attempt that did not get to rename it |
| `FirstRunCommit.StartupIff` | crates/konsensus-api/src/bootstrap.rs:628-640 | Startup bootstraps exactly an empty directory, starts exactly a marked identity with a readable store, and refuses the rest for its own reason |
| `FirstRunCommit.DataDir.CommitFirstRun` | crates/konsensus-api/src/bootstrap.rs:628-759 | The commit's steps in order give the specified directory and result, and leave it readable to startup |
| `FirstRunCeremony.FailuresAreBounded` | crates/konsensus-api/src/bootstrap.rs:927-1056 | Over every run: at most three counted failures, at most three failed comparisons, a pending ceremony only while fewer than three, and at most three wrong passwords or backups in one ceremony |
| `FirstRunCeremony.NoCommitWhenOver` | crates/konsensus-api/src/bootstrap.rs:1105-1168 | No continuation of a run commits after the third failure or after a commit |
| `FirstRunCeremony.OverStaysOver` | crates/konsensus-api/src/bootstrap.rs:870-877 | A commit ends setup, and setup that is over commits nothing and stays over |
| `FirstRunCeremony.FinalizeKeeps` | crates/konsensus-api/src/bootstrap.rs:927-1128 | Every way a finalize can end keeps the failure bounds |
| `FirstRunCeremony.BeginKeeps` | crates/konsensus-api/src/bootstrap.rs:1597-1702 | Beginning a ceremony keeps the failure bounds |
| `CeremonyRules.CommitsIffEarned` | crates/konsensus-api/src/bootstrap.rs:927-1128 | A finalize commits if and only if it answers the pending, unexpired ceremony of its own client, words that were to be compared agree and were approved, the password is the one committed to, backup and device are right, and every step of the commit succeeds |
| `CeremonyRules.CommitIsEarned` | crates/konsensus-api/src/bootstrap.rs:927-1128 | Over every run of a process, a finalize that commits answers a ceremony the same client began in that run, with the password it committed to then; if words were to be compared, on the same device and channel, after an approval on the setup page |
| `CeremonyRules.OnlyEarnedTouchesDisk` | crates/konsensus-api/src/bootstrap.rs:1105-1128 | An answer that is not complete leaves the identity on disk untouched |
| `CeremonyRules.WrongIsCountedOnce` | crates/konsensus-api/src/bootstrap.rs:1001-1058 | A wrong password, or with the right one a wrong backup, is counted once against its ceremony, and nothing else is; the third ends it |
| `CeremonyRules.FailuresCountedIff` | crates/konsensus-api/src/bootstrap.rs:982-1058 | One of the process's three failures is used up by exactly a failed comparison, the third wrong answer in a compared ceremony, giving up a comparison, and a cancellation on the setup page |
| `CeremonyRules.FinalizeEndsIff` | crates/konsensus-api/src/bootstrap.rs:927-1128 | An answer ends the ceremony if and only if it is complete, miscompares, is the third wrong one or comes too late |
| `CeremonyRules.EarnedEndsTheCeremony` | crates/konsensus-api/src/bootstrap.rs:1098-1106 | From a complete answer on the ceremony is over, whether the commit succeeds or not |
| `CeremonyRules.CommittedIsRemembered` | crates/konsensus-api/src/bootstrap.rs:879-902 | The process remembers exactly the commits it made |
| `CeremonyRules.BeginsIff` | crates/konsensus-api/src/bootstrap.rs:1597-1702 | A ceremony begins if and only if setup is open to this kind of owner, none is under way, fewer than three failures are used and its own terms are met |
| `CeremonyRules.ApprovesIff` | crates/konsensus-api/src/bootstrap/setup.rs:399-424 | Words are approved if and only if the setup page is open and the pending, unexpired ceremony with that id has words that agree |
| `CeremonyRules.CancelsIff` | crates/konsensus-api/src/bootstrap.rs:1763-1796 | A cancellation ends exactly the client's own unexpired ceremony, and counts if words were to be compared |
| `CeremonyRules.TransitsIff` | crates/konsensus-api/src/bootstrap.rs:1144-1168 | The legacy commit is for a node without a remote owner and without a ceremony under way |
| `FirstRunCeremony.BootstrapState.BeginPending` | crates/konsensus-api/src/bootstrap.rs:1597-1702 | Beginning in place is the specified step: expired ceremonies give way, a live one excludes another |
| `FirstRunCeremony.BootstrapState.FinalizePending` | crates/konsensus-api/src/bootstrap.rs:927-1128 | Finalizing in place is the specified step, check by check in source order |
| `FirstRunCeremony.BootstrapState.CountWrong` | crates/konsensus-api/src/bootstrap.rs:1009-1022 | The third wrong answer clears the slot and counts against the process when a comparison was pending |
| `FirstRunCeremony.BootstrapState.CommitLocked` | crates/konsensus-api/src/bootstrap.rs:879-900 | Even a failed commit consumes the pending phrase; only a successful one marks the process committed |
| `FirstRunCeremony.BootstrapState.CancelPending` | crates/konsensus-api/src/bootstrap.rs:1763-1796 | Cancelling in place is the specified step; cancelling a pending comparison counts as a failure |
| `PasswordDecoder.AcceptsExactlyTheGrammar` | crates/konsensus-api/src/locked_body.rs:80-123 | The decoder accepts a string if and only if it is a quoted string of section 7 of RFC 8259 with well-paired surrogates, and returns what that string means |
| `PasswordDecoder.DecodeInvertsEscape` | crates/konsensus-api/src/locked_body.rs:80-123 | Every Unicode string has an escaping, and decoding it gives the string back |
| `PasswordDecoder.SpelledIsAccepted` | crates/konsensus-api/src/locked_body.rs:80-123 | Every correct escaping of a string, not only the usual one, decodes to that string |
| `PasswordDecoder.Decode` | crates/konsensus-api/src/locked_body.rs:80-123 | The decoder computes exactly the specified result, and the result is at least two bytes shorter in UTF-8 than its spelling |
| `PasswordDecoder.DecodeBody` | crates/konsensus-api/src/locked_body.rs:86-122 | At every turn the bytes pushed and the bytes still to read together fit the capacity reserved at the start, so the buffer never moves |
| `PasswordDecoder.TurnShrinks` | crates/konsensus-api/src/locked_body.rs:88-121 | No turn of the loop pushes more UTF-8 bytes than it reads |
| `PasswordDecoder.Quad` | crates/konsensus-api/src/locked_body.rs:70-78 | Four hex digits of either case are read as their value; anything else fails |
| `PasswordDecoder.ScalarAfterU` | crates/konsensus-api/src/locked_body.rs:106-117 | A high surrogate must be followed by an escaped low one, a lone surrogate of either kind fails |
| `MediaQueue.BulkIsInvisible` | crates/konsensus-api/src/call_media.rs:166-272 | For every trace, erasing all bulk pushes leaves the delivered priority packets, the priority lane and the priority drop count unchanged |
| `MediaQueue.LaneIsSuffix` | crates/konsensus-api/src/call_media.rs:166-272 | Each lane is always what was pushed on it from index popped plus dropped onward |
| `MediaQueue.LanesStayBounded` | crates/konsensus-api/src/call_media.rs:197-249 | Each lane stays within its bound over every trace |
| `MediaQueue.PushJoinsItsLane` | crates/konsensus-api/src/call_media.rs:217-249 | A packet joins the end of its own lane unless the queue is closed; only a full lane drops, and its oldest |
| `MediaQueue.PopTakesTheOldest` | crates/konsensus-api/src/call_media.rs:269-271 | A pop delivers the oldest priority packet, or without one the oldest bulk packet, and nothing is lost |
| `MediaQueue.MediaQueue.PushFrame` | crates/konsensus-api/src/call_media.rs:217-249 | A push in place is the specified step and reports what it dropped |
| `MediaQueue.MediaQueue.PopFrame` | crates/konsensus-api/src/call_media.rs:269-271 | A pop in place is the specified step: priority first, each lane in order |
| `MediaQueue.MediaQueue.CloseQueue` | crates/konsensus-api/src/call_media.rs:274-279 | Closing refuses later pushes and keeps what is queued |
| `FixedWindow.TwoAllowances` | crates/konsensus-api/src/rate_limit.rs:227-252 | A fixed-window log lets through at most two allowances in any interval one window long, ends included, and one more for each window ended early |
| `RateLimiter.AtMostTwicePerWindow` | crates/konsensus-api/src/rate_limit.rs:227-284 | For any keys, times, cleanups and expiries, an interval one window long admits on a key at most twice the maximum, and once more for each time the key was expired, if the maximum is at least one and the window has some length |
| `RateLimiter.TwiceIsTheMostIff` | crates/konsensus-api/src/rate_limit.rs:243-247 | That bound holds if and only if the maximum is at least one and the window has some length |
| `RateLimiter.WindowAdmitsExactly` | crates/konsensus-api/src/rate_limit.rs:227-252 | From a key's first check on, a window lets through exactly the first checks up to the maximum and no other |
| `RateLimiter.ChecksIff` | crates/konsensus-api/src/rate_limit.rs:227-252 | A check passes if and only if its window has seen fewer than the maximum or is over; no other key is touched |
| `RateLimiter.NothingAllowedStillAdmits` | crates/konsensus-api/src/rate_limit.rs:243-247 | A maximum of zero still admits a request once a window has expired |
| `RateLimiter.NoWindowAdmitsAll` | crates/konsensus-api/src/rate_limit.rs:199-247 | With a window of zero length any number of requests of one key at one instant are all admitted |
| `RateLimiter.CleanupNeverMattersIff` | crates/konsensus-api/src/rate_limit.rs:288-297 | Cleanup at arbitrary moments changes no later decision if and only if the maximum is at least one or the window is empty |
| `RateLimiter.CleanupRefines` | crates/konsensus-api/src/rate_limit.rs:288-297 | A limiter whose stale buckets were removed answers every later check like the one that kept them |
| `RateLimiter.CleanupCanMatter` | crates/konsensus-api/src/rate_limit.rs:288-297 | With a maximum of zero a concrete run is answered differently with and without cleanup |
| `RateLimiter.Limiter.CheckKey` | crates/konsensus-api/src/rate_limit.rs:227-252 | A check in place is the specified step |
| `RateLimiter.Limiter.ExpireKey` | crates/konsensus-api/src/rate_limit.rs:270-284 | Ageing a key's bucket by one window in place is the specified step; a key without a bucket is left alone |
| `RateLimiter.Limiter.CleanUp` | crates/konsensus-api/src/rate_limit.rs:288-297 | The scan keeps exactly the buckets younger than two windows |
| `IngressBudget.BulkIsInvisible` | crates/konsensus-api/src/call_media.rs:542-581 | With bulk dropped over its share, within a window every decision on another message is the one with all bulk erased |
| `IngressBudget.BulkKeepsToItsShare` | crates/konsensus-api/src/call_media.rs:554-573 | Bulk accepted in a window stays within what the reservation of 60 frames and 12 KiB leaves |
| `IngressBudget.AtMostTwicePerSecond` | crates/konsensus-api/src/call_media.rs:481-581 | In either mode and under any limits, any one-second interval accepts at most twice the per-window allowance, in frames and in bytes, although the sums saturate |
| `IngressBudget.WindowAcceptsExactly` | crates/konsensus-api/src/call_media.rs:542-581 | In a fresh second a message outside the bulk share is accepted if and only if no more messages and bytes than the limits have come with it |
| `IngressBudget.AdmitsIff` | crates/konsensus-api/src/call_media.rs:542-581 | Accepted, dropped or closed, mode by mode, in terms of the counts of the current second |
| `IngressBudget.Meter.AdmitMessage` | crates/konsensus-api/src/call_media.rs:542-581 | Admitting in place is the specified step |
| `UnlockAttempts.FailuresAreRationed` | crates/konsensus-api/src/locked.rs:84-105 | Over every run at most 20 failures are counted in all, and at most 5 of one device key in any fifteen minutes |
| `UnlockAttempts.ChallengeIsConsumedOnce` | crates/konsensus-api/src/locked.rs:285-296 | A body naming a challenge ends it, accepted or not; no later body of the run can use it |
| `UnlockAttempts.HandoffHappensOnce` | crates/konsensus-api/src/locked.rs:371-376 | The password is handed over at most once, and every request after that is refused |
| `UnlockRuns.UnlockIsEarned` | crates/konsensus-api/src/locked.rs:268-380 | Over every run the password leaves the node only when a check ends well that was started by a complete and correctly signed body of a known device, answering within two minutes a challenge that the same pairing record asked for |
| `UnlockRuns.HandsOverIff` | crates/konsensus-api/src/locked.rs:331-380 | The password leaves the node if and only if a running check ends well, and someone gets it if and only if they listen |
| `UnlockRuns.StartsIff` | crates/konsensus-api/src/locked.rs:285-331 | A check starts if and only if the body answers a standing challenge of its own pairing record, with a known key, well formed and correctly signed, and both failure limits have room |
| `UnlockRuns.CountedIff` | crates/konsensus-api/src/locked.rs:320-371 | Exactly a check that did not end well and a wrong signature are counted, once in the total and once in the log of that key |
| `UnlockRuns.CountedReply` | crates/konsensus-api/src/locked.rs:93-104 | A counted failure is answered as rate limited if and only if it used up a limit, and by what was wrong otherwise |
| `UnlockRuns.UncountedReply` | crates/konsensus-api/src/locked.rs:285-320 | What a body that is not counted is answered, in source order |
| `UnlockRuns.LockIsLetGo` | crates/konsensus-api/src/locked.rs:268-380 | A request that ends in any way lets the lock go, unless it has just started a check |
| `UnlockRuns.GivenIff` | crates/konsensus-api/src/locked.rs:221-266 | A challenge is given if and only if no unlock is under way and fewer than twenty failures are counted; it is for that pairing record, for two minutes |
| `UnlockAttempts.SubmitKeeps` | crates/konsensus-api/src/locked.rs:285-331 | The stretch from parsed body to password check keeps the failure budget, and a check starts only with room for one more failure |
| `UnlockAttempts.FailKeeps` | crates/konsensus-api/src/locked.rs:93-104 | A counted failure keeps the log of its key sparse: no six within the window |
| `UnlockAttempts.Counter.IsLimited` | crates/konsensus-api/src/locked.rs:85-92 | Forgetting what left the window, then looking, is the specified step |
| `UnlockAttempts.Counter.CountFailure` | crates/konsensus-api/src/locked.rs:93-104 | Counting in place is the specified step |
| `UnlockAttempts.LockedNode.AskForChallenge` | crates/konsensus-api/src/locked.rs:221-266 | Asking in place is the specified step: one outstanding challenge per client, none while an unlock is under way |
| `UnlockAttempts.LockedNode.TakeLock` | crates/konsensus-api/src/locked.rs:268-281 | Taking the transition lock is refused while it is held or after the handoff |
| `UnlockAttempts.LockedNode.SubmitBody` | crates/konsensus-api/src/locked.rs:285-331 | The challenge is consumed before anything else is looked at, and stands only if the whole pairing record is still the one it was given to; the rest is the specified step, with an unreadable key answered as an unknown device |
| `UnlockAttempts.LockedNode.FinishCheck` | crates/konsensus-api/src/locked.rs:331-380 | A failed check is counted, a good one empties the one-shot slot even if nobody listens |
| `CallGrants.ReceiptsAdvance` | crates/konsensus-api/src/calls.rs:944-999 | Over any receipts the paid boundary and the next sequence never decrease, and a live boundary keeps its deadline at boundary plus grace |
| `CallGrants.ReceiveAdvances` | crates/konsensus-api/src/calls.rs:967-999 | An accepted boundary is at most two blocks after its acceptance, its deadline is boundary plus grace, and the call is live |
| `CallGrants.ReplayChangesNothing` | crates/konsensus-api/src/calls.rs:984-998 | A receipt accepted once changes nothing when delivered again later, whatever receipts came between |
| `CallGrants.EndedStaysEnded` | crates/konsensus-api/src/calls.rs:967-970 | A call ended for any reason other than non-payment is never revived |
| `CallGrants.TakenIff` | crates/konsensus-api/src/calls.rs:965-999 | A receipt is taken if and only if it is due, sets nothing back and reaches no further than two blocks from now and from the end of the resume window |
| `CallGrants.ReachIsTheSameEitherWay` | crates/konsensus-api/src/calls.rs:972-984 | Whether this side had already counted the block or not, the receipt may reach equally far |
| `CallGrants.LapsedReachesAsFar` | crates/konsensus-api/src/calls.rs:972-975 | A call that lapsed for want of payment is revived as far as if it had not |
| `CallGrants.CallStore.ReceiveBlockGrant` | crates/konsensus-api/src/calls.rs:965-999 | The locked read-modify-write is the specified step on the named call and leaves every other call alone |
| `FileStaging.QuotasHold` | crates/konsensus-api/src/file_staging.rs:65-113 | Over every run and for any file ids at most 64 files, 16 MiB in all and 8 MiB per owner are staged |
| `FileStaging.GuardsMatchSends` | crates/konsensus-api/src/file_staging.rs:150-190 | With new file ids, live send guards and entries marked sending correspond one to one in every reachable state |
| `FileStaging.UploadKeepsPairingIff` | crates/konsensus-api/src/file_staging.rs:103-111 | An accepted upload keeps that correspondence if and only if its id is not that of a file being sent |
| `FileStaging.UploadCanOrphanGuard` | crates/konsensus-api/src/file_staging.rs:103-111 | An accepted upload under the id of a file being sent, after which the guard has no file |
| `FileStaging.SendingIsPinned` | crates/konsensus-api/src/file_staging.rs:65-190 | A file being sent is neither swept, removed, claimed again nor changed until its guard is dropped |
| `FileStaging.ClaimsIff` | crates/konsensus-api/src/file_staging.rs:150-174 | A file is claimed if and only if it stands, its owner is live, no send holds it, and the caller is its owner or an administrator |
| `FileStaging.UploadsIff` | crates/konsensus-api/src/file_staging.rs:70-113 | An upload is taken if and only if its owner is live, it is at most 4 MiB and it fits beside what still stands |
| `FileStaging.SweepKeepsIff` | crates/konsensus-api/src/file_staging.rs:65-69 | Everything that looks at the clock drops exactly what is neither being sent nor unexpired with a live owner |
| `FileStaging.RemovesIff` | crates/konsensus-api/src/file_staging.rs:142-149 | A file is removed if and only if it is there and not being sent |
| `FileStaging.Usage` | crates/konsensus-api/src/file_staging.rs:88-94 | The scan computes the staged total and the owner's share of it |
| `FileStaging.Area.InsertFile` | crates/konsensus-api/src/file_staging.rs:70-113 | An upload in place is the specified step |
| `FileStaging.Area.RemoveFile` | crates/konsensus-api/src/file_staging.rs:142-149 | A removal in place is the specified step; a file being sent is left alone |
| `FileStaging.Area.ClaimFile` | crates/konsensus-api/src/file_staging.rs:150-174 | A claim in place is the specified step and creates the only guard of its file |
| `FileStaging.Area.EndSend` | crates/konsensus-api/src/file_staging.rs:182-190 | Dropping a guard removes its file |
| `AdmissionQuote.ReadingBackAQuote` | crates/konsensus-core/src/admission_quote.rs:9-30 | Parsing a printed quote id gives issue time plus 300 exactly when recipient and sender match, nothing overflows and the time is within the window; the printed id always fits the length limit |
| `AdmissionQuote.QuoteBindsItsEndpoints` | crates/konsensus-core/src/admission_quote.rs:17-30 | An accepted id, however it was written, is accepted for no other recipient and sender at any time, and always with the same expiry |
| `AdmissionQuote.AcceptsExactlyTheWritten` | crates/konsensus-core/src/admission_quote.rs:17-30 | An id is accepted if and only if it is the endpoints' prefix, a spelling of the issue time that 64-bit parsing takes, a colon and 32 hex digits, within length and window |
| `AdmissionQuote.ParserIsMoreLiberalThanPrinter` | crates/konsensus-core/src/admission_quote.rs:27-27 | The parser takes a plus sign and leading zeros, which the printer never produces |

## Left out

- Call holds and offers, their closing, and recovered call payments: a reservation here is a message, payment or liquidity charge.
- SpendBudget.Refusing: the per-payment bound of a call is absent, because calls are.
- SpendBudget.CountUnresolved: call reservations and their draws, which the source does not count, are absent.
- GrantBook.AcceptShows: call holds and offers are absent.
- PairingService.EffectOfReserve: call holds and offers are absent.
- PairingService.EffectOfResolve: call holds and draws are absent.
- SpendBudget.TryAdmit: the limits on call holds and call offers are absent.
- PairingService.Service.ReserveSpend: call holds, the journal written before the answer and the mode without a file are absent.
- PairingService.Service.ResolveSpend: the refusal and the draws of call holds are absent.
- PaymentDispatch.EveryPollIsInForce: the guard's rechecks of a call hold and its debits are absent.
- GrantBook.EffectKeeps: quoted re-admission, which also charges a budget, is modelled on one budget in `Readmission` and is not a section of the ledger.
- PairingLedger.ChargeStaysOwed: for the same reason, a share raised by a quoted re-admission is outside it, and so is the raise among the admissions of `PairingLedger.GrantKeepsToItsRates`.
- GrantBook.CapContactKeeps: the one-time approval of a first contact is held in memory only and is absent; what reaches the file is the contact's cap.
- PairingService.Service.RevokeClient: the device keys, pending device keys, replacement approvals and token challenges that go with the client are absent.
- PairingService.Service.ConsoleRevokeClients: the device keys, approvals and token challenges that go with the pairings are absent.
- PairingService.Service.RotateKey: the device keys moved or retired with the id are absent.
- PairingService.Service.RebindToIdentity: the device keys and approvals cleared with the identity are absent.
- PairingService.Service.IssueToken: the challenge and the signature are checked before this step (`TokenChallenges` models the challenge); the provisional-session check is absent.
- PairingService.ChangeOfIssue: the signature and the provisional-session check are absent.
- Enrolling, replacing and removing device keys, replacement approvals, owner confirmations and pairing windows. These sections edit the pairing file too. Of their edits only the ones that reach pairings and grants are modelled: removing a device key ends its owner's relation grants, and the console's removal of pairings. The keys, approvals and confirmations themselves are not state here.
- GrantRules.OpensEnvelopeIff: the nonces and the hourly count of device-signed envelopes, and the check that the signing key is still enrolled, are absent; they only refuse an envelope.
- GrantRules.DeviceGrants: the checks on the approval itself come before this step; they only refuse a grant.
- GrantRules.ResetsIff: the daily limit on resets by a device, and its comparison with the state that was reviewed, are absent; they only refuse a reset.
- GrantRules.ReservesIff: call holds and offers are absent.
- Elevation requests, grant writing, envelopes, first contacts, grant revocation, sweeping and breaker resets are modelled on values in `GrantBook`; the class does not repeat them in place.
- The sweep at the start of every locked section is an event of its own rather than part of each section, which allows more runs than the service has.
- Breaker tallies and timestamps are exact integers where the source saturates at 64 bits; since every limit fits 64 bits, a tally that saturated refuses what the exact one refuses.
- The rolling limits are stated between breaker resets, which forget the counts on purpose.
- RateLimiter.Limiter.ExpireKey: the fallback for a clock that cannot be set back one window is absent; instants here are integers without a least one.
- Cryptography, hex and JSON parsing of requests, file permissions, metrics and HTTP error mapping.
- The setup page's tickets: only its approval and cancellation of a ceremony are events here.
- UnlockAttempts: a panic while a password is checked releases the lock and counts no failure, as in the code; it is an event here.
- The router's own per-call media accounting, WebSocket loops and the socket form of a media frame.
- Storage and the call transition rules: `CallGrants` covers only the receipt of a block grant.
