/**
 The meter on a spend grant: terms, tally, outstanding reservations and circuit breakers.

 `settled` and `stamps` are history variables, which no decision reads. The node keeps only the
 running total `used` and pruned buckets; the model also remembers what each resolved share was
 resolved to, and when each reservation admitted since the last breaker reset was charged.
 */
module SpendBudget {
  import opened Common

  type Recipient = string
  type ReservationId = string

  const MESSAGING_PER_CALL_MAX: nat := 6_000
  const MAX_PAYMENT_IDS: nat := 4096
  const MAX_UNRESOLVED: nat := 1024

  datatype Charge = Charge(recipient: Recipient, amount: nat)

  /** One recipient's part of one reservation. */
  datatype Share = Share(id: ReservationId, recipient: Recipient)

  datatype Limits = Limits(perMinute: nat, perHour: nat, failures: nat, per10Minutes: nat)

  datatype Bucket = Bucket(payments: nat, msat: nat)

  datatype Breaker = Breaker(
    buckets: map<int, Bucket>, lastAt: Option<int>, failures: nat, paused: bool,
    lastRefusal: Option<(Refusal, int)>)

  datatype Refusal =
    | NoGrant | MessagingGrant | Unpriced | DuplicatePayment | LedgerFull | LedgerInvalid
    | OutsideEnvelope | GrantPaused | FailuresPending | RateLimitMinute | RateLimitHour
    | VelocityLimit | PayeeNotAllowed | PerCall | OverTotal | OverRecipient

  datatype Budget = Budget(
    limits: Limits, breaker: Breaker, paymentIds: set<string>,
    allowlist: Option<set<Recipient>>, liquidity: bool,
    total: nat, perCall: nat, caps: map<Recipient, nat>,
    used: nat, usedBy: map<Recipient, nat>,
    pending: map<ReservationId, map<Recipient, nat>>,
    recipientsOnly: bool, perAct: map<Recipient, nat>, envelopeEnds: map<Recipient, int>,
    settled: map<Share, nat>, stamps: map<ReservationId, Stamp>)

  /** When a reservation was charged on the ledger's clock, and what it counted for. */
  datatype Stamp = Stamp(at: int, payments: nat, msat: nat)

  const IDLE := Breaker(map[], None, 0, false, None)

  /** What the owner approves. */
  datatype Terms = Terms(limits: Limits, allowlist: Option<set<Recipient>>, liquidity: bool,
                         total: nat, perCall: nat, caps: map<Recipient, nat>, ttl: int)

  function FromTerms(t: Terms): Budget {
    Budget(t.limits, IDLE, {}, t.allowlist, t.liquidity, t.total, t.perCall, t.caps,
           0, map[], map[], false, map[], map[], map[], map[])
  }

  // ---- Sums over charges and over outstanding reservations ----

  function Amount(charges: seq<Charge>): nat {
    if charges == [] then 0 else charges[0].amount + Amount(charges[1..])
  }

  function Payments(charges: seq<Charge>): nat {
    if charges == [] then 0 else (if charges[0].amount > 0 then 1 else 0) + Payments(charges[1..])
  }

  function Get(m: map<Recipient, nat>, r: Recipient): nat { if r in m then m[r] else 0 }

  /** What each recipient is charged in total; recipients charged zero stay listed. */
  function PerRecipient(charges: seq<Charge>): (m: map<Recipient, nat>)
  {
    if charges == [] then map[] else
      var rest := PerRecipient(charges[1..]);
      rest[charges[0].recipient := Get(rest, charges[0].recipient) + charges[0].amount]
  }

  type Holds = map<ReservationId, map<Recipient, nat>>

  ghost function Totals(p: Holds): map<ReservationId, nat> { map id | id in p :: Sum(p[id]) }

  ghost function Column(p: Holds, r: Recipient): map<ReservationId, nat> {
    map id | id in p && r in p[id] :: p[id][r]
  }

  ghost function SettledTo(s: map<Share, nat>, r: Recipient): map<Share, nat> {
    map k | k in s && k.recipient == r :: s[k]
  }

  ghost function PendingTotal(p: Holds): nat { Sum(Totals(p)) }

  ghost function PendingFor(p: Holds, r: Recipient): nat { Sum(Column(p, r)) }

  ghost function SettledFor(s: map<Share, nat>, r: Recipient): nat { Sum(SettledTo(s, r)) }

  function Positives(m: map<Recipient, nat>): set<Recipient> { set r | r in m && m[r] > 0 }

  ghost function OpenCounts(p: Holds): map<ReservationId, nat> { map id | id in p :: |Positives(p[id])| }

  /** The shares of a positive amount still outstanding. */
  ghost function Unresolved(p: Holds): nat { Sum(OpenCounts(p)) }

  predicate Holding(p: Holds, k: Share) { k.id in p && k.recipient in p[k.id] }

  predicate Outstanding(b: Budget, k: Share) { Holding(b.pending, k) }

  // ---- Reserve ----

  function Clamp(b: Budget, now: int): int {
    match b.breaker.lastAt case None => now case Some(last) => Max(now, last)
  }

  ghost function CountsSince(m: map<int, Bucket>, at: int): map<int, nat> {
    map t | t in m && t > at :: m[t].payments
  }

  ghost function MsatsSince(m: map<int, Bucket>, at: int): map<int, nat> {
    map t | t in m && t > at :: m[t].msat
  }

  ghost function PaymentsSince(b: Breaker, at: int): nat { Sum(CountsSince(b.buckets, at)) }

  ghost function MsatSince(b: Breaker, at: int): nat { Sum(MsatsSince(b.buckets, at)) }

  predicate EnvelopesAllow(b: Budget, due: map<Recipient, nat>, now: int) {
    b.recipientsOnly ==> forall r :: r in due ==>
      r in b.envelopeEnds && b.envelopeEnds[r] > now && Min(due[r], U64_MAX) <= Get(b.perAct, r)
  }

  predicate LimitsValid(l: Limits) {
    l.perMinute > 0 && l.perHour > 0 && l.failures > 0 && l.per10Minutes > 0
  }

  predicate CapsAllow(b: Budget, due: map<Recipient, nat>) {
    forall r :: r in due && r in b.caps ==> due[r] <= SatSub(b.caps[r], Get(b.usedBy, r))
  }

  /** The reason `reserve_bounded` gives at `now`, checks in source order. */
  ghost function WhyNot(b: Budget, charges: seq<Charge>, now: int): Option<Refusal> {
    var due := PerRecipient(charges);
    var at := Clamp(b, now);
    var n := Payments(charges);
    var sum := Amount(charges);
    if !EnvelopesAllow(b, due, now) then Some(OutsideEnvelope)
    else if sum > U64_MAX then Some(VelocityLimit)
    else if !LimitsValid(b.limits) then Some(LedgerInvalid)
    else if b.breaker.paused then Some(GrantPaused)
    else if n > SatSub(b.limits.failures, b.breaker.failures + Unresolved(b.pending)) then Some(FailuresPending)
    else if n > SatSub(b.limits.perMinute, PaymentsSince(b.breaker, at - 60)) then Some(RateLimitMinute)
    else if n > SatSub(b.limits.perHour, PaymentsSince(b.breaker, at - 3600)) then Some(RateLimitHour)
    else if sum > SatSub(b.limits.per10Minutes, MsatSince(b.breaker, at - 600)) then Some(VelocityLimit)
    else if b.allowlist.Some? && exists c :: c in charges && c.recipient !in b.allowlist.value
    then Some(PayeeNotAllowed)
    else if sum > b.perCall then Some(PerCall)
    else if sum > SatSub(b.total, b.used) then Some(OverTotal)
    else if !CapsAllow(b, due) then Some(OverRecipient)
    else None
  }

  function Charged(usedBy: map<Recipient, nat>, due: map<Recipient, nat>): (m: map<Recipient, nat>)
    ensures forall r :: Get(m, r) == Get(usedBy, r) + Get(due, r)
  {
    map r | r in usedBy.Keys + due.Keys && (r in usedBy || due[r] > 0) :: Get(usedBy, r) + Get(due, r)
  }

  function Counted(k: Breaker, at: int, n: nat, sum: nat): Breaker {
    var kept := map t | t in k.buckets && t > at - 3600 :: k.buckets[t];
    var bucket := if at in kept then kept[at] else Bucket(0, 0);
    k.(buckets := kept[at := Bucket(bucket.payments + n, bucket.msat + sum)], lastAt := Some(at))
  }

  function Tallied(b: Budget, charges: seq<Charge>, now: int): Budget {
    var n := Payments(charges);
    b.(used := b.used + Amount(charges),
       usedBy := Charged(b.usedBy, PerRecipient(charges)),
       breaker := if n > 0 then Counted(b.breaker, Clamp(b, now), n, Amount(charges)) else b.breaker)
  }

  /** Rolling refusals are remembered once per window (`record_breaker_refusal`). */
  function RefusalWindow(why: Refusal): nat {
    match why
    case RateLimitMinute => 60
    case RateLimitHour => 3600
    case VelocityLimit => 600
    case _ => 0
  }

  function NoteRefusal(b: Budget, why: Refusal, now: int): Option<Budget> {
    var window := RefusalWindow(why);
    var at := Clamp(b, now);
    if window == 0 then None
    else if b.breaker.lastRefusal.Some? && b.breaker.lastRefusal.value.0 == why
            && b.breaker.lastRefusal.value.1 > at - window then None
    else Some(b.(breaker := b.breaker.(lastRefusal := Some((why, at)))))
  }

  // ---- Resolve ----

  function RemoveShare(p: map<ReservationId, map<Recipient, nat>>, k: Share): map<ReservationId, map<Recipient, nat>>
    requires k.id in p && k.recipient in p[k.id]
  {
    var rest := p[k.id] - {k.recipient};
    if rest == map[] then p - {k.id} else p[k.id := rest]
  }

  function Adjusted(used: nat, reserved: nat, actual: nat): nat {
    if actual <= reserved then SatSub(used, reserved - actual) else SatAdd(used, actual - reserved)
  }

  function Recorded(b: Budget, reserved: nat, actual: nat, now: int): Breaker {
    var k := b.breaker;
    if reserved == 0 && actual == 0 then k else
      var failures := if actual == 0 then SatAdd(k.failures, 1) else 0;
      var counted := k.(failures := failures,
                        paused := k.paused || (actual == 0 && failures >= b.limits.failures));
      if actual > reserved
      then Counted(counted, Clamp(b, now), if reserved == 0 then 1 else 0, actual - reserved)
      else counted
  }

  /** Consumes the share and moves its charge to what was actually paid. */
  function Resolve(b: Budget, k: Share, actual: nat, now: int): Budget
    requires Outstanding(b, k)
  {
    var reserved := b.pending[k.id][k.recipient];
    var used := Adjusted(Get(b.usedBy, k.recipient), reserved, actual);
    b.(pending := RemoveShare(b.pending, k),
       used := Adjusted(b.used, reserved, actual),
       usedBy := if actual == reserved then b.usedBy
                 else if used == 0 then b.usedBy - {k.recipient} else b.usedBy[k.recipient := used],
       breaker := Recorded(b, reserved, actual, now),
       settled := b.settled[k := actual])
  }

  lemma ResolveShape(b: Budget, k: Share, actual: nat, now: int)
    requires Outstanding(b, k)
    ensures var c := Resolve(b, k, actual, now);
            && c.pending == RemoveShare(b.pending, k) && c.settled == b.settled[k := actual]
            && c.paymentIds == b.paymentIds && c.limits == b.limits && c.stamps == b.stamps
  {
    hide Recorded, Adjusted, RemoveShare;
  }

  /** The tally will not clip at 64 bits; a caller can check it before resolving. */
  predicate Fits(b: Budget, k: Share, actual: nat)
    requires Outstanding(b, k)
  {
    var reserved := b.pending[k.id][k.recipient];
    actual <= reserved
    || (b.used + actual - reserved <= U64_MAX && Get(b.usedBy, k.recipient) + actual - reserved <= U64_MAX)
  }

  // ---- Relation envelopes ----

  const DEFAULT_LIMITS := Limits(10, 60, 5, 1_000_000)

  /** An empty relation grant: every recipient needs an envelope. */
  function Relations(): Budget {
    FromTerms(Terms(DEFAULT_LIMITS, None, false, 0, 0, map[], 0)).(recipientsOnly := true)
  }

  /** `open_envelope`: `amount` more than the recipient has used, and the total moved by the difference. */
  function Enveloped(b: Budget, r: Recipient, amount: nat, perAct: nat, ends: int): Budget {
    var left := if r in b.caps then SatSub(b.caps[r], Get(b.usedBy, r)) else 0;
    var total := SatAdd(SatSub(b.total, left), amount);
    b.(caps := b.caps[r := SatAdd(Get(b.usedBy, r), amount)], perAct := b.perAct[r := perAct],
       envelopeEnds := b.envelopeEnds[r := ends], total := total, perCall := Min(total, MESSAGING_PER_CALL_MAX))
  }

  /** A cap for a contact that has none yet (`grant_first_contact_locked`). */
  function Capped(b: Budget, r: Recipient, cap: nat): Budget {
    if r in b.caps then b else b.(caps := b.caps[r := cap])
  }

  /** The owner starts the breakers over. */
  function Reset(b: Budget): Budget { b.(breaker := IDLE, stamps := map[]) }

  // ---- Conservation ----

  /** Everything counted is either still outstanding or was resolved to a known amount. */
  ghost predicate Conserved(b: Budget) { Balanced(b.used, b.usedBy, b.pending, b.settled) }

  ghost predicate Balanced(used: nat, usedBy: map<Recipient, nat>, p: Holds, s: map<Share, nat>) {
    used == PendingTotal(p) + Sum(s) && BalancedForAll(usedBy, p, s) && Apart(p, s)
  }

  ghost predicate BalancedForAll(usedBy: map<Recipient, nat>, p: Holds, s: map<Share, nat>) {
    forall r :: BalancedFor(usedBy, p, s, r)
  }

  ghost predicate BalancedFor(usedBy: map<Recipient, nat>, p: Holds, s: map<Share, nat>, r: Recipient) {
    Get(usedBy, r) == PendingFor(p, r) + SettledFor(s, r)
  }

  /** No share is both outstanding and settled. */
  ghost predicate Apart(p: Holds, s: map<Share, nat>) {
    forall k :: k in s ==> !Holding(p, k)
  }

  lemma {:induction false} PerRecipientTotal(charges: seq<Charge>)
    ensures Sum(PerRecipient(charges)) == Amount(charges)
  {
    if charges != [] {
      var rest := PerRecipient(charges[1..]);
      var r := charges[0].recipient;
      PerRecipientTotal(charges[1..]);
      if r in rest {
        SumSet(rest, r, rest[r] + charges[0].amount);
      } else {
        SumPut(rest, r, charges[0].amount);
      }
    }
  }

  lemma TotalsPut(p: Holds, id: ReservationId, due: map<Recipient, nat>)
    requires id !in p
    ensures Totals(p[id := due]) == Totals(p)[id := Sum(due)]
  {
  }

  lemma ColumnPut(p: Holds, id: ReservationId, due: map<Recipient, nat>, r: Recipient)
    requires id !in p
    ensures Column(p[id := due], r) == if r in due then Column(p, r)[id := due[r]] else Column(p, r)
  {
  }

  lemma PendingPut(p: Holds, id: ReservationId, due: map<Recipient, nat>, r: Recipient)
    requires id !in p
    ensures PendingTotal(p[id := due]) == PendingTotal(p) + Sum(due)
    ensures PendingFor(p[id := due], r) == PendingFor(p, r) + Get(due, r)
  {
    TotalsPut(p, id, due);
    SumPut(Totals(p), id, Sum(due));
    ColumnPut(p, id, due, r);
    if r in due { SumPut(Column(p, r), id, due[r]); }
  }

  lemma TotalsDrop(p: Holds, k: Share)
    requires k.id in p && k.recipient in p[k.id]
    ensures var rest := p[k.id] - {k.recipient};
            Totals(RemoveShare(p, k))
            == if rest == map[] then Totals(p) - {k.id} else Totals(p)[k.id := Sum(rest)]
  {
  }

  lemma ColumnDrop(p: Holds, k: Share, r: Recipient)
    requires k.id in p && k.recipient in p[k.id]
    ensures Column(RemoveShare(p, k), r)
         == if r == k.recipient then Column(p, r) - {k.id} else Column(p, r)
  {
    var rest := p[k.id] - {k.recipient};
    assert r != k.recipient && r in p[k.id] ==> r in rest;
  }

  lemma PendingDrop(p: Holds, k: Share, r: Recipient)
    requires k.id in p && k.recipient in p[k.id]
    ensures PendingTotal(RemoveShare(p, k)) == PendingTotal(p) - p[k.id][k.recipient]
    ensures PendingFor(RemoveShare(p, k), r)
         == PendingFor(p, r) - (if r == k.recipient then p[k.id][r] else 0)
  {
    var rest := p[k.id] - {k.recipient};
    SumDrop(p[k.id], k.recipient);
    TotalsDrop(p, k);
    if rest == map[] { SumDrop(Totals(p), k.id); } else { SumSet(Totals(p), k.id, Sum(rest)); }
    ColumnDrop(p, k, r);
    if r == k.recipient { SumDrop(Column(p, r), k.id); }
  }

  lemma SettledPut(s: map<Share, nat>, k: Share, v: nat, r: Recipient)
    requires k !in s
    ensures Sum(s[k := v]) == Sum(s) + v
    ensures SettledFor(s[k := v], r) == SettledFor(s, r) + (if r == k.recipient then v else 0)
  {
    var t := s[k := v];
    SumPut(s, k, v);
    if r == k.recipient {
      assert SettledTo(t, r) == SettledTo(s, r)[k := v];
      SumPut(SettledTo(s, r), k, v);
    } else {
      assert SettledTo(t, r) == SettledTo(s, r);
    }
  }

  /** Charges of an admitted call become one outstanding reservation; nothing else moves. */
  function Hold(b: Budget, id: ReservationId, charges: seq<Charge>): Budget {
    if charges == [] then b else b.(pending := b.pending[id := PerRecipient(charges)])
  }

  lemma BalancedForPut(usedBy: map<Recipient, nat>, p: Holds, s: map<Share, nat>,
                       id: ReservationId, due: map<Recipient, nat>, r: Recipient)
    requires id !in p && BalancedFor(usedBy, p, s, r)
    ensures BalancedFor(Charged(usedBy, due), p[id := due], s, r)
  {
    PendingPut(p, id, due, r);
  }

  lemma BalancedForAllPut(usedBy: map<Recipient, nat>, p: Holds, s: map<Share, nat>,
                          id: ReservationId, due: map<Recipient, nat>)
    requires id !in p && BalancedForAll(usedBy, p, s)
    ensures BalancedForAll(Charged(usedBy, due), p[id := due], s)
  {
    var q, usedBy' := p[id := due], Charged(usedBy, due);
    forall r ensures BalancedFor(usedBy', q, s, r) {
      BalancedForPut(usedBy, p, s, id, due, r);
    }
  }

  lemma BalancedPut(used: nat, usedBy: map<Recipient, nat>, p: Holds, s: map<Share, nat>,
                    id: ReservationId, due: map<Recipient, nat>)
    requires Balanced(used, usedBy, p, s)
    requires id !in p && forall k :: k in s ==> k.id != id
    ensures Balanced(used + Sum(due), Charged(usedBy, due), p[id := due], s)
  {
    BalancedForAllPut(usedBy, p, s, id, due);
    PendingPut(p, id, due, "");
  }

  lemma BalancedForDrop(usedBy: map<Recipient, nat>, p: Holds, s: map<Share, nat>, k: Share,
                        actual: nat, usedBy': map<Recipient, nat>, r: Recipient)
    requires Holding(p, k) && k !in s && BalancedFor(usedBy, p, s, r)
    requires Get(usedBy', r) == Get(usedBy, r) + (if r == k.recipient then actual - p[k.id][r] else 0)
    ensures BalancedFor(usedBy', RemoveShare(p, k), s[k := actual], r)
  {
    PendingDrop(p, k, r);
    SettledPut(s, k, actual, r);
  }

  lemma BalancedForAllDrop(usedBy: map<Recipient, nat>, p: Holds, s: map<Share, nat>, k: Share,
                           actual: nat, usedBy': map<Recipient, nat>)
    requires Holding(p, k) && k !in s && BalancedForAll(usedBy, p, s)
    requires forall r :: Get(usedBy', r) ==
               Get(usedBy, r) + (if r == k.recipient then actual - p[k.id][r] else 0)
    ensures BalancedForAll(usedBy', RemoveShare(p, k), s[k := actual])
  {
    var q, t := RemoveShare(p, k), s[k := actual];
    forall r ensures BalancedFor(usedBy', q, t, r) {
      BalancedForDrop(usedBy, p, s, k, actual, usedBy', r);
    }
  }

  lemma BalancedDrop(used: nat, usedBy: map<Recipient, nat>, p: Holds, s: map<Share, nat>, k: Share,
                     actual: nat, used': nat, usedBy': map<Recipient, nat>)
    requires Balanced(used, usedBy, p, s) && Holding(p, k)
    requires used' == used - p[k.id][k.recipient] + actual
    requires forall r :: Get(usedBy', r) ==
               Get(usedBy, r) + (if r == k.recipient then actual - p[k.id][r] else 0)
    ensures Balanced(used', usedBy', RemoveShare(p, k), s[k := actual])
  {
    BalancedForAllDrop(usedBy, p, s, k, actual, usedBy');
    PendingDrop(p, k, k.recipient);
    SettledPut(s, k, actual, k.recipient);
    assert forall j :: Holding(RemoveShare(p, k), j) ==> Holding(p, j);
  }

  /** A share's amount is part of both tallies, so releasing it never clips at zero. */
  lemma ShareWithin(b: Budget, k: Share)
    requires Conserved(b) && Outstanding(b, k)
    ensures b.pending[k.id][k.recipient] <= b.used
    ensures b.pending[k.id][k.recipient] <= Get(b.usedBy, k.recipient)
  {
    PendingDrop(b.pending, k, k.recipient);
    assert BalancedFor(b.usedBy, b.pending, b.settled, k.recipient);
  }

  /** A reservation moves exactly its charges into the tally and into what is outstanding. */
  lemma ReserveConserves(b: Budget, id: ReservationId, charges: seq<Charge>, now: int)
    requires Conserved(b)
    requires id !in b.pending && forall k :: k in b.settled ==> k.id != id
    ensures Conserved(Hold(Tallied(b, charges, now), id, charges))
  {
    PerRecipientTotal(charges);
    if charges == [] {
      assert Charged(b.usedBy, map[]) == b.usedBy;
    } else {
      BalancedPut(b.used, b.usedBy, b.pending, b.settled, id, PerRecipient(charges));
    }
  }

  /** A tally that clipped no longer equals the sum of its shares. */
  lemma ClippedUnbalances(b: Budget, k: Share, actual: nat, now: int)
    requires Conserved(b) && Outstanding(b, k) && !Fits(b, k, actual)
    ensures !Conserved(Resolve(b, k, actual, now))
  {
    assert BalancedFor(b.usedBy, b.pending, b.settled, k.recipient);
    var c := Resolve(b, k, actual, now);
    hide Recorded;
    PendingDrop(b.pending, k, k.recipient);
    SettledPut(b.settled, k, actual, k.recipient);
    assert c.used != PendingTotal(c.pending) + Sum(c.settled)
           || !BalancedFor(c.usedBy, c.pending, c.settled, k.recipient);
  }

  /**
   Resolving a share once moves exactly its amount from outstanding to settled, unless the tally
   clips at 64 bits: the balance survives if and only if the new total fits.
   */
  lemma ResolveConserves(b: Budget, k: Share, actual: nat, now: int)
    requires Conserved(b) && Outstanding(b, k)
    ensures Conserved(Resolve(b, k, actual, now)) <==> Fits(b, k, actual)
  {
    if Fits(b, k, actual) {
      hide Recorded;
      ShareWithin(b, k);
      var c := Resolve(b, k, actual, now);
      BalancedDrop(b.used, b.usedBy, b.pending, b.settled, k, actual, c.used, c.usedBy);
    } else {
      ClippedUnbalances(b, k, actual, now);
    }
  }

  /** A budget one resolution away from clipping: all but one of 2^64 - 1 settled, one outstanding. */
  function Brimming(): Budget {
    Budget(Limits(1, 1, 1, 1), IDLE, {}, None, false, U64_MAX, U64_MAX, map[], U64_MAX, map["r" := U64_MAX],
           map["b" := map["r" := 1]], false, map[], map[], map[Share("a", "r") := U64_MAX - 1], map[])
  }

  lemma BrimmingFor(r: Recipient)
    ensures var b := Brimming(); BalancedFor(b.usedBy, b.pending, b.settled, r)
    ensures var b := Brimming(); PendingTotal(b.pending) == 1 && Sum(b.settled) == U64_MAX - 1
  {
    var none: Holds, nil: map<Share, nat>, empty: map<Recipient, nat> := map[], map[], map[];
    assert Column(none, r) == map[] && SettledTo(nil, r) == map[] && Totals(none) == map[];
    SumPut(empty, "r", 1);
    PendingPut(none, "b", empty["r" := 1], r);
    SettledPut(nil, Share("a", "r"), U64_MAX - 1, r);
    assert Brimming().pending == none["b" := empty["r" := 1]]
           && Brimming().settled == nil[Share("a", "r") := U64_MAX - 1];
  }

  lemma ResolveCanClip()
    ensures var b := Brimming();
            Conserved(b) && Outstanding(b, Share("b", "r")) && !Conserved(Resolve(b, Share("b", "r"), 2, 0))
  {
    var b := Brimming();
    hide BalancedFor, Resolve, PendingTotal, Sum;
    forall r ensures BalancedFor(b.usedBy, b.pending, b.settled, r) { BrimmingFor(r); }
    BrimmingFor("r");
    assert Outstanding(b, Share("b", "r")) && !Fits(b, Share("b", "r"), 2);
    ResolveConserves(b, Share("b", "r"), 2, 0);
  }

  // ---- One admission under the ledger lock ----

  datatype Admission = Admitted(budget: Budget) | Denied(why: Refusal, noted: Option<Budget>)

  /** The part of `reserve_spend_locked` that looks at the chosen grant's budget. */
  ghost function Admit(b: Budget, id: ReservationId, charges: seq<Charge>, ids: set<string>,
                       payment: bool, now: int): Admission
  {
    if !(ids !! b.paymentIds) then Denied(DuplicatePayment, None)
    else if |b.paymentIds| + |ids| > MAX_PAYMENT_IDS then Denied(LedgerFull, None)
    else if |b.pending| >= MAX_UNRESOLVED then Denied(LedgerFull, None)
    else
      var why := if !payment && Amount(charges) > Min(b.perCall, MESSAGING_PER_CALL_MAX)
                 then Some(PerCall) else WhyNot(b, charges, now);
      if why.Some? then Denied(why.value, NoteRefusal(b, why.value, now))
      else Admitted(Held(b, id, charges, ids, now))
  }

  /** A call that pays nobody is not counted by the breakers. */
  function Stamped(b: Budget, id: ReservationId, charges: seq<Charge>, now: int): map<ReservationId, Stamp> {
    if Payments(charges) == 0 then b.stamps
    else b.stamps[id := Stamp(Clamp(b, now), Payments(charges), Amount(charges))]
  }

  function Held(b: Budget, id: ReservationId, charges: seq<Charge>, ids: set<string>, now: int): Budget {
    Hold(Tallied(b, charges, now), id, charges)
    .(paymentIds := b.paymentIds + ids, stamps := Stamped(b, id, charges, now))
  }

  lemma HeldConserves(b: Budget, id: ReservationId, charges: seq<Charge>, ids: set<string>, now: int)
    requires Conserved(b)
    requires id !in b.pending && forall k :: k in b.settled ==> k.id != id
    ensures Conserved(Held(b, id, charges, ids, now))
  {
    hide Balanced, Hold, Tallied;
    ReserveConserves(b, id, charges, now);
  }

  lemma HeldShape(b: Budget, id: ReservationId, charges: seq<Charge>, ids: set<string>, now: int)
    ensures var c := Held(b, id, charges, ids, now);
            && c.settled == b.settled && c.paymentIds == b.paymentIds + ids && c.limits == b.limits
            && c.pending == (if charges == [] then b.pending else b.pending[id := PerRecipient(charges)])
            && c.stamps == Stamped(b, id, charges, now)
  {
  }

  lemma HeldBreaker(b: Budget, id: ReservationId, charges: seq<Charge>, ids: set<string>, now: int)
    ensures var c := Held(b, id, charges, ids, now);
            c.breaker == if Payments(charges) == 0 then b.breaker
                         else Counted(b.breaker, Clamp(b, now), Payments(charges), Amount(charges))
  {
    hide Charged, PerRecipient, Stamped, Counted;
  }

  /** Nothing changed but the refusal the breaker remembers. */
  predicate OnlyNoted(b: Budget, c: Budget) {
    c == b.(breaker := c.breaker) && c.breaker.buckets == b.breaker.buckets && c.breaker.lastAt == b.breaker.lastAt
  }

  /** An admission is a hold of exactly these charges, and consumes identities never seen before. */
  lemma AdmitShape(b: Budget, id: ReservationId, charges: seq<Charge>, ids: set<string>, payment: bool, now: int)
    ensures match Admit(b, id, charges, ids, payment, now)
            case Admitted(c) =>
              c == Held(b, id, charges, ids, now) && ids !! b.paymentIds && WhyNot(b, charges, now).None?
            case Denied(_, noted) => noted.Some? ==> OnlyNoted(b, noted.value)
  {
    hide WhyNot, Held;
  }

  // ---- What an admission can never exceed ----

  /** The bucket a call is counted in, before it is. */
  function BucketAt(k: Breaker, at: int): Bucket { if at in k.buckets then k.buckets[at] else Bucket(0, 0) }

  lemma CountedBuckets(k: Breaker, at: int, n: nat, sum: nat, from: int)
    requires at - 3600 <= from < at
    ensures var m, was := Counted(k, at, n, sum).buckets, BucketAt(k, at);
            && CountsSince(m, from) == CountsSince(k.buckets, from)[at := was.payments + n]
            && MsatsSince(m, from) == MsatsSince(k.buckets, from)[at := was.msat + sum]
  {
  }

  /** Counting a call adds it to every window that ends now, and drops nothing those windows see. */
  lemma CountedSince(k: Breaker, at: int, n: nat, sum: nat, from: int)
    requires at - 3600 <= from < at
    ensures PaymentsSince(Counted(k, at, n, sum), from) == PaymentsSince(k, from) + n
    ensures MsatSince(Counted(k, at, n, sum), from) == MsatSince(k, from) + sum
  {
    hide Counted, Sum;
    CountedBuckets(k, at, n, sum, from);
    SumGrows(CountsSince(k.buckets, from), at, BucketAt(k, at).payments, n);
    SumGrows(MsatsSince(k.buckets, from), at, BucketAt(k, at).msat, sum);
  }

  lemma {:induction false} NoPaymentNoAmount(charges: seq<Charge>)
    ensures Payments(charges) == 0 <==> Amount(charges) == 0
  {
    if charges != [] { NoPaymentNoAmount(charges[1..]); }
  }

  /** What a call asks of one recipient in all. */
  function Owed(charges: seq<Charge>, r: Recipient): nat {
    if charges == [] then 0 else (if charges[0].recipient == r then charges[0].amount else 0) + Owed(charges[1..], r)
  }

  lemma {:induction false} PerRecipientIsOwed(charges: seq<Charge>, r: Recipient)
    ensures Get(PerRecipient(charges), r) == Owed(charges, r) <= Amount(charges)
    ensures r in PerRecipient(charges) <==> exists c :: c in charges && c.recipient == r
  {
    if charges != [] { PerRecipientIsOwed(charges[1..], r); }
  }

  /** The recipient has an envelope that is still open, and all of the call that goes to it fits one act. */
  predicate EnvelopeCovers(b: Budget, charges: seq<Charge>, r: Recipient, now: int) {
    r in b.envelopeEnds && now < b.envelopeEnds[r] && Owed(charges, r) <= Get(b.perAct, r)
  }

  /** Everything a grant asks of a call. */
  ghost predicate Allowed(b: Budget, charges: seq<Charge>, now: int) {
    var at := match b.breaker.lastAt case Some(last) => Max(now, last) case None => now;
    var n, sum := Payments(charges), Amount(charges);
    && b.limits.perMinute > 0 && b.limits.perHour > 0 && b.limits.failures > 0 && b.limits.per10Minutes > 0
    && !b.breaker.paused && sum <= b.perCall && sum <= U64_MAX
    && (n > 0 ==> && n + b.breaker.failures + Unresolved(b.pending) <= b.limits.failures
                  && n + PaymentsSince(b.breaker, at - 60) <= b.limits.perMinute
                  && n + PaymentsSince(b.breaker, at - 3600) <= b.limits.perHour
                  && sum + MsatSince(b.breaker, at - 600) <= b.limits.per10Minutes
                  && sum + b.used <= b.total)
    && (forall c :: c in charges ==> RecipientAllowed(b, charges, c.recipient, now))
  }

  /** The recipient may be paid at all, and what it gets in this call fits its cap. */
  predicate RecipientAllowed(b: Budget, charges: seq<Charge>, r: Recipient, now: int) {
    && (b.allowlist.Some? ==> r in b.allowlist.value)
    && (b.recipientsOnly ==> EnvelopeCovers(b, charges, r, now))
    && (r in b.caps && Owed(charges, r) > 0 ==> Get(b.usedBy, r) + Owed(charges, r) <= b.caps[r])
  }

  lemma EnvelopesAllowIff(b: Budget, charges: seq<Charge>, now: int)
    requires Amount(charges) <= U64_MAX
    ensures EnvelopesAllow(b, PerRecipient(charges), now)
       <==> (b.recipientsOnly ==> forall c :: c in charges ==> EnvelopeCovers(b, charges, c.recipient, now))
  {
    hide PerRecipient, Owed;
    forall r ensures Get(PerRecipient(charges), r) == Owed(charges, r) <= Amount(charges)
             ensures r in PerRecipient(charges) <==> exists c :: c in charges && c.recipient == r {
      PerRecipientIsOwed(charges, r);
    }
    if b.recipientsOnly && EnvelopesAllow(b, PerRecipient(charges), now) {
      forall c | c in charges ensures EnvelopeCovers(b, charges, c.recipient, now) {
        assert c.recipient in PerRecipient(charges);
      }
    }
  }

  lemma CapsAllowIff(b: Budget, charges: seq<Charge>)
    ensures CapsAllow(b, PerRecipient(charges))
       <==> forall c :: c in charges && c.recipient in b.caps && Owed(charges, c.recipient) > 0 ==>
              Get(b.usedBy, c.recipient) + Owed(charges, c.recipient) <= b.caps[c.recipient]
  {
    hide PerRecipient, Owed;
    forall r ensures Get(PerRecipient(charges), r) == Owed(charges, r)
             ensures r in PerRecipient(charges) <==> exists c :: c in charges && c.recipient == r {
      PerRecipientIsOwed(charges, r);
    }
    if CapsAllow(b, PerRecipient(charges)) {
      forall c | c in charges && c.recipient in b.caps && Owed(charges, c.recipient) > 0
        ensures Get(b.usedBy, c.recipient) + Owed(charges, c.recipient) <= b.caps[c.recipient] {
        assert c.recipient in PerRecipient(charges);
      }
    }
  }

  lemma RecipientsAllowedIff(b: Budget, charges: seq<Charge>, now: int)
    requires Amount(charges) <= U64_MAX
    ensures (forall c :: c in charges ==> RecipientAllowed(b, charges, c.recipient, now)) <==>
              && EnvelopesAllow(b, PerRecipient(charges), now) && CapsAllow(b, PerRecipient(charges))
              && !(b.allowlist.Some? && exists c :: c in charges && c.recipient !in b.allowlist.value)
  {
    CapsAllowIff(b, charges);
    EnvelopesAllowIff(b, charges, now);
    hide PerRecipient, Owed, Amount, EnvelopesAllow, EnvelopeCovers, CapsAllow;
  }

  /** The chain of refusals is silent exactly for a call that the grant allows. */
  lemma AllowedIff(b: Budget, charges: seq<Charge>, now: int)
    ensures WhyNot(b, charges, now).None? <==> Allowed(b, charges, now)
  {
    NoPaymentNoAmount(charges);
    if Amount(charges) <= U64_MAX { RecipientsAllowedIff(b, charges, now); }
    hide PerRecipient, Payments, Amount, EnvelopesAllow, CapsAllow, RecipientAllowed, PaymentsSince, MsatSince,
         Unresolved;
  }

  /** A call is admitted if and only if its identities are new, the ledgers have room, and the grant allows it. */
  lemma AdmittedIff(b: Budget, id: ReservationId, charges: seq<Charge>, ids: set<string>, payment: bool, now: int)
    ensures Admit(b, id, charges, ids, payment, now).Admitted? <==>
              && ids !! b.paymentIds && |b.paymentIds| + |ids| <= 4096 && |b.pending| < 1024
              && (!payment ==> Amount(charges) <= 6_000) && Allowed(b, charges, now)
  {
    hide WhyNot, Held, NoteRefusal;
    AllowedIff(b, charges, now);
  }

  /** Within the owner's terms: what the tallies may be after an admission, given what they were. */
  ghost predicate WithinTerms(b: Budget, c: Budget, charges: seq<Charge>, now: int) {
    && Amount(charges) <= b.perCall && c.used <= Max(b.total, b.used)
    && (forall r :: r in b.caps ==> Get(c.usedBy, r) <= Max(b.caps[r], Get(b.usedBy, r)))
    && (b.allowlist.Some? ==> forall x :: x in charges ==> x.recipient in b.allowlist.value)
    && (b.recipientsOnly ==> forall x :: x in charges ==> EnvelopeCovers(b, charges, x.recipient, now))
    && (Payments(charges) > 0 ==> Payments(charges) + b.breaker.failures + Unresolved(b.pending) <= b.limits.failures)
    && !b.breaker.paused
  }

  ghost predicate WithinRates(b: Budget, c: Budget, at: int) {
    && PaymentsSince(c.breaker, at - 60) <= Max(b.limits.perMinute, PaymentsSince(b.breaker, at - 60))
    && PaymentsSince(c.breaker, at - 3600) <= Max(b.limits.perHour, PaymentsSince(b.breaker, at - 3600))
    && MsatSince(c.breaker, at - 600) <= Max(b.limits.per10Minutes, MsatSince(b.breaker, at - 600))
  }

  lemma TalliedWithinTerms(b: Budget, charges: seq<Charge>, now: int)
    requires WhyNot(b, charges, now).None?
    ensures WithinTerms(b, Tallied(b, charges, now), charges, now)
  {
    AllowedIff(b, charges, now);
    hide PaymentsSince, MsatSince, Counted, PerRecipient, Unresolved, EnvelopesAllow, EnvelopeCovers;
    var due := PerRecipient(charges);
    forall r | r in b.caps ensures Get(Charged(b.usedBy, due), r) <= Max(b.caps[r], Get(b.usedBy, r)) {
      assert Get(Charged(b.usedBy, due), r) == Get(b.usedBy, r) + Get(due, r);
    }
  }

  lemma TalliedWithinRates(b: Budget, charges: seq<Charge>, now: int)
    requires WhyNot(b, charges, now).None?
    ensures WithinRates(b, Tallied(b, charges, now), Clamp(b, now))
  {
    hide PaymentsSince, MsatSince, Counted, PerRecipient, Unresolved, EnvelopesAllow, Charged, CapsAllow;
    NoPaymentNoAmount(charges);
    var at, n, sum := Clamp(b, now), Payments(charges), Amount(charges);
    CountedSince(b.breaker, at, n, sum, at - 60);
    CountedSince(b.breaker, at, n, sum, at - 3600);
    CountedSince(b.breaker, at, n, sum, at - 600);
  }

  /**
   An admitted call keeps within everything the owner set: the total, the per-call maximum, each
   contact's cap, the allowlist, and the rolling payment and amount limits ending now.
   */
  lemma AdmissionKeepsToTerms(b: Budget, id: ReservationId, charges: seq<Charge>, ids: set<string>, payment: bool,
                              now: int)
    ensures var a := Admit(b, id, charges, ids, payment, now);
            a.Admitted? ==> WithinTerms(b, a.budget, charges, now) && WithinRates(b, a.budget, Clamp(b, now))
  {
    hide WhyNot, Tallied, PaymentsSince, MsatSince;
    if WhyNot(b, charges, now).None? {
      TalliedWithinTerms(b, charges, now);
      TalliedWithinRates(b, charges, now);
    }
  }

  /** A cap on one more contact only narrows the grant: it admits nothing the grant did not. */
  lemma CapNarrows(b: Budget, r: Recipient, cap: nat, charges: seq<Charge>, now: int)
    ensures WhyNot(Capped(b, r, cap), charges, now).None? ==> WhyNot(b, charges, now).None?
  {
    hide PaymentsSince, MsatSince, Unresolved, PerRecipient;
  }

  // ---- What the breaker notes ----

  /** The rolling limits, and how far back each looks. */
  function LooksBack(why: Refusal): Option<nat> {
    match why
    case RateLimitMinute => Some(60)
    case VelocityLimit => Some(600)
    case RateLimitHour => Some(3600)
    case _ => None
  }

  /** A refusal is put on record exactly if a rolling limit made it and its window does not have it on record yet. */
  lemma NotesIff(b: Budget, why: Refusal, now: int)
    ensures var at := Clamp(b, now);
            NoteRefusal(b, why, now).Some? <==>
              && LooksBack(why).Some?
              && forall t :: b.breaker.lastRefusal == Some((why, t)) ==> t <= at - LooksBack(why).value
    ensures NoteRefusal(b, why, now).Some? ==>
              NoteRefusal(b, why, now).value.breaker.lastRefusal == Some((why, Clamp(b, now)))
  {
    if b.breaker.lastRefusal.Some? {
      var r := b.breaker.lastRefusal.value;
      assert r == (r.0, r.1);
    }
  }

  lemma RecordedBuckets(b: Budget, reserved: nat, actual: nat, now: int)
    ensures Recorded(b, reserved, actual, now).buckets
         == if actual <= reserved then b.breaker.buckets
            else Counted(b.breaker, Clamp(b, now), if reserved == 0 then 1 else 0, actual - reserved).buckets
  {
  }

  /** What was paid above the reservation counts now, and as one more payment if nothing had been reserved. */
  lemma OverrunIsCounted(b: Budget, reserved: nat, actual: nat, now: int, from: int)
    requires Clamp(b, now) - 3600 <= from < Clamp(b, now)
    ensures var k := Recorded(b, reserved, actual, now);
            && PaymentsSince(k, from) == PaymentsSince(b.breaker, from) + (if actual > reserved == 0 then 1 else 0)
            && MsatSince(k, from) == MsatSince(b.breaker, from) + SatSub(actual, reserved)
  {
    hide Recorded, Counted, Sum, CountsSince, MsatsSince;
    RecordedBuckets(b, reserved, actual, now);
    if actual > reserved {
      CountedSince(b.breaker, Clamp(b, now), if reserved == 0 then 1 else 0, actual - reserved, from);
    }
  }

  lemma ResolveRecords(b: Budget, k: Share, actual: nat, now: int)
    requires Outstanding(b, k)
    ensures Resolve(b, k, actual, now).breaker == Recorded(b, b.pending[k.id][k.recipient], actual, now)
  {
    hide Recorded, Adjusted, RemoveShare;
  }

  // ---- Failures in a row ----

  /** One share resolved to what was paid for it. */
  datatype Resolution = Resolution(share: Share, actual: nat, now: int)

  /** Each share is outstanding when its turn comes, and something was reserved or paid for it. */
  predicate InTurn(b: Budget, rs: seq<Resolution>)
    decreases |rs|
  {
    rs == [] ||
      (&& Outstanding(b, rs[0].share)
       && b.pending[rs[0].share.id][rs[0].share.recipient] + rs[0].actual > 0
       && InTurn(Resolve(b, rs[0].share, rs[0].actual, rs[0].now), rs[1..]))
  }

  function ResolvedAll(b: Budget, rs: seq<Resolution>): Budget
    requires InTurn(b, rs)
    decreases |rs|
  {
    if rs == [] then b else ResolvedAll(Resolve(b, rs[0].share, rs[0].actual, rs[0].now), rs[1..])
  }

  /** Failures in a row at the end: a payment of nothing adds one, any other starts over. */
  function Streak(was: nat, rs: seq<Resolution>): nat
    decreases |rs|
  {
    if rs == [] then was else Streak(if rs[0].actual == 0 then SatAdd(was, 1) else 0, rs[1..])
  }

  function StreakAt(was: nat, rs: seq<Resolution>, i: nat): nat
    requires i < |rs|
  {
    Streak(was, rs[..i + 1])
  }

  /** Somewhere in the sequence the failures in a row reach the limit. */
  predicate Trips(was: nat, limit: nat, rs: seq<Resolution>) {
    exists i :: 0 <= i < |rs| && rs[i].actual == 0 && limit <= StreakAt(was, rs, i)
  }

  lemma StreakLater(was: nat, rs: seq<Resolution>, i: nat)
    requires i + 1 < |rs|
    ensures StreakAt(if rs[0].actual == 0 then SatAdd(was, 1) else 0, rs[1..], i) == StreakAt(was, rs, i + 1)
  {
    assert rs[..i + 2][1..] == rs[1..][..i + 1];
  }

  lemma TripsFirst(was: nat, limit: nat, rs: seq<Resolution>)
    requires rs != []
    ensures var first := if rs[0].actual == 0 then SatAdd(was, 1) else 0;
            Trips(was, limit, rs) <==> (rs[0].actual == 0 && limit <= first) || Trips(first, limit, rs[1..])
  {
    var first := if rs[0].actual == 0 then SatAdd(was, 1) else 0;
    assert rs[..1] == [rs[0]] && [rs[0]][1..] == [] && Streak(was, [rs[0]]) == Streak(first, []);
    assert StreakAt(was, rs, 0) == first;
    hide StreakAt;
    if Trips(first, limit, rs[1..]) {
      var i :| 0 <= i < |rs[1..]| && rs[1..][i].actual == 0 && limit <= StreakAt(first, rs[1..], i);
      StreakLater(was, rs, i);
      assert rs[i + 1].actual == 0 && limit <= StreakAt(was, rs, i + 1);
    }
    if Trips(was, limit, rs) {
      var i :| 0 <= i < |rs| && rs[i].actual == 0 && limit <= StreakAt(was, rs, i);
      if i > 0 {
        StreakLater(was, rs, i - 1);
        assert rs[1..][i - 1].actual == 0 && limit <= StreakAt(first, rs[1..], i - 1);
      }
    }
  }

  lemma ResolvedBreaker(b: Budget, k: Share, actual: nat, now: int)
    requires Outstanding(b, k) && b.pending[k.id][k.recipient] + actual > 0
    ensures var c := Resolve(b, k, actual, now);
            && c.limits == b.limits && c.breaker.failures == (if actual == 0 then SatAdd(b.breaker.failures, 1) else 0)
            && (c.breaker.paused <==> b.breaker.paused || (actual == 0 && c.breaker.failures >= b.limits.failures))
  {
    hide RemoveShare, Adjusted;
  }

  /** Over any resolutions the breaker counts failures in a row, and pauses for good once they reach the limit. */
  lemma {:induction false} FailuresInARowPause(b: Budget, rs: seq<Resolution>)
    requires InTurn(b, rs)
    ensures var c := ResolvedAll(b, rs);
            && c.breaker.failures == Streak(b.breaker.failures, rs)
            && (c.breaker.paused <==> b.breaker.paused || Trips(b.breaker.failures, b.limits.failures, rs))
    decreases |rs|
  {
    if rs != [] {
      ResolvedBreaker(b, rs[0].share, rs[0].actual, rs[0].now);
      TripsFirst(b.breaker.failures, b.limits.failures, rs);
      hide Resolve, Trips;
      FailuresInARowPause(Resolve(b, rs[0].share, rs[0].actual, rs[0].now), rs[1..]);
    }
  }

  // ---- What the owner approved, whatever happens to the budget ----

  /**
   What the owner approved, and for each recipient how much its payments may have cost above what was
   reserved for them.
   */
  datatype Ceiling = Ceiling(total: nat, caps: map<Recipient, nat>, perCall: nat, allowlist: Option<set<Recipient>>,
                             liquidity: bool, spill: map<Recipient, nat>)

  function Approved(t: Terms, spill: map<Recipient, nat>): Ceiling {
    Ceiling(t.total, t.caps, t.perCall, t.allowlist, t.liquidity, spill)
  }

  function Spilled(c: Ceiling, r: Recipient, more: nat): Ceiling { c.(spill := c.spill[r := Get(c.spill, r) + more]) }

  ghost predicate TallyUnder(used: nat, usedBy: map<Recipient, nat>, c: Ceiling) {
    used <= c.total + Sum(c.spill) && forall r :: r in c.caps ==> Get(usedBy, r) <= c.caps[r] + Get(c.spill, r)
  }

  /** The budget has kept to the ceiling; caps may have been added to it since. */
  ghost predicate Under(b: Budget, c: Ceiling) {
    && !b.recipientsOnly && b.total == c.total && Extends(b.caps, c.caps) && TallyUnder(b.used, b.usedBy, c)
    && b.perCall == c.perCall && b.allowlist == c.allowlist && b.liquidity == c.liquidity
  }

  /** Two budgets on the same terms. */
  predicate SameTerms(b: Budget, c: Budget) {
    && c.recipientsOnly == b.recipientsOnly && c.total == b.total && c.caps == b.caps
    && c.perCall == b.perCall && c.allowlist == b.allowlist && c.liquidity == b.liquidity
  }

  lemma TalliedTerms(b: Budget, charges: seq<Charge>, now: int)
    ensures SameTerms(b, Tallied(b, charges, now))
  {
    hide Charged, PerRecipient, Counted;
  }

  lemma HeldTally(b: Budget, id: ReservationId, charges: seq<Charge>, ids: set<string>, now: int)
    ensures var c, d := Held(b, id, charges, ids, now), Tallied(b, charges, now);
            SameTerms(d, c) && c.used == d.used && c.usedBy == d.usedBy
  {
    hide Tallied, Stamped, PerRecipient;
  }

  lemma HeldUnder(b: Budget, id: ReservationId, charges: seq<Charge>, ids: set<string>, now: int, c: Ceiling)
    requires Under(b, c) && WhyNot(b, charges, now).None?
    ensures Under(Held(b, id, charges, ids, now), c)
  {
    hide WhyNot, Sum, Held, Tallied;
    HeldTally(b, id, charges, ids, now);
    TalliedTerms(b, charges, now);
    TalliedWithinTerms(b, charges, now);
  }

  lemma ResolvedTally(b: Budget, k: Share, actual: nat, now: int)
    requires Conserved(b) && Outstanding(b, k)
    ensures var c, over := Resolve(b, k, actual, now), SatSub(actual, b.pending[k.id][k.recipient]);
            && SameTerms(b, c) && c.used <= b.used + over
            && forall r :: Get(c.usedBy, r) <= Get(b.usedBy, r) + if r == k.recipient then over else 0
  {
    ShareWithin(b, k);
    hide Conserved, Recorded, RemoveShare;
  }

  /** A resolution above the reservation can pass the ceiling by no more than the difference. */
  lemma ResolvedUnder(b: Budget, k: Share, actual: nat, now: int, c: Ceiling)
    requires Conserved(b) && Outstanding(b, k) && Under(b, c)
    ensures Under(Resolve(b, k, actual, now), Spilled(c, k.recipient, SatSub(actual, b.pending[k.id][k.recipient])))
  {
    hide Conserved, Resolve, Sum;
    ResolvedTally(b, k, actual, now);
    SumGrows(c.spill, k.recipient, Get(c.spill, k.recipient), SatSub(actual, b.pending[k.id][k.recipient]));
  }

  lemma SpilledUnder(b: Budget, c: Ceiling, r: Recipient, more: nat)
    requires Under(b, c)
    ensures Under(b, Spilled(c, r, more))
  {
    hide Sum;
    SumGrows(c.spill, r, Get(c.spill, r), more);
  }

  // ---- The same decision, computed by iteration ----

  lemma SinceDrop(m: map<int, Bucket>, t: int, at: int)
    requires t in m
    ensures Sum(CountsSince(m, at)) == Sum(CountsSince(m - {t}, at)) + (if t > at then m[t].payments else 0)
    ensures Sum(MsatsSince(m, at)) == Sum(MsatsSince(m - {t}, at)) + (if t > at then m[t].msat else 0)
  {
    if t > at {
      assert CountsSince(m - {t}, at) == CountsSince(m, at) - {t};
      assert MsatsSince(m - {t}, at) == MsatsSince(m, at) - {t};
      SumDrop(CountsSince(m, at), t);
      SumDrop(MsatsSince(m, at), t);
    } else {
      assert CountsSince(m - {t}, at) == CountsSince(m, at);
      assert MsatsSince(m - {t}, at) == MsatsSince(m, at);
    }
  }

  /** Payments and amounts counted after `at`. */
  method Rolling(m: map<int, Bucket>, at: int) returns (payments: nat, msat: nat)
    ensures payments == Sum(CountsSince(m, at)) && msat == Sum(MsatsSince(m, at))
  {
    var rest := m;
    payments, msat := 0, 0;
    while rest != map[]
      invariant payments + Sum(CountsSince(rest, at)) == Sum(CountsSince(m, at))
      invariant msat + Sum(MsatsSince(rest, at)) == Sum(MsatsSince(m, at))
      decreases |rest|
    {
      var t :| t in rest;
      SinceDrop(rest, t, at);
      if t > at { payments, msat := payments + rest[t].payments, msat + rest[t].msat; }
      rest := rest - {t};
    }
    assert CountsSince(rest, at) == map[] && MsatsSince(rest, at) == map[];
  }

  lemma PositivesDrop(m: map<Recipient, nat>, r: Recipient)
    requires r in m
    ensures |Positives(m)| == |Positives(m - {r})| + (if m[r] > 0 then 1 else 0)
  {
    var rest := Positives(m - {r});
    assert Positives(m) == if m[r] > 0 then rest + {r} else rest;
  }

  method CountPositive(m: map<Recipient, nat>) returns (n: nat)
    ensures n == |Positives(m)|
  {
    var rest := m;
    n := 0;
    while rest != map[]
      invariant n + |Positives(rest)| == |Positives(m)|
      decreases |rest|
    {
      var r :| r in rest;
      PositivesDrop(rest, r);
      if rest[r] > 0 { n := n + 1; }
      rest := rest - {r};
    }
    assert Positives(rest) == {};
  }

  lemma UnresolvedDrop(p: Holds, id: ReservationId)
    requires id in p
    ensures Unresolved(p) == Unresolved(p - {id}) + |Positives(p[id])|
  {
    SumDrop(OpenCounts(p), id);
    assert OpenCounts(p - {id}) == OpenCounts(p) - {id};
  }

  method CountUnresolved(p: Holds) returns (n: nat)
    ensures n == Unresolved(p)
  {
    var rest := p;
    n := 0;
    while rest != map[]
      invariant n + Unresolved(rest) == Unresolved(p)
      decreases |rest|
    {
      var id :| id in rest;
      UnresolvedDrop(rest, id);
      var here := CountPositive(rest[id]);
      n := n + here;
      rest := rest - {id};
    }
    assert OpenCounts(rest) == map[];
  }

  /** `reserve_bounded` up to its decision: the first check that fails, or none. */
  method Refusing(b: Budget, charges: seq<Charge>, now: int) returns (why: Option<Refusal>)
    ensures why == WhyNot(b, charges, now)
  {
    hide Sum, OpenCounts, CountsSince, MsatsSince, PerRecipient, Payments, Amount, EnvelopesAllow, CapsAllow, Clamp,
         SatSub;
    var due, at := PerRecipient(charges), Clamp(b, now);
    var n, sum := Payments(charges), Amount(charges);
    if !EnvelopesAllow(b, due, now) { return Some(OutsideEnvelope); }
    if sum > U64_MAX { return Some(VelocityLimit); }
    if !LimitsValid(b.limits) { return Some(LedgerInvalid); }
    if b.breaker.paused { return Some(GrantPaused); }
    var open := CountUnresolved(b.pending);
    if n > SatSub(b.limits.failures, b.breaker.failures + open) { return Some(FailuresPending); }
    var minute, m0 := Rolling(b.breaker.buckets, at - 60);
    if n > SatSub(b.limits.perMinute, minute) { return Some(RateLimitMinute); }
    var hour, m1 := Rolling(b.breaker.buckets, at - 3600);
    if n > SatSub(b.limits.perHour, hour) { return Some(RateLimitHour); }
    var p2, velocity := Rolling(b.breaker.buckets, at - 600);
    if sum > SatSub(b.limits.per10Minutes, velocity) { return Some(VelocityLimit); }
    if b.allowlist.Some? && exists c :: c in charges && c.recipient !in b.allowlist.value {
      return Some(PayeeNotAllowed);
    }
    if sum > b.perCall { return Some(PerCall); }
    if sum > SatSub(b.total, b.used) { return Some(OverTotal); }
    if !CapsAllow(b, due) { return Some(OverRecipient); }
    why := None;
  }

  method TryAdmit(b: Budget, id: ReservationId, charges: seq<Charge>, ids: set<string>, payment: bool, now: int)
    returns (a: Admission)
    ensures a == Admit(b, id, charges, ids, payment, now)
  {
    hide WhyNot;
    if !(ids !! b.paymentIds) { return Denied(DuplicatePayment, None); }
    if |b.paymentIds| + |ids| > MAX_PAYMENT_IDS || |b.pending| >= MAX_UNRESOLVED { return Denied(LedgerFull, None); }
    var why := Some(PerCall);
    if payment || Amount(charges) <= Min(b.perCall, MESSAGING_PER_CALL_MAX) { why := Refusing(b, charges, now); }
    if why.Some? { return Denied(why.value, NoteRefusal(b, why.value, now)); }
    a := Admitted(Held(b, id, charges, ids, now));
  }
}
