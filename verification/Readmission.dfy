/**
 Paying to be admitted again by a contact: the recipient's signed quote raises the message's own
 reservation and reserves the admission beside it, under one grant and with one write
 (`reserve_quoted_readmission`).
 */
module Readmission {
  import opened Common
  import opened SpendBudget

  /**
   `parent` is the message's reservation and `reserved` what its call reserved so far; `raisedAt` and
   `now` are the two clock readings; `rid` is the id drawn for the admission.
   */
  datatype Quote = Quote(parent: ReservationId, recipient: Recipient, message: nat, admission: nat, reserved: nat,
                         rid: ReservationId, raisedAt: int, now: int)

  function Parent(q: Quote): Share { Share(q.parent, q.recipient) }

  /** What the message's own share is short of the quote. */
  function TopUp(b: Budget, q: Quote): nat
    requires Outstanding(b, Parent(q))
  {
    SatSub(q.message, b.pending[q.parent][q.recipient])
  }

  function Raise(p: Holds, k: Share, more: nat): Holds
    requires Holding(p, k)
  {
    var due: map<Recipient, nat> := p[k.id][k.recipient := p[k.id][k.recipient] + more];
    p[k.id := due]
  }

  /** The budget with the message's share raised to the quote, charged and counted like any payment. */
  function Raised(b: Budget, q: Quote): Budget
    requires Outstanding(b, Parent(q))
  {
    var n := TopUp(b, q);
    if n == 0 then b else
      Tallied(b, [Charge(q.recipient, n)], q.raisedAt).(pending := Raise(b.pending, Parent(q), n))
  }

  /** `file` is written; `mem` is the memory left by a write reported as done. A failed one leaves it as it was. */
  datatype Attempt = Refused | Written(file: Budget, mem: Budget, accepted: bool)

  /** The quote fits the call and, where the owner confirmed this contact once, what they confirmed. */
  predicate QuoteFits(b: Budget, q: Quote, confirmed: Option<nat>)
    requires Outstanding(b, Parent(q))
  {
    && q.reserved + TopUp(b, q) + q.admission <= Min(b.perCall, MESSAGING_PER_CALL_MAX)
    && (confirmed.Some? ==> TopUp(b, q) + q.admission <= confirmed.value)
  }

  ghost predicate RaiseAllowed(b: Budget, q: Quote)
    requires Outstanding(b, Parent(q))
  {
    TopUp(b, q) > 0 ==> WhyNot(b, [Charge(q.recipient, TopUp(b, q))], q.raisedAt).None?
  }

  ghost function Admission(b: Budget, q: Quote): SpendBudget.Admission
    requires Outstanding(b, Parent(q))
  {
    Admit(Raised(b, q), q.rid, [Charge(q.recipient, q.admission)], {}, false, q.now)
  }

  /** `permitted`: the grant may still be charged; `alive`: it did not die while the file was written. */
  ghost function Attempted(b: Budget, q: Quote, confirmed: Option<nat>, permitted: bool, alive: bool): Attempt {
    if !Outstanding(b, Parent(q)) || !QuoteFits(b, q, confirmed) || !RaiseAllowed(b, q) || !permitted then Refused else
      match Admission(b, q)
      case Admitted(c) => Written(c, if alive then c else b, alive)
      case Denied(_, Some(noted)) => Written(noted, b, false)
      case Denied(_, None) => Refused
  }

  /** What the write did to the file: nothing, or the rename took place, and whether it was reported as done. */
  datatype Write = Lost | Torn | Kept

  /** Memory, disk and whether the caller may pay. */
  function Left(b: Budget, disk: Budget, a: Attempt, w: Write): (Budget, Budget, bool) {
    if a.Refused? then (b, disk, false)
    else (if w.Kept? then a.mem else b, if w.Lost? then disk else a.file, w.Kept? && a.accepted)
  }

  // ---- Every outcome balances ----

  lemma RaiseRow(p: Holds, k: Share, more: nat)
    requires Holding(p, k)
    ensures k.id in Totals(p) && Totals(p)[k.id] == Sum(p[k.id])
    ensures Totals(Raise(p, k, more)) == Totals(p)[k.id := Sum(Raise(p, k, more)[k.id])]
  {
    hide Sum;
  }

  lemma RaiseColumn(p: Holds, k: Share, more: nat, r: Recipient)
    requires Holding(p, k)
    ensures r == k.recipient ==> k.id in Column(p, r) && Column(p, r)[k.id] == p[k.id][r]
    ensures Column(Raise(p, k, more), r)
         == if r == k.recipient then Column(p, r)[k.id := p[k.id][r] + more] else Column(p, r)
  {
  }

  lemma RaiseSum(p: Holds, k: Share, more: nat)
    requires Holding(p, k)
    ensures k.id in Raise(p, k, more) && Sum(Raise(p, k, more)[k.id]) == Sum(p[k.id]) + more
  {
    hide Sum;
    SumGrows(p[k.id], k.recipient, p[k.id][k.recipient], more);
  }

  lemma RaiseTotal(p: Holds, k: Share, more: nat)
    requires Holding(p, k)
    ensures PendingTotal(Raise(p, k, more)) == PendingTotal(p) + more
  {
    hide Sum, Raise, Totals;
    RaiseSum(p, k, more);
    RaiseRow(p, k, more);
    SumGrows(Totals(p), k.id, Sum(p[k.id]), more);
  }

  lemma RaiseFor(p: Holds, k: Share, more: nat, r: Recipient)
    requires Holding(p, k)
    ensures PendingFor(Raise(p, k, more), r) == PendingFor(p, r) + if r == k.recipient then more else 0
  {
    hide Sum, Raise, Column;
    RaiseColumn(p, k, more, r);
    if r == k.recipient { SumGrows(Column(p, r), k.id, p[k.id][r], more); }
  }

  lemma RaiseHoldings(p: Holds, k: Share, more: nat, j: Share)
    requires Holding(p, k)
    ensures Holding(Raise(p, k, more), j) == Holding(p, j)
  {
  }

  lemma BalancedRaise(used: nat, usedBy: map<Recipient, nat>, p: Holds, s: map<Share, nat>, k: Share, more: nat)
    requires Balanced(used, usedBy, p, s) && Holding(p, k)
    ensures Balanced(used + more, Charged(usedBy, map[k.recipient := more]), Raise(p, k, more), s)
  {
    hide PendingTotal, PendingFor, SettledFor, Sum, Raise;
    RaiseTotal(p, k, more);
    forall r ensures BalancedFor(Charged(usedBy, map[k.recipient := more]), Raise(p, k, more), s, r) {
      assert BalancedFor(usedBy, p, s, r);
      RaiseFor(p, k, more, r);
    }
    forall j | j in s ensures !Holding(Raise(p, k, more), j) { RaiseHoldings(p, k, more, j); }
  }

  lemma OneCharge(r: Recipient, n: nat)
    ensures Amount([Charge(r, n)]) == n && PerRecipient([Charge(r, n)]) == map[r := n]
  {
    assert [Charge(r, n)][1..] == [];
  }

  lemma RaisedShape(b: Budget, q: Quote)
    requires Outstanding(b, Parent(q))
    ensures var c, n := Raised(b, q), TopUp(b, q);
            && c.used == b.used + n && c.settled == b.settled && c.paymentIds == b.paymentIds
            && c.pending == Raise(b.pending, Parent(q), n)
            && (n > 0 ==> c.usedBy == Charged(b.usedBy, map[q.recipient := n])) && (n == 0 ==> c == b)
  {
    OneCharge(q.recipient, TopUp(b, q));
    hide Counted, Charged, Amount, PerRecipient, Payments;
    if TopUp(b, q) == 0 {
      var due := b.pending[q.parent];
      assert due[q.recipient := due[q.recipient] + 0] == due;
    }
  }

  lemma RaisedConserves(b: Budget, q: Quote)
    requires Outstanding(b, Parent(q)) && Conserved(b)
    ensures Conserved(Raised(b, q))
  {
    hide Raised, Balanced;
    RaisedShape(b, q);
    if TopUp(b, q) > 0 { BalancedRaise(b.used, b.usedBy, b.pending, b.settled, Parent(q), TopUp(b, q)); }
  }

  /** The id of the admission stands for nothing yet. */
  predicate NewId(b: Budget, id: ReservationId) { id !in b.pending && forall k :: k in b.settled ==> k.id != id }

  lemma NewIdRaised(b: Budget, q: Quote)
    requires Outstanding(b, Parent(q)) && NewId(b, q.rid)
    ensures NewId(Raised(b, q), q.rid)
  {
    hide Raised;
    RaisedShape(b, q);
  }

  lemma AdmissionConserves(b: Budget, q: Quote)
    requires Outstanding(b, Parent(q)) && Conserved(b) && NewId(b, q.rid)
    ensures match Admission(b, q)
            case Admitted(c) => Conserved(c)
            case Denied(_, noted) => noted.Some? ==> Conserved(noted.value)
  {
    hide Raised, Admit, Held, Balanced, WhyNot, OnlyNoted;
    RaisedConserves(b, q);
    NewIdRaised(b, q);
    AdmitShape(Raised(b, q), q.rid, [Charge(q.recipient, q.admission)], {}, false, q.now);
    match Admission(b, q)
    case Admitted(_) => HeldConserves(Raised(b, q), q.rid, [Charge(q.recipient, q.admission)], {}, q.now);
    case Denied(_, noted) => if noted.Some? { NotedConserves(Raised(b, q), noted.value); }
  }

  lemma NotedConserves(b: Budget, c: Budget)
    requires Conserved(b) && OnlyNoted(b, c)
    ensures Conserved(c)
  {
    hide Balanced;
  }

  /** Whatever the write does, both files balance: nothing quoted is ever counted without being owed. */
  lemma ReadmissionConserves(
    b: Budget, disk: Budget, q: Quote, confirmed: Option<nat>, permitted: bool, alive: bool, w: Write)
    requires Conserved(b) && Conserved(disk) && NewId(b, q.rid)
    ensures var (m, d, _) := Left(b, disk, Attempted(b, q, confirmed, permitted, alive), w);
            Conserved(m) && Conserved(d)
  {
    hide Admission, Conserved, QuoteFits, RaiseAllowed;
    if Outstanding(b, Parent(q)) { AdmissionConserves(b, q); }
  }

  // ---- All or nothing ----

  /** Both parts of the quote are reserved: the message's share at the quote, and the admission beside it. */
  ghost predicate Whole(b: Budget, q: Quote, c: Budget)
    requires Outstanding(b, Parent(q))
  {
    && c.used == b.used + TopUp(b, q) + q.admission
    && c.pending == Raise(b.pending, Parent(q), TopUp(b, q))[q.rid := map[q.recipient := q.admission]]
  }

  /** Only the message's share was raised. */
  ghost predicate Half(b: Budget, q: Quote, c: Budget)
    requires Outstanding(b, Parent(q))
  {
    && TopUp(b, q) > 0 && c.used == b.used + TopUp(b, q)
    && c.pending == Raise(b.pending, Parent(q), TopUp(b, q))
  }

  lemma AdmissionShape(b: Budget, q: Quote)
    requires Outstanding(b, Parent(q)) && NewId(b, q.rid)
    ensures match Admission(b, q)
            case Admitted(c) => Whole(b, q, c) && !Half(b, q, c)
            case Denied(_, noted) => noted.Some? ==> OnlyNoted(Raised(b, q), noted.value)
  {
    hide Raised, Admit, WhyNot, OnlyNoted, Held, Raise;
    var ch := [Charge(q.recipient, q.admission)];
    OneCharge(q.recipient, q.admission);
    RaisedShape(b, q);
    NewIdRaised(b, q);
    AdmitShape(Raised(b, q), q.rid, ch, {}, false, q.now);
    HeldShape(Raised(b, q), q.rid, ch, {}, q.now);
    HeldUsed(Raised(b, q), q.rid, ch, {}, q.now);
  }

  lemma HeldUsed(b: Budget, id: ReservationId, charges: seq<Charge>, ids: set<string>, now: int)
    ensures Held(b, id, charges, ids, now).used == b.used + Amount(charges)
  {
    HeldTally(b, id, charges, ids, now);
    hide Held, Counted, Charged;
  }

  /** In memory it is all or nothing, and the caller may pay exactly when it is all, on disk too. */
  lemma MemoryIsAllOrNothing(
    b: Budget, disk: Budget, q: Quote, confirmed: Option<nat>, permitted: bool, alive: bool, w: Write)
    requires NewId(b, q.rid)
    ensures var (m, d, paid) := Left(b, disk, Attempted(b, q, confirmed, permitted, alive), w);
            && (!paid ==> m == b)
            && (paid ==> m == d && Outstanding(b, Parent(q)) && Whole(b, q, m) && QuoteFits(b, q, confirmed))
  {
    hide Admission, Whole, QuoteFits, RaiseAllowed, Raised;
    if Outstanding(b, Parent(q)) { AdmissionShape(b, q); }
  }

  lemma RaisedTerms(b: Budget, q: Quote)
    requires Outstanding(b, Parent(q))
    ensures var c := Raised(b, q); c.perCall == b.perCall && |c.pending| == |b.pending|
  {
    RaisedShape(b, q);
    assert Raise(b.pending, Parent(q), TopUp(b, q)).Keys == b.pending.Keys;
    hide Charged, Counted, PerRecipient;
  }

  /**
   The caller may pay exactly when the message is still owed, both parts together fit the call and what the
   owner confirmed, the grant allows the raise and then the admission, and the write was kept in time.
   */
  lemma PaysIff(
    b: Budget, disk: Budget, q: Quote, confirmed: Option<nat>, permitted: bool, alive: bool, w: Write)
    ensures Left(b, disk, Attempted(b, q, confirmed, permitted, alive), w).2 <==>
              && permitted && alive && w == Kept && Outstanding(b, Parent(q))
              && var more := SatSub(q.message, b.pending[q.parent][q.recipient]);
                 && q.reserved + more + q.admission <= b.perCall && q.reserved + more + q.admission <= 6_000
                 && (confirmed.Some? ==> more + q.admission <= confirmed.value)
                 && (more > 0 ==> Allowed(b, [Charge(q.recipient, more)], q.raisedAt))
                 && |b.paymentIds| <= 4096 && |b.pending| < 1024
                 && Allowed(Raised(b, q), [Charge(q.recipient, q.admission)], q.now)
  {
    hide Admission, Raised, WhyNot, Allowed;
    if Outstanding(b, Parent(q)) {
      AllowedIff(b, [Charge(q.recipient, TopUp(b, q))], q.raisedAt);
      AdmissionIff(b, q);
    }
  }

  lemma AdmissionIff(b: Budget, q: Quote)
    requires Outstanding(b, Parent(q))
    ensures Admission(b, q).Admitted? <==>
              && |b.paymentIds| <= 4096 && |b.pending| < 1024 && q.admission <= 6_000
              && Allowed(Raised(b, q), [Charge(q.recipient, q.admission)], q.now)
  {
    RaisedTerms(b, q);
    RaisedShape(b, q);
    hide Raised, Raise, Admit, Allowed, Amount;
    OneCharge(q.recipient, q.admission);
    AdmittedIff(Raised(b, q), q.rid, [Charge(q.recipient, q.admission)], {}, false, q.now);
  }

  /**
   The raise is allowed, and then the admission meets a rolling limit whose refusal is not on record
   yet: writing that record down writes the raise with it.
   */
  ghost predicate TripsOnSecond(b: Budget, q: Quote, confirmed: Option<nat>)
    requires Outstanding(b, Parent(q))
  {
    && QuoteFits(b, q, confirmed) && TopUp(b, q) > 0 && RaiseAllowed(b, q)
    && |b.paymentIds| <= MAX_PAYMENT_IDS && |b.pending| < MAX_UNRESOLVED
    && var why := WhyNot(Raised(b, q), [Charge(q.recipient, q.admission)], q.now);
       why.Some? && NoteRefusal(Raised(b, q), why.value, q.now).Some?
  }

  /** A refused admission leaves a note to write exactly when it trips a rolling limit for the first time. */
  lemma NotedIff(b: Budget, q: Quote, confirmed: Option<nat>)
    requires Outstanding(b, Parent(q)) && QuoteFits(b, q, confirmed) && RaiseAllowed(b, q) && TopUp(b, q) > 0
    ensures var a := Admission(b, q); a.Denied? && a.noted.Some? <==> TripsOnSecond(b, q, confirmed)
  {
    RaisedTerms(b, q);
    RaisedShape(b, q);
    OneCharge(q.recipient, q.admission);
    hide Raised, WhyNot, Held, Raise;
  }

  lemma NotedIsHalf(b: Budget, q: Quote, c: Budget)
    requires Outstanding(b, Parent(q)) && OnlyNoted(Raised(b, q), c) && TopUp(b, q) > 0
    ensures Half(b, q, c)
  {
    RaisedShape(b, q);
    hide Raised, Raise;
  }

  lemma WrittenHalfIff(b: Budget, q: Quote, confirmed: Option<nat>)
    requires Outstanding(b, Parent(q)) && NewId(b, q.rid) && QuoteFits(b, q, confirmed) && RaiseAllowed(b, q)
    ensures match Admission(b, q)
            case Admitted(c) => !Half(b, q, c) && !TripsOnSecond(b, q, confirmed)
            case Denied(_, Some(noted)) => Half(b, q, noted) <==> TripsOnSecond(b, q, confirmed)
            case Denied(_, None) => !TripsOnSecond(b, q, confirmed)
  {
    hide Admission, Whole, Raised, WhyNot, OnlyNoted, NoteRefusal, QuoteFits, RaiseAllowed, Raise;
    AdmissionShape(b, q);
    if TopUp(b, q) > 0 {
      NotedIff(b, q, confirmed);
      var a := Admission(b, q);
      if a.Denied? && a.noted.Some? { NotedIsHalf(b, q, a.noted.value); }
    }
  }

  /**
   A crash is meant never to keep half of a quote. Disk comes to hold half of it, for the next restart
   to load, exactly when a write lands for a quote whose admission trips a rolling limit after its raise.
   */
  lemma HalfReachesDiskIff(
    b: Budget, disk: Budget, q: Quote, confirmed: Option<nat>, permitted: bool, alive: bool, w: Write)
    requires Outstanding(b, Parent(q)) && NewId(b, q.rid) && !Half(b, q, disk)
    ensures var d := Left(b, disk, Attempted(b, q, confirmed, permitted, alive), w).1;
            Half(b, q, d) <==> !w.Lost? && permitted && TripsOnSecond(b, q, confirmed)
  {
    hide Admission, Half, TripsOnSecond, QuoteFits, RaiseAllowed;
    if QuoteFits(b, q, confirmed) && RaiseAllowed(b, q) {
      WrittenHalfIff(b, q, confirmed);
    } else if TripsOnSecond(b, q, confirmed) {
      TripsNeeds(b, q, confirmed);
    }
  }

  lemma TripsNeeds(b: Budget, q: Quote, confirmed: Option<nat>)
    requires Outstanding(b, Parent(q)) && TripsOnSecond(b, q, confirmed)
    ensures QuoteFits(b, q, confirmed) && RaiseAllowed(b, q)
  {
  }

  // ---- A quote half kept ----

  /** One payment a minute, and a message of 1000 already reserved. */
  function Narrow(): Budget {
    FromTerms(Terms(Limits(1, 10, 5, 1_000_000), None, false, 10_000, 6_000, map[], 3600))
    .(used := 1_000, usedBy := map["r" := 1_000], pending := map["m" := map["r" := 1_000]])
  }

  /** Asks 1000 more for the message, and 500 to be admitted again. */
  const DEAR := Quote("m", "r", 2_000, 500, 1_000, "a", 0, 0)

  lemma NothingCounted(at: int)
    ensures PaymentsSince(IDLE, at) == 0 && MsatSince(IDLE, at) == 0
  {
    assert CountsSince(map[], at) == map[] && MsatsSince(map[], at) == map[];
  }

  lemma OneUnresolved(n: nat)
    requires n > 0
    ensures Unresolved(map["m" := map["r" := n]]) == 1
  {
    var p: Holds := map["m" := map["r" := n]];
    assert Positives(p["m"]) == {"r"};
    var none: map<ReservationId, nat> := map[];
    assert OpenCounts(p) == none["m" := 1];
    SumPut(none, "m", 1);
  }

  lemma FirstIsAllowed()
    ensures RaiseAllowed(Narrow(), DEAR)
  {
    OneCharge("r", 1_000);
    OneUnresolved(1_000);
    NothingCounted(-60);
    NothingCounted(-3600);
    NothingCounted(-600);
    hide PaymentsSince, MsatSince, Unresolved, Amount, PerRecipient;
  }

  lemma NarrowRaised()
    ensures var c := Raised(Narrow(), DEAR);
            && c.breaker == Counted(IDLE, 0, 1, 1_000) && c.pending == map["m" := map["r" := 2_000]]
            && c.limits == Narrow().limits && !c.recipientsOnly
  {
    OneCharge("r", 1_000);
    hide Counted, Charged;
    var due: map<Recipient, nat> := map["r" := 1_000];
    assert due["r" := 2_000] == map["r" := 2_000];
  }

  lemma SecondTrips()
    ensures WhyNot(Raised(Narrow(), DEAR), [Charge("r", 500)], 0) == Some(RateLimitMinute)
  {
    hide PaymentsSince, MsatSince, Unresolved, PerRecipient, Raised;
    OneCharge("r", 500);
    OneUnresolved(2_000);
    NothingCounted(-60);
    CountedSince(IDLE, 0, 1, 1_000, -60);
    NarrowRaised();
  }

  lemma NarrowTrips()
    ensures Outstanding(Narrow(), Parent(DEAR)) && NewId(Narrow(), "a") && !Half(Narrow(), DEAR, Narrow())
    ensures TripsOnSecond(Narrow(), DEAR, None)
  {
    FirstIsAllowed();
    SecondTrips();
    NarrowRaised();
    hide WhyNot, Raised, RaiseAllowed, Raise;
  }

  /** The refused quote leaves memory as it was and disk with the message's share raised. */
  lemma CrashCanKeepHalf()
    ensures Outstanding(Narrow(), Parent(DEAR))
    ensures var b := Narrow();
            var (m, d, paid) := Left(b, b, Attempted(b, DEAR, None, true, true), Kept);
            !paid && m == b && Half(b, DEAR, d)
  {
    var b := Narrow();
    NarrowTrips();
    hide Narrow, TripsOnSecond, Attempted, Half, Whole, Left;
    HalfReachesDiskIff(b, b, DEAR, None, true, true, Kept);
    MemoryIsAllOrNothing(b, b, DEAR, None, true, true, Kept);
    if Left(b, b, Attempted(b, DEAR, None, true, true), Kept).2 {
      WholeIsNotHalf(b, DEAR, Left(b, b, Attempted(b, DEAR, None, true, true), Kept).1);
    }
  }

  lemma WholeIsNotHalf(b: Budget, q: Quote, c: Budget)
    requires Outstanding(b, Parent(q)) && NewId(b, q.rid) && Whole(b, q, c)
    ensures !Half(b, q, c)
  {
    RaisedShape(b, q);
    assert q.rid !in Raise(b.pending, Parent(q), TopUp(b, q));
  }
}
