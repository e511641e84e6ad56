/**
 What the circuit breakers guarantee over a grant's life: the buckets the node keeps account for
 every payment admitted since the last reset that a limit can still see, so no rolling minute,
 hour or ten minutes ever holds more than the owner allowed.
 */
module SpendRates {
  import opened Common
  import opened SpendBudget

  type Stamps = map<ReservationId, Stamp>

  function Weight(s: Stamp, msat: bool): nat { if msat then s.msat else s.payments }

  ghost function WeightsAfter(s: Stamps, from: int, msat: bool): map<ReservationId, nat> {
    map r | r in s && s[r].at > from :: Weight(s[r], msat)
  }

  ghost function WeightsIn(s: Stamps, from: int, to: int, msat: bool): map<ReservationId, nat> {
    map r | r in s && from < s[r].at <= to :: Weight(s[r], msat)
  }

  /** What was admitted after `from`, in payments or in millisatoshis. */
  ghost function After(s: Stamps, from: int, msat: bool): nat { Sum(WeightsAfter(s, from, msat)) }

  /** What was admitted in the interval that ends at `to`. */
  ghost function Within(s: Stamps, from: int, to: int, msat: bool): nat { Sum(WeightsIn(s, from, to, msat)) }

  /** What the breaker's buckets count after `from`. */
  ghost function Seen(k: Breaker, from: int, msat: bool): nat {
    if msat then MsatSince(k, from) else PaymentsSince(k, from)
  }

  /** No stamp is later than the breaker's own clock. */
  predicate Dated(k: Breaker, s: Stamps) { forall r :: r in s ==> k.lastAt.Some? && s[r].at <= k.lastAt.value }

  ghost predicate CoveredFrom(k: Breaker, s: Stamps, from: int) {
    After(s, from, false) <= Seen(k, from, false) && After(s, from, true) <= Seen(k, from, true)
  }

  /** The buckets account for every stamp of the last hour. */
  ghost predicate Covered(k: Breaker, s: Stamps) {
    k.lastAt.Some? ==> forall from :: k.lastAt.value - 3600 <= from ==> CoveredFrom(k, s, from)
  }

  ghost predicate RationedAt(l: Limits, s: Stamps, t: int) {
    && Within(s, t - 60, t, false) <= l.perMinute
    && Within(s, t - 3600, t, false) <= l.perHour
    && Within(s, t - 600, t, true) <= l.per10Minutes
  }

  /** No minute, hour or ten minutes holds more than allowed, wherever it ends. */
  ghost predicate Rationed(l: Limits, s: Stamps) { forall t :: RationedAt(l, s, t) }

  ghost predicate Rated(l: Limits, k: Breaker, s: Stamps) { Dated(k, s) && Covered(k, s) && Rationed(l, s) }

  // ---- Sums of stamps ----

  lemma AfterPut(s: Stamps, r: ReservationId, x: Stamp, from: int, msat: bool)
    requires r !in s
    ensures After(s[r := x], from, msat) == After(s, from, msat) + (if x.at > from then Weight(x, msat) else 0)
  {
    var t := s[r := x];
    if x.at > from {
      assert WeightsAfter(t, from, msat) == WeightsAfter(s, from, msat)[r := Weight(x, msat)];
      SumPut(WeightsAfter(s, from, msat), r, Weight(x, msat));
    } else {
      assert WeightsAfter(t, from, msat) == WeightsAfter(s, from, msat);
    }
  }

  /** An interval that ends before a stamp does not see it. */
  lemma WithinPut(s: Stamps, r: ReservationId, x: Stamp, from: int, to: int, msat: bool)
    requires r !in s && to < x.at
    ensures Within(s[r := x], from, to, msat) == Within(s, from, to, msat)
  {
    assert WeightsIn(s[r := x], from, to, msat) == WeightsIn(s, from, to, msat);
  }

  /** A later start, or an end, can only leave stamps out. */
  lemma WithinAfter(s: Stamps, from: int, later: int, to: int, msat: bool)
    requires from <= later
    ensures Within(s, later, to, msat) <= After(s, from, msat)
  {
    SumSubmap(WeightsIn(s, later, to, msat), WeightsAfter(s, from, msat));
  }

  /** Fewer stamps weigh less. */
  lemma WithinSubset(s: Stamps, t: Stamps, from: int, to: int, msat: bool)
    requires s.Keys <= t.Keys && forall r :: r in s ==> s[r] == t[r]
    ensures Within(s, from, to, msat) <= Within(t, from, to, msat)
  {
    SumSubmap(WeightsIn(s, from, to, msat), WeightsIn(t, from, to, msat));
  }

  lemma RationedSubset(l: Limits, s: Stamps, t: Stamps)
    requires Rationed(l, t) && s.Keys <= t.Keys && forall r :: r in s ==> s[r] == t[r]
    ensures Rationed(l, s)
  {
    hide Within;
    forall u ensures RationedAt(l, s, u) {
      assert RationedAt(l, t, u);
      WithinSubset(s, t, u - 60, u, false);
      WithinSubset(s, t, u - 3600, u, false);
      WithinSubset(s, t, u - 600, u, true);
    }
  }

  /** Stamps up to now weigh nothing after now. */
  lemma NothingAfter(k: Breaker, s: Stamps, from: int, msat: bool)
    requires Dated(k, s) && (k.lastAt.Some? ==> k.lastAt.value <= from)
    ensures After(s, from, msat) == 0
  {
    assert WeightsAfter(s, from, msat) == map[];
  }

  lemma NoStamps(k: Breaker, s: Stamps, from: int, msat: bool)
    requires Dated(k, s) && k.lastAt.None?
    ensures s == map[] && After(s, from, msat) == 0
  {
    assert WeightsAfter(s, from, msat) == map[];
  }

  // ---- Counting ----

  lemma SeenCounted(k: Breaker, at: int, n: nat, sum: nat, from: int, msat: bool)
    requires at - 3600 <= from < at
    ensures Seen(Counted(k, at, n, sum), from, msat) == Seen(k, from, msat) + (if msat then sum else n)
  {
    CountedSince(k, at, n, sum, from);
  }

  /** The buckets still cover every stamp after counting something now, stamped or not. */
  lemma CountedCovers(k: Breaker, s: Stamps, at: int, n: nat, sum: nat)
    requires Dated(k, s) && Covered(k, s) && (k.lastAt.Some? ==> k.lastAt.value <= at)
    ensures Dated(Counted(k, at, n, sum), s) && Covered(Counted(k, at, n, sum), s)
  {
    hide After, Seen;
    var c := Counted(k, at, n, sum);
    forall from | at - 3600 <= from ensures CoveredFrom(c, s, from) { CountedCoversFrom(k, s, at, n, sum, from); }
  }

  lemma CoveredAt(k: Breaker, s: Stamps, from: int, at: int, msat: bool)
    requires Dated(k, s) && Covered(k, s) && (k.lastAt.Some? ==> k.lastAt.value <= at) && at - 3600 <= from
    ensures After(s, from, msat) <= Seen(k, from, msat)
  {
    if k.lastAt.Some? { assert CoveredFrom(k, s, from); } else { NoStamps(k, s, from, msat); }
  }

  lemma CountedCoversFrom(k: Breaker, s: Stamps, at: int, n: nat, sum: nat, from: int)
    requires Dated(k, s) && Covered(k, s) && (k.lastAt.Some? ==> k.lastAt.value <= at) && at - 3600 <= from
    ensures CoveredFrom(Counted(k, at, n, sum), s, from)
  {
    hide After, Seen, Counted, Covered;
    if from >= at {
      NothingAfter(k, s, from, false);
      NothingAfter(k, s, from, true);
    } else {
      CoveredAt(k, s, from, at, false);
      CoveredAt(k, s, from, at, true);
      SeenCounted(k, at, n, sum, from, false);
      SeenCounted(k, at, n, sum, from, true);
    }
  }

  // ---- One admission ----

  lemma StampCoversFrom(k: Breaker, s: Stamps, r: ReservationId, x: Stamp, from: int)
    requires Dated(k, s) && Covered(k, s) && (k.lastAt.Some? ==> k.lastAt.value <= x.at) && x.at - 3600 <= from
             && r !in s
    ensures CoveredFrom(Counted(k, x.at, x.payments, x.msat), s[r := x], from)
  {
    hide After, Seen, Counted, Covered;
    AfterPut(s, r, x, from, false);
    AfterPut(s, r, x, from, true);
    if from >= x.at {
      NothingAfter(k, s, from, false);
      NothingAfter(k, s, from, true);
    } else {
      CoveredAt(k, s, from, x.at, false);
      CoveredAt(k, s, from, x.at, true);
      SeenCounted(k, x.at, x.payments, x.msat, from, false);
      SeenCounted(k, x.at, x.payments, x.msat, from, true);
    }
  }

  /** What the checks leave room for, measured on the buckets. */
  ghost predicate Fits(l: Limits, k: Breaker, x: Stamp) {
    && Seen(k, x.at - 60, false) + x.payments <= l.perMinute
    && Seen(k, x.at - 3600, false) + x.payments <= l.perHour
    && Seen(k, x.at - 600, true) + x.msat <= l.per10Minutes
  }

  lemma StampWithin(k: Breaker, s: Stamps, r: ReservationId, x: Stamp, t: int, span: nat, msat: bool)
    requires Dated(k, s) && Covered(k, s) && (k.lastAt.Some? ==> k.lastAt.value <= x.at)
    requires r !in s && x.at <= t && span <= 3600
    ensures Within(s[r := x], t - span, t, msat) <= Seen(k, x.at - span, msat) + Weight(x, msat)
  {
    hide After, Seen, Within, Covered;
    WithinAfter(s[r := x], x.at - span, t - span, t, msat);
    AfterPut(s, r, x, x.at - span, msat);
    CoveredAt(k, s, x.at - span, x.at, msat);
  }

  lemma StampRationed(l: Limits, k: Breaker, s: Stamps, r: ReservationId, x: Stamp, t: int)
    requires Rated(l, k, s) && Fits(l, k, x) && (k.lastAt.Some? ==> k.lastAt.value <= x.at) && r !in s
    ensures RationedAt(l, s[r := x], t)
  {
    hide Within, Seen, Covered;
    if t < x.at {
      assert RationedAt(l, s, t);
      WithinPut(s, r, x, t - 60, t, false);
      WithinPut(s, r, x, t - 3600, t, false);
      WithinPut(s, r, x, t - 600, t, true);
    } else {
      StampWithin(k, s, r, x, t, 60, false);
      StampWithin(k, s, r, x, t, 3600, false);
      StampWithin(k, s, r, x, t, 600, true);
    }
  }

  lemma StampKeepsRated(l: Limits, k: Breaker, s: Stamps, r: ReservationId, x: Stamp)
    requires Rated(l, k, s) && Fits(l, k, x) && (k.lastAt.Some? ==> k.lastAt.value <= x.at) && r !in s
    ensures Rated(l, Counted(k, x.at, x.payments, x.msat), s[r := x])
  {
    hide Fits, RationedAt, CoveredFrom;
    var t, c := s[r := x], Counted(k, x.at, x.payments, x.msat);
    forall u ensures RationedAt(l, t, u) { StampRationed(l, k, s, r, x, u); }
    forall from | x.at - 3600 <= from ensures CoveredFrom(c, t, from) { StampCoversFrom(k, s, r, x, from); }
  }

  /** The checks of `reserve_bounded` leave room for what is then counted. */
  lemma AdmittedFits(b: Budget, charges: seq<Charge>, now: int)
    requires WhyNot(b, charges, now).None? && Payments(charges) > 0
    ensures Fits(b.limits, b.breaker, Stamp(Clamp(b, now), Payments(charges), Amount(charges)))
  {
    hide PaymentsSince, MsatSince, PerRecipient, Unresolved, EnvelopesAllow, CapsAllow;
    NoPaymentNoAmount(charges);
  }

  // ---- Every change of a budget ----

  /** Admitting a call keeps the rates. */
  lemma HeldKeepsRated(b: Budget, id: ReservationId, charges: seq<Charge>, ids: set<string>, now: int)
    requires Rated(b.limits, b.breaker, b.stamps) && WhyNot(b, charges, now).None? && id !in b.stamps
    ensures var c := Held(b, id, charges, ids, now); Rated(c.limits, c.breaker, c.stamps)
  {
    hide WhyNot, Rated, Counted;
    if Payments(charges) > 0 {
      AdmittedFits(b, charges, now);
      StampKeepsRated(b.limits, b.breaker, b.stamps, id, Stamp(Clamp(b, now), Payments(charges), Amount(charges)));
    }
  }

  /** So does recording an outcome, even one that counts more than was reserved. */
  lemma OutcomeKeepsRated(b: Budget, reserved: nat, actual: nat, now: int)
    requires Rated(b.limits, b.breaker, b.stamps)
    ensures Rated(b.limits, Recorded(b, reserved, actual, now), b.stamps)
  {
    var k := Recorded(b, reserved, actual, now);
    var quiet := b.breaker.(failures := k.failures, paused := k.paused);
    SameBuckets(b.breaker, quiet, b.stamps);
    if actual > reserved {
      CountedCovers(quiet, b.stamps, Clamp(b, now), if reserved == 0 then 1 else 0, actual - reserved);
    }
  }

  /** Only the buckets and their clock matter. */
  lemma SameBuckets(k: Breaker, c: Breaker, s: Stamps)
    requires Dated(k, s) && Covered(k, s) && c.buckets == k.buckets && c.lastAt == k.lastAt
    ensures Dated(c, s) && Covered(c, s)
  {
    hide After;
    if k.lastAt.Some? {
      forall from | k.lastAt.value - 3600 <= from ensures CoveredFrom(c, s, from) { assert CoveredFrom(k, s, from); }
    }
  }

  lemma NewKeepsRated(l: Limits)
    ensures Rated(l, IDLE, map[])
  {
    forall t ensures RationedAt(l, map[], t) {
      assert WeightsIn(map[], t - 60, t, false) == map[] && WeightsIn(map[], t - 3600, t, false) == map[];
      assert WeightsIn(map[], t - 600, t, true) == map[];
    }
  }
}
