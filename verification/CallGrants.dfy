/**
 The caller's side of a paid call: what a grant from the callee for one paid block may do to the
 stored call. Arithmetic saturates at 64 bits for times and 32 bits for sequence numbers.
 */
module CallGrants {
  import opened Common

  const BLOCK: nat := 60_000
  const GRACE: nat := 10_000
  const INITIAL: nat := 30_000
  const RESUME: nat := 60_000
  const TOMBSTONE: nat := 86_400_000
  const U32_MAX: nat := 0xFFFF_FFFF

  datatype Side = Caller | Callee

  datatype Phase = Ringing | Live | Ended

  datatype Reason = Unpaid | OtherReason

  /** `pending` is the paid call signal in flight, named by its operation. */
  datatype Entry = Entry(side: Side, phase: Phase, paidUntil: Option<nat>, nextSeq: nat, deadline: nat,
                         pending: Option<string>, ended: Option<Reason>, noticeUsed: bool)

  /** A grant for block `block` of the operation `op`, received at `now`. */
  datatype Receipt = Receipt(op: string, block: nat, paid: nat, now: nat)

  function NextOf(block: nat): nat { if block >= U32_MAX then U32_MAX else block + 1 }

  /** The end of the resume window before the block, rebuilt if this side has already advanced. */
  function PreBlockEnd(e: Entry, block: nat): nat {
    var deadline := if e.phase.Ended? then SatSub(e.deadline, TOMBSTONE) else e.deadline;
    if e.nextSeq == block then deadline else
      var until := match e.paidUntil case Some(u) => u case None => SatSub(deadline, GRACE);
      SatAdd(SatSub(until, BLOCK), if block == 0 then INITIAL else GRACE)
  }

  function Maximum(e: Entry, r: Receipt): nat {
    Min(SatAdd(SatAdd(PreBlockEnd(e, r.block), RESUME), BLOCK), SatAdd(r.now, 2 * BLOCK))
  }

  predicate Revivable(e: Entry) { e.phase.Live? || (e.phase.Ended? && e.ended == Some(Unpaid)) }

  predicate Accepts(e: Entry, r: Receipt) {
    && e.side.Caller? && (e.nextSeq == r.block || e.nextSeq == NextOf(r.block)) && Revivable(e)
    && r.paid <= Maximum(e, r) && (e.paidUntil.Some? ==> e.paidUntil.value <= r.paid)
  }

  /** `receive_block_grant` once the receipt is known to answer our own stored block. */
  function Receive(e: Entry, r: Receipt): Entry {
    if !Accepts(e, r) then e else
      e.(phase := Live, paidUntil := Some(r.paid), nextSeq := NextOf(r.block), deadline := SatAdd(r.paid, GRACE),
         pending := if e.pending == Some(r.op) then None else e.pending, ended := None, noticeUsed := false)
  }

  function After(e: Entry, rs: seq<Receipt>): Entry
    decreases |rs|
  {
    if rs == [] then e else After(Receive(e, rs[0]), rs[1..])
  }

  predicate Typed(e: Entry) { e.nextSeq <= U32_MAX }

  predicate TypedReceipt(r: Receipt) { r.block <= U32_MAX && r.paid <= U64_MAX && r.now <= U64_MAX }

  // ---- Progress ----

  function Boundary(e: Entry): int { match e.paidUntil case Some(u) => u case None => -1 }

  /** `f` is no earlier than `e`: neither its boundary nor its sequence went back. */
  predicate NoEarlier(e: Entry, f: Entry) { Boundary(e) <= Boundary(f) && e.nextSeq <= f.nextSeq }

  predicate DeadlineFollows(e: Entry) {
    e.phase.Live? && e.paidUntil.Some? ==> e.deadline == SatAdd(e.paidUntil.value, GRACE)
  }

  lemma ReceiveAdvances(e: Entry, r: Receipt)
    requires Typed(e) && TypedReceipt(r)
    ensures var f := Receive(e, r);
            && Typed(f) && NoEarlier(e, f) && f.side == e.side
            && (f != e ==> && f.phase.Live? && Boundary(f) <= r.now + 120_000
                           && f.deadline == SatAdd(f.paidUntil.value, 10_000))
            && (DeadlineFollows(e) ==> DeadlineFollows(f))
            && (e.phase.Ended? && e.ended != Some(Unpaid) ==> f == e)
  {
  }

  predicate AllTyped(rs: seq<Receipt>) { forall r :: r in rs ==> TypedReceipt(r) }

  /** Over any receipts: boundary and sequence never decrease, and a live boundary keeps its deadline. */
  lemma {:induction false} ReceiptsAdvance(e: Entry, rs: seq<Receipt>)
    requires Typed(e) && AllTyped(rs)
    ensures var f := After(e, rs);
            Typed(f) && NoEarlier(e, f) && (DeadlineFollows(e) ==> DeadlineFollows(f))
    decreases |rs|
  {
    hide Receive;
    if rs != [] {
      assert rs[0] in rs && AllTyped(rs[1..]);
      ReceiveAdvances(e, rs[0]);
      ReceiptsAdvance(Receive(e, rs[0]), rs[1..]);
    }
  }

  /** A call ended for any reason but non-payment is never revived. */
  lemma {:induction false} EndedStaysEnded(e: Entry, rs: seq<Receipt>)
    requires e.phase.Ended? && e.ended != Some(Unpaid)
    ensures After(e, rs) == e
    decreases |rs|
  {
    if rs != [] { EndedStaysEnded(Receive(e, rs[0]), rs[1..]); }
  }

  // ---- What a receipt must be ----

  /** The call is ours, the receipt is for the block due or the one before, and the call stands or only lapsed. */
  predicate Due(e: Entry, r: Receipt) {
    && e.side == Caller && (e.phase == Live || (e.phase == Ended && e.ended == Some(Unpaid)))
    && (r.block == e.nextSeq || e.nextSeq == if r.block == U32_MAX then U32_MAX else r.block + 1)
  }

  /** A receipt is taken exactly if it is due, sets nothing back, and stays within both limits on how far it reaches. */
  lemma TakenIff(e: Entry, r: Receipt)
    requires TypedReceipt(r)
    ensures Accepts(e, r) <==>
              && Due(e, r) && (e.paidUntil.Some? ==> e.paidUntil.value <= r.paid)
              && r.paid <= SatAdd(r.now, 120_000) && r.paid <= SatAdd(PreBlockEnd(e, r.block), 120_000)
    ensures !Accepts(e, r) ==> Receive(e, r) == e
    ensures Accepts(e, r) ==>
              var f := Receive(e, r);
              && f.phase == Live && f.paidUntil == Some(r.paid) && f.ended == None && !f.noticeUsed && f.side == e.side
              && (r.block < U32_MAX ==> f.nextSeq == r.block + 1)
              && f.pending == if e.pending == Some(r.op) then None else e.pending
  {
  }

  /** This side counts the block itself: the boundary moves on by one block, and the deadline with it. */
  function Advanced(e: Entry): Entry
    requires e.nextSeq < U32_MAX
  {
    var from := match e.paidUntil case Some(u) => u case None => SatSub(e.deadline, INITIAL);
    e.(paidUntil := Some(from + BLOCK), nextSeq := e.nextSeq + 1, deadline := from + BLOCK + GRACE)
  }

  /**
   Whether this side had already counted the block or not, the receipt may reach equally far. Before
   the first block the deadline runs from the start of the call, after it from the paid boundary.
   */
  lemma ReachIsTheSameEitherWay(e: Entry, r: Receipt)
    requires e.phase.Live? && e.nextSeq == r.block < U32_MAX && e.deadline + BLOCK + GRACE <= U64_MAX
    requires if r.block == 0 then e.paidUntil.None? && e.deadline >= INITIAL
             else e.paidUntil.Some? && e.deadline == e.paidUntil.value + GRACE
    ensures PreBlockEnd(e, r.block) == e.deadline == PreBlockEnd(Advanced(e), r.block)
    ensures Maximum(e, r) == Maximum(Advanced(e), r)
  {
  }

  /** A call that lapsed for want of payment keeps its record for a day, and is revived as far as if it had not. */
  lemma LapsedReachesAsFar(e: Entry, block: nat)
    requires e.phase.Live? && e.deadline + 86_400_000 <= U64_MAX
    ensures var lapsed := e.(phase := Ended, ended := Some(Unpaid), deadline := e.deadline + 86_400_000);
            PreBlockEnd(lapsed, block) == PreBlockEnd(e, block)
  {
  }

  // ---- Replay ----

  /** The trace an accepted receipt leaves for good. */
  predicate Absorbed(e: Entry, r: Receipt) {
    && e.phase.Live? && e.paidUntil.Some? && r.paid <= e.paidUntil.value && NextOf(r.block) <= e.nextSeq
    && e.deadline == SatAdd(e.paidUntil.value, GRACE) && e.pending != Some(r.op) && e.ended.None? && !e.noticeUsed
  }

  lemma {:induction false} AbsorbedOverRuns(e: Entry, r: Receipt, rs: seq<Receipt>)
    requires Absorbed(e, r) && Typed(e) && AllTyped(rs)
    ensures Absorbed(After(e, rs), r) && Typed(After(e, rs))
    decreases |rs|
  {
    if rs != [] {
      assert rs[0] in rs && AllTyped(rs[1..]);
      AbsorbedOverRuns(Receive(e, rs[0]), r, rs[1..]);
    }
  }

  lemma AbsorbedIsIgnored(e: Entry, r: Receipt, later: nat)
    requires Absorbed(e, r) && Typed(e) && TypedReceipt(r) && r.now <= later <= U64_MAX
    ensures Receive(e, r.(now := later)) == e
  {
  }

  /** A receipt accepted once changes nothing when it is delivered again, whatever came in between. */
  lemma {:induction false} ReplayChangesNothing(e: Entry, r: Receipt, mid: seq<Receipt>, later: nat)
    requires Typed(e) && TypedReceipt(r) && Accepts(e, r) && AllTyped(mid) && r.now <= later <= U64_MAX
    ensures var f := After(Receive(e, r), mid); Receive(f, r.(now := later)) == f
  {
    assert Absorbed(Receive(e, r), r);
    AbsorbedOverRuns(Receive(e, r), r, mid);
    AbsorbedIsIgnored(After(Receive(e, r), mid), r, later);
  }

  // ---- The store ----

  class CallStore {
    var calls: map<string, Entry>

    constructor ()
      ensures calls == map[]
    {
      calls := map[];
    }

    method ReceiveBlockGrant(call: string, r: Receipt)
      requires TypedReceipt(r) && (call in calls ==> Typed(calls[call]))
      modifies this
      ensures calls == if call in old(calls) then old(calls)[call := Receive(old(calls)[call], r)] else old(calls)
    {
      if call !in calls { return; }
      var entry := calls[call];
      assert calls == calls[call := entry];
      if !entry.side.Caller? || (entry.nextSeq != r.block && entry.nextSeq != NextOf(r.block)) || !Revivable(entry) {
        return;
      }
      if r.paid > Maximum(entry, r) { return; }
      if entry.paidUntil.Some? && entry.paidUntil.value > r.paid { return; }
      var pending := if entry.pending == Some(r.op) then None else entry.pending;
      calls := calls[call := entry.(phase := Live, paidUntil := Some(r.paid), nextSeq := NextOf(r.block),
                                    deadline := SatAdd(r.paid, GRACE), pending := pending, ended := None,
                                    noticeUsed := false)];
    }
  }
}
