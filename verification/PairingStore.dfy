/**
 Writing the pairing file: `persist_with_clock`. A grant that expires while a write is in flight
 must not be retained on disk, so the write is repeated until none has.
 */
module PairingStore {
  import opened GrantBook
  import opened PairingLedger

  /** What the filesystem does to one attempt; `fsync_dir` can fail after the rename took place. */
  datatype Fault = Sound | WriteFails | RenameFails | SyncFails

  ghost predicate Nondecreasing(clock: nat -> int) {
    forall i: nat, j: nat :: i <= j ==> clock(i) <= clock(j)
  }

  // ---- Pruning ----

  lemma {:induction false} LiveGrantsTwice(gs: seq<SpendGrant>, t: int, u: int)
    requires t <= u
    ensures LiveGrants(LiveGrants(gs, t), u) == LiveGrants(gs, u)
  {
    if gs != [] {
      LiveGrantsTwice(gs[1..], t, u);
      if GrantLive(gs[0], t) {
        assert LiveGrants(gs, t)[1..] == LiveGrants(gs[1..], t);
      } else {
        assert LiveGrants(gs, t) == LiveGrants(gs[1..], t);
      }
    }
  }

  lemma {:induction false} LiveFrontDoorTwice(gs: seq<FrontDoorGrant>, t: int, u: int)
    requires t <= u
    ensures LiveFrontDoor(LiveFrontDoor(gs, t), u) == LiveFrontDoor(gs, u)
  {
    if gs != [] {
      LiveFrontDoorTwice(gs[1..], t, u);
      if FrontDoorLive(gs[0], t) {
        assert LiveFrontDoor(gs, t)[1..] == LiveFrontDoor(gs[1..], t);
      } else {
        assert LiveFrontDoor(gs, t) == LiveFrontDoor(gs[1..], t);
      }
    }
  }

  /** Pruning again at a later time is pruning once at that time. */
  lemma LiveTwice(k: Book, t: int, u: int)
    requires t <= u
    ensures Live(Live(k, t), u) == Live(k, u)
  {
    LiveGrantsTwice(k.grants, t, u);
    LiveFrontDoorTwice(k.frontDoor, t, u);
  }

  function Size(k: Book): nat { |k.grants| + |k.frontDoor| }

  lemma {:induction false} LiveGrantsShrink(gs: seq<SpendGrant>, t: int)
    ensures |LiveGrants(gs, t)| <= |gs|
    ensures (exists g :: g in gs && !GrantLive(g, t)) ==> |LiveGrants(gs, t)| < |gs|
  {
    if gs != [] { LiveGrantsShrink(gs[1..], t); }
  }

  lemma {:induction false} LiveFrontDoorShrink(gs: seq<FrontDoorGrant>, t: int)
    ensures |LiveFrontDoor(gs, t)| <= |gs|
    ensures (exists g :: g in gs && !FrontDoorLive(g, t)) ==> |LiveFrontDoor(gs, t)| < |gs|
  {
    if gs != [] { LiveFrontDoorShrink(gs[1..], t); }
  }

  /** A grant seen dead at `t` is gone once the book is pruned at any later time. */
  lemma LiveShrinks(k: Book, t: int, u: int)
    requires t <= u
    ensures Size(Live(k, u)) <= Size(k)
    ensures HasDead(k, t) ==> Size(Live(k, u)) < Size(k)
  {
    LiveGrantsShrink(k.grants, u);
    LiveFrontDoorShrink(k.frontDoor, u);
    forall g | g in k.grants && !GrantLive(g, t) ensures !GrantLive(g, u) {}
    forall g | g in k.frontDoor && !FrontDoorLive(g, t) ensures !FrontDoorLive(g, u) {}
  }

  /** The filesystem does everything it is asked. */
  ghost predicate NoFault(fault: nat -> Fault) { forall i: nat :: fault(i) == Sound }

  /**
   A sound filesystem always gives success. On success memory and disk are the input without its dead
   grants, none of them dead at the last reading of the clock. On failure memory is the input, and disk is
   either untouched or the input pruned at some reading: a repeated write may have been renamed into place
   before a later one failed.
   */
  method Persist(file: File, disk: File, clock: nat -> int, fault: nat -> Fault)
    returns (outcome: Outcome, file': File, disk': File, ticks: nat)
    requires Nondecreasing(clock)
    ensures outcome.Lost? ==> file' == file && disk' == disk
    ensures outcome.Torn? ==> file' == file && disk' == Pruned(file, outcome.at)
    ensures outcome.Kept? ==> file' == disk' == Pruned(file, outcome.at)
                              && ticks > 0 && !HasDead(file'.book, clock(ticks - 1))
    ensures outcome.Torn? || outcome.Kept? ==> exists i: nat :: i < ticks && clock(i) == outcome.at
    ensures NoFault(fault) ==> outcome.Kept?
    ensures fault(0) == WriteFails ==> outcome.Lost?
  {
    var candidate, attempt, last := file, 0, 0;
    outcome, file', disk', ticks := Lost, file, disk, 0;
    while true
      invariant file' == file
      invariant attempt == 0 ==> candidate == file
      invariant attempt > 0 ==> candidate == Pruned(file, last)
      invariant attempt > 0 ==> ticks > 0 && last <= clock(ticks - 1) && HasDead(candidate.book, clock(ticks - 1))
      invariant outcome.Lost? ==> disk' == disk
      invariant outcome.Torn? ==>
                  disk' == Pruned(file, outcome.at) && exists i: nat :: i < ticks && clock(i) == outcome.at
      invariant !outcome.Kept? && (attempt > 0 ==> fault(0) != WriteFails) && (attempt == 0 ==> outcome.Lost?)
      decreases Size(candidate.book) + (if attempt == 0 then 1 else 0)
    {
      var now := clock(ticks);
      if attempt > 0 {
        LiveTwice(file.book, last, now);
        LiveShrinks(candidate.book, clock(ticks - 1), now);
      } else {
        LiveShrinks(candidate.book, now, now);
      }
      candidate, last, ticks := Pruned(candidate, now), now, ticks + 1;
      assert clock(ticks - 1) == now;
      if fault(attempt) == WriteFails { return; }
      var before := clock(ticks);
      ticks := ticks + 1;
      if HasDead(candidate.book, before) {
        attempt := attempt + 1;
        continue;
      }
      if fault(attempt) == RenameFails { return; }
      disk', outcome := candidate, Torn(now);
      if fault(attempt) == SyncFails { return; }
      var after := clock(ticks);
      ticks := ticks + 1;
      if HasDead(candidate.book, after) {
        attempt := attempt + 1;
        continue;
      }
      file', outcome := candidate, Kept(now);
      return;
    }
  }
}
