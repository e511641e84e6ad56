/**
 The bounded two-lane packet queue of a call: small packets ride the priority lane, large ones the
 bulk lane, each lane drops its own oldest packet when full, and the consumer takes priority first.
 */
module MediaQueue {
  import opened Common

  const PRIORITY_PACKET_BYTES: nat := 512
  const BULK_QUEUE_FRAMES: nat := 16

  datatype Frame = Frame(number: nat, payload: seq<bv8>)

  /** Whether a payload of this length rides the bulk lane. */
  predicate IsBulkPayload(length: nat) { length > PRIORITY_PACKET_BYTES }

  predicate IsBulk(f: Frame) { IsBulkPayload(|f.payload|) }

  datatype Lane = Lane(frames: seq<Frame>, capacity: nat, dropped: nat)

  datatype Queue = Queue(priority: Lane, bulk: Lane, closed: bool)

  function Empty(capacity: nat): Queue {
    var room := Max(capacity, 1);
    Queue(Lane([], room, 0), Lane([], Min(BULK_QUEUE_FRAMES, room), 0), false)
  }

  function Put(l: Lane, f: Frame): Lane {
    if |l.frames| >= l.capacity && l.frames != [] then l.(frames := l.frames[1..] + [f], dropped := l.dropped + 1)
    else l.(frames := l.frames + [f])
  }

  datatype Event = Push(frame: Frame) | TryPop | Close

  /** The queue after an event, and the packet a pop delivered. */
  function Step(q: Queue, e: Event): (Queue, Option<Frame>) {
    match e
    case Push(f) =>
      if q.closed then (q, None)
      else if IsBulk(f) then (q.(bulk := Put(q.bulk, f)), None)
      else (q.(priority := Put(q.priority, f)), None)
    case TryPop =>
      if q.priority.frames != []
      then (q.(priority := q.priority.(frames := q.priority.frames[1..])), Some(q.priority.frames[0]))
      else if q.bulk.frames != []
      then (q.(bulk := q.bulk.(frames := q.bulk.frames[1..])), Some(q.bulk.frames[0]))
      else (q, None)
    case Close => (q.(closed := true), None)
  }

  function After(q: Queue, es: seq<Event>): Queue
    decreases |es|
  {
    if es == [] then q else After(Step(q, es[0]).0, es[1..])
  }

  /** Everything delivered, in order. */
  function Delivered(q: Queue, es: seq<Event>): seq<Frame>
    decreases |es|
  {
    if es == [] then [] else
      var (r, f) := Step(q, es[0]);
      (if f.Some? then [f.value] else []) + Delivered(r, es[1..])
  }

  // ---- Bounds ----

  predicate LaneOk(l: Lane, bulk: bool) {
    1 <= l.capacity && |l.frames| <= l.capacity && forall f :: f in l.frames ==> IsBulk(f) == bulk
  }

  predicate Sound(q: Queue) { LaneOk(q.priority, false) && LaneOk(q.bulk, true) }

  lemma StepKeepsSound(q: Queue, e: Event)
    requires Sound(q)
    ensures var r := Step(q, e).0;
            Sound(r) && r.priority.capacity == q.priority.capacity && r.bulk.capacity == q.bulk.capacity
  {
  }

  /** Each lane stays within its bound over every run. */
  lemma {:induction false} LanesStayBounded(capacity: nat, es: seq<Event>)
    ensures var q := After(Empty(capacity), es);
            |q.priority.frames| <= Max(capacity, 1) && |q.bulk.frames| <= Min(16, Max(capacity, 1))
  {
    BoundedFrom(Empty(capacity), es);
  }

  lemma {:induction false} BoundedFrom(q: Queue, es: seq<Event>)
    requires Sound(q)
    ensures var r := After(q, es);
            Sound(r) && r.priority.capacity == q.priority.capacity && r.bulk.capacity == q.bulk.capacity
    decreases |es|
  {
    hide Sound, Step;
    if es != [] {
      StepKeepsSound(q, es[0]);
      BoundedFrom(Step(q, es[0]).0, es[1..]);
    }
  }

  // ---- One event ----

  /** A full lane gives up its oldest packet for a new one; any other just takes it. */
  function Joined(l: Lane, f: Frame): Lane
    requires 1 <= |l.frames| || 1 <= l.capacity
  {
    if |l.frames| < l.capacity then Lane(l.frames + [f], l.capacity, l.dropped)
    else Lane(l.frames[1..] + [f], l.capacity, l.dropped + 1)
  }

  /** A packet joins the end of its own lane, unless the queue is closed; only a full lane drops, and its oldest. */
  lemma PushJoinsItsLane(q: Queue, f: Frame)
    requires Sound(q)
    ensures Step(q, Push(f))
         == (if q.closed then q
             else if |f.payload| > 512 then q.(bulk := Joined(q.bulk, f))
             else q.(priority := Joined(q.priority, f)), None)
  {
  }

  /** A pop delivers the oldest priority packet, or without one the oldest bulk packet, closed or not. */
  lemma PopTakesTheOldest(q: Queue)
    ensures var (r, out) := Step(q, TryPop);
            && r.closed == q.closed && r.priority.dropped == q.priority.dropped && r.bulk.dropped == q.bulk.dropped
            && q.priority.frames + q.bulk.frames
               == (if out.Some? then [out.value] else []) + (r.priority.frames + r.bulk.frames)
            && (q.priority.frames != [] ==> r.bulk == q.bulk)
            && (out.None? <==> q.priority.frames == [] && q.bulk.frames == [])
  {
    if q.priority.frames != [] {
      assert q.priority.frames == [q.priority.frames[0]] + q.priority.frames[1..];
    } else if q.bulk.frames != [] {
      assert q.bulk.frames == [q.bulk.frames[0]] + q.bulk.frames[1..];
    }
  }

  // ---- Bulk is invisible to the priority lane ----

  function WithoutBulk(es: seq<Event>): seq<Event> {
    if es == [] then [] else
      (if es[0].Push? && IsBulk(es[0].frame) then [] else [es[0]]) + WithoutBulk(es[1..])
  }

  function Small(fs: seq<Frame>): seq<Frame> {
    if fs == [] then [] else (if IsBulk(fs[0]) then [] else [fs[0]]) + Small(fs[1..])
  }

  /** Queues that look the same to a priority packet. */
  predicate Alike(q: Queue, r: Queue) { q.priority == r.priority && q.closed == r.closed }

  /** The priority packet an event delivered, as a sequence. */
  function SmallOf(f: Option<Frame>): seq<Frame> { if f.Some? && !IsBulk(f.value) then [f.value] else [] }

  lemma AlikeStep(q: Queue, r: Queue, e: Event)
    requires Sound(q) && Sound(r) && Alike(q, r)
    ensures !(e.Push? && IsBulk(e.frame)) ==>
              Alike(Step(q, e).0, Step(r, e).0) && SmallOf(Step(q, e).1) == SmallOf(Step(r, e).1)
    ensures e.Push? && IsBulk(e.frame) ==> Alike(Step(q, e).0, r) && Step(q, e).1.None?
  {
  }

  /**
   Erasing every bulk packet from a run changes neither the priority packets delivered nor the
   priority lane nor the number of priority packets dropped.
   */
  lemma {:induction false} BulkIsInvisible(q: Queue, r: Queue, es: seq<Event>)
    requires Sound(q) && Sound(r) && Alike(q, r)
    ensures Alike(After(q, es), After(r, WithoutBulk(es)))
    ensures Small(Delivered(q, es)) == Small(Delivered(r, WithoutBulk(es)))
    decreases |es|
  {
    if es != [] {
      hide Step, Sound, Alike, IsBulk, SmallOf;
      var (q', f) := Step(q, es[0]);
      StepKeepsSound(q, es[0]);
      AlikeStep(q, r, es[0]);
      SmallPrepends(f, Delivered(q', es[1..]));
      if es[0].Push? && IsBulk(es[0].frame) {
        assert WithoutBulk(es) == WithoutBulk(es[1..]);
        BulkIsInvisible(q', r, es[1..]);
        NoSmall();
      } else {
        var (r', g) := Step(r, es[0]);
        assert WithoutBulk(es)[0] == es[0] && WithoutBulk(es)[1..] == WithoutBulk(es[1..]);
        StepKeepsSound(r, es[0]);
        BulkIsInvisible(q', r', es[1..]);
        SmallPrepends(g, Delivered(r', WithoutBulk(es[1..])));
      }
    }
  }

  lemma NoSmall()
    ensures SmallOf(None) == []
  {
  }

  lemma SmallPrepends(f: Option<Frame>, rest: seq<Frame>)
    ensures Small((if f.Some? then [f.value] else []) + rest)
         == SmallOf(f) + Small(rest)
  {
    if f.Some? {
      assert ([f.value] + rest)[1..] == rest;
    } else {
      assert [] + rest == rest;
    }
  }

  // ---- Each lane is a suffix of what was pushed ----

  function PutBy(q: Queue, e: Event, bulk: bool): seq<Frame> {
    if e.Push? && !q.closed && IsBulk(e.frame) == bulk then [e.frame] else []
  }

  function TakenBy(q: Queue, e: Event, bulk: bool): nat {
    var f := Step(q, e).1;
    if f.Some? && IsBulk(f.value) == bulk then 1 else 0
  }

  /** The packets a run put on one lane. */
  function Pushed(q: Queue, es: seq<Event>, bulk: bool): seq<Frame>
    decreases |es|
  {
    if es == [] then [] else PutBy(q, es[0], bulk) + Pushed(Step(q, es[0]).0, es[1..], bulk)
  }

  /** How many packets a run took from one lane. */
  function Popped(q: Queue, es: seq<Event>, bulk: bool): nat
    decreases |es|
  {
    if es == [] then 0 else TakenBy(q, es[0], bulk) + Popped(Step(q, es[0]).0, es[1..], bulk)
  }

  function LaneOf(q: Queue, bulk: bool): Lane { if bulk then q.bulk else q.priority }

  /** Lane `m` is what is left of `l` and the packets put on it after some were popped and dropped. */
  predicate Follows(l: Lane, m: Lane, put: seq<Frame>, popped: nat) {
    var gone := popped + m.dropped - l.dropped;
    l.dropped <= m.dropped && gone <= |l.frames + put| && m.frames == (l.frames + put)[gone..]
  }

  lemma FollowsTrans(l: Lane, k: Lane, m: Lane, put: seq<Frame>, rest: seq<Frame>, popped: nat, more: nat)
    requires Follows(l, k, put, popped) && Follows(k, m, rest, more)
    ensures Follows(l, m, put + rest, popped + more)
  {
    var first, gone := popped + k.dropped - l.dropped, more + m.dropped - k.dropped;
    assert l.frames + (put + rest) == (l.frames + put) + rest;
    SuffixOfSuffix(l.frames + put, rest, first, gone);
  }

  lemma SuffixOfSuffix<T>(a: seq<T>, rest: seq<T>, first: nat, gone: nat)
    requires first <= |a| && gone <= |a[first..] + rest|
    ensures (a[first..] + rest)[gone..] == (a + rest)[first + gone..]
  {
  }

  lemma StepIsSuffix(q: Queue, e: Event, bulk: bool)
    requires Sound(q)
    ensures Follows(LaneOf(q, bulk), LaneOf(Step(q, e).0, bulk), PutBy(q, e, bulk), TakenBy(q, e, bulk))
  {
  }

  /**
   At every point a lane holds exactly what was pushed on it from index popped plus dropped on: packets
   leave in order, none is lost uncounted and none is duplicated.
   */
  lemma {:induction false} LaneIsSuffix(q: Queue, es: seq<Event>, bulk: bool)
    requires Sound(q)
    ensures Follows(LaneOf(q, bulk), LaneOf(After(q, es), bulk), Pushed(q, es, bulk), Popped(q, es, bulk))
    decreases |es|
  {
    if es != [] {
      hide Sound, Step, LaneOf, Follows, PutBy, TakenBy;
      var r := Step(q, es[0]).0;
      StepKeepsSound(q, es[0]);
      StepIsSuffix(q, es[0], bulk);
      LaneIsSuffix(r, es[1..], bulk);
      FollowsTrans(LaneOf(q, bulk), LaneOf(r, bulk), LaneOf(After(r, es[1..]), bulk),
                   PutBy(q, es[0], bulk), Pushed(r, es[1..], bulk), TakenBy(q, es[0], bulk), Popped(r, es[1..], bulk));
    }
  }

  // ---- The queue itself ----

  class MediaQueue {
    var frames: seq<Frame>
    var bulk: seq<Frame>
    const capacity: nat
    const bulkCapacity: nat
    var closed: bool
    var dropped: nat
    var bulkDropped: nat

    ghost function Now(): Queue
      reads this
    {
      Queue(Lane(frames, capacity, dropped), Lane(bulk, bulkCapacity, bulkDropped), closed)
    }

    constructor (room: nat)
      ensures Now() == Empty(room) && Sound(Now())
    {
      frames, bulk, closed, dropped, bulkDropped := [], [], false, 0, 0;
      capacity := Max(room, 1);
      bulkCapacity := Min(BULK_QUEUE_FRAMES, Max(room, 1));
    }

    /** How many packets were dropped to make room, or nothing once closed. */
    method PushFrame(f: Frame) returns (made: Option<nat>)
      requires Sound(Now())
      modifies this
      ensures Sound(Now()) && Now() == Step(old(Now()), Push(f)).0
      ensures made == if old(closed) then None else Some(dropped + bulkDropped - old(dropped + bulkDropped))
    {
      if closed { return None; }
      var gone := 0;
      if IsBulk(f) {
        if |bulk| >= bulkCapacity {
          bulk := bulk[1..];
          bulkDropped := bulkDropped + 1;
          gone := 1;
        }
        bulk := bulk + [f];
      } else {
        if |frames| >= capacity {
          frames := frames[1..];
          dropped := dropped + 1;
          gone := 1;
        }
        frames := frames + [f];
      }
      made := Some(gone);
    }

    method PopFrame() returns (f: Option<Frame>)
      requires Sound(Now())
      modifies this
      ensures Sound(Now()) && (Now(), f) == Step(old(Now()), TryPop)
    {
      if frames != [] {
        f := Some(frames[0]);
        frames := frames[1..];
      } else if bulk != [] {
        f := Some(bulk[0]);
        bulk := bulk[1..];
      } else {
        f := None;
      }
    }

    method CloseQueue()
      modifies this
      ensures Now() == Step(old(Now()), Close).0
    {
      closed := true;
    }
  }
}
