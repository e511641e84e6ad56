/**
 What a call's media socket accepts from the app: a one-second budget of messages and bytes, with
 a reservation that bulk packets cannot touch when the node drops bulk over its share.
 */
module IngressBudget {
  import opened Common
  import opened FixedWindow
  import MediaQueue

  const WINDOW: nat := 1000
  const SEQ_HEADER_BYTES: nat := 4
  const MAX_PAYLOAD_BYTES: nat := 4096
  const MAX_MESSAGE_BYTES: nat := SEQ_HEADER_BYTES + MAX_PAYLOAD_BYTES
  const RESERVED_FRAMES: nat := 60
  const RESERVED_BYTES: nat := 12 * 1024

  type U32 = n: nat | n <= 0xFFFF_FFFF

  datatype Limits = Limits(frames: U32, bytes: U64, dropBulk: bool)

  function BulkFrames(l: Limits): nat { SatSub(l.frames, RESERVED_FRAMES) }

  function BulkBytes(l: Limits): nat { SatSub(l.bytes, RESERVED_BYTES) }

  /** The socket refuses to read a larger message. */
  type MessageBytes = n: nat | n <= MAX_MESSAGE_BYTES

  datatype Message = Message(binary: bool, bytes: MessageBytes)

  /** A binary message whose payload, after the sequence header, is too large for the priority lane. */
  predicate IsBulk(m: Message) { m.binary && MediaQueue.IsBulkPayload(SatSub(m.bytes, SEQ_HEADER_BYTES)) }

  datatype Budget = Budget(start: int, messages: nat, bytes: nat, bulkMessages: nat, bulkBytes: nat,
                           overMessages: nat, overBytes: nat)

  datatype Ingress = Accept | DropBulk | Close

  function Opened(now: int): Budget { Budget(now, 0, 0, 0, 0, 0, 0) }

  /** The budget of the window a message at `now` falls in. */
  function Current(b: Budget, now: int): Budget { if now - b.start >= WINDOW then Opened(now) else b }

  function Metered(l: Limits, c: Budget, m: Message): (Budget, Ingress) {
    if l.dropBulk && IsBulk(m) then
      if c.bulkMessages >= BulkFrames(l) || SatAdd(c.bulkBytes, m.bytes) > BulkBytes(l) then
        var d := c.(overMessages := c.overMessages + 1, overBytes := SatAdd(c.overBytes, m.bytes));
        (d, if d.overMessages <= l.frames && d.overBytes <= l.bytes then DropBulk else Close)
      else (c.(bulkMessages := c.bulkMessages + 1, bulkBytes := c.bulkBytes + m.bytes), Accept)
    else
      var d := c.(messages := c.messages + 1, bytes := SatAdd(c.bytes, m.bytes));
      (d, if d.messages <= l.frames && d.bytes <= l.bytes then Accept else Close)
  }

  function Admit(l: Limits, b: Budget, m: Message, now: int): (Budget, Ingress) { Metered(l, Current(b, now), m) }

  datatype Arrival = Arrival(message: Message, at: int)

  // ---- Within a window, bulk is invisible ----

  predicate InWindow(b: Budget, ins: seq<Arrival>) { forall a :: a in ins ==> a.at - b.start < WINDOW }

  /** The decisions on everything but bulk. */
  function Decisions(l: Limits, b: Budget, ins: seq<Arrival>): seq<Ingress>
    decreases |ins|
  {
    if ins == [] then [] else
      var (c, r) := Admit(l, b, ins[0].message, ins[0].at);
      (if IsBulk(ins[0].message) then [] else [r]) + Decisions(l, c, ins[1..])
  }

  function WithoutBulk(ins: seq<Arrival>): seq<Arrival> {
    if ins == [] then [] else (if IsBulk(ins[0].message) then [] else [ins[0]]) + WithoutBulk(ins[1..])
  }

  predicate Alike(b: Budget, c: Budget) { b.start == c.start && b.messages == c.messages && b.bytes == c.bytes }

  /** With bulk dropped over its share, no bulk packet changes a decision on anything else in its window. */
  lemma {:induction false} BulkIsInvisible(l: Limits, b: Budget, c: Budget, ins: seq<Arrival>)
    requires l.dropBulk && Alike(b, c) && InWindow(b, ins)
    ensures Decisions(l, b, ins) == Decisions(l, c, WithoutBulk(ins))
    decreases |ins|
  {
    if ins != [] {
      var a := ins[0];
      assert a in ins;
      var b' := Admit(l, b, a.message, a.at).0;
      assert InWindow(b', ins[1..]);
      if IsBulk(a.message) {
        assert WithoutBulk(ins) == WithoutBulk(ins[1..]);
        assert Decisions(l, b, ins) == Decisions(l, b', ins[1..]);
        BulkIsInvisible(l, b', c, ins[1..]);
      } else {
        assert WithoutBulk(ins)[0] == a && WithoutBulk(ins)[1..] == WithoutBulk(ins[1..]);
        BulkIsInvisible(l, b', Admit(l, c, a.message, a.at).0, ins[1..]);
      }
    }
  }

  // ---- What a window and an interval accept ----

  /** What one window may accept in all. */
  function FrameAllowance(l: Limits): nat { if l.dropBulk then l.frames + BulkFrames(l) else l.frames }

  function ByteAllowance(l: Limits): nat { if l.dropBulk then l.bytes + BulkBytes(l) else l.bytes }

  /** `accepted`: the messages other than counted bulk accepted in this window, and their bytes. */
  predicate Tallied(l: Limits, b: Budget, accepted: nat, bytes: nat) {
    && accepted <= b.messages && accepted <= l.frames
    && bytes <= l.bytes && bytes <= b.bytes <= b.messages * MAX_MESSAGE_BYTES
    && b.bulkMessages <= BulkFrames(l) && b.bulkBytes <= BulkBytes(l)
    && (!l.dropBulk ==> b.bulkMessages == 0 && b.bulkBytes == 0)
  }

  predicate Counted(l: Limits, m: Message) { l.dropBulk && IsBulk(m) }

  /** One message moves exactly the counter it belongs to, and an accepted one stays within the limits. */
  lemma MeteredTallies(l: Limits, c: Budget, m: Message, accepted: nat, bytes: nat)
    requires Tallied(l, c, accepted, bytes)
    ensures var (d, r) := Metered(l, c, m);
            && d.start == c.start
            && (r.Accept? && Counted(l, m) ==>
                  d.bulkMessages == c.bulkMessages + 1 && d.bulkBytes == c.bulkBytes + m.bytes)
            && (!(r.Accept? && Counted(l, m)) ==> d.bulkMessages == c.bulkMessages && d.bulkBytes == c.bulkBytes)
            && Tallied(l, d, if r.Accept? && !Counted(l, m) then accepted + 1 else accepted,
                       if r.Accept? && !Counted(l, m) then bytes + m.bytes else bytes)
  {
  }

  /** The log of a run: every arrival, weighed by what was accepted of it. */
  function Accepted(l: Limits, b: Budget, ins: seq<Arrival>, inBytes: bool): seq<Entry>
    decreases |ins|
  {
    if ins == [] then [] else
      var (c, r) := Admit(l, b, ins[0].message, ins[0].at);
      [Entry(ins[0].at, c.start, if !r.Accept? then 0 else if inBytes then ins[0].message.bytes else 1)]
      + Accepted(l, c, ins[1..], inBytes)
  }

  predicate Nondecreasing(ins: seq<Arrival>, now: int)
    decreases |ins|
  {
    ins == [] || (now <= ins[0].at && Nondecreasing(ins[1..], ins[0].at))
  }

  function Used(b: Budget, accepted: nat, bytes: nat, inBytes: bool): nat {
    if inBytes then bytes + b.bulkBytes else accepted + b.bulkMessages
  }

  function Allowance(l: Limits, inBytes: bool): nat { if inBytes then ByteAllowance(l) else FrameAllowance(l) }

  /** The counters after one arrival, and how they account for what it was weighed at. */
  lemma ArrivalIsLogged(l: Limits, b: Budget, a: Arrival, accepted: nat, bytes: nat, inBytes: bool)
    returns (n: nat, k: nat)
    requires Tallied(l, b, accepted, bytes) && b.start <= a.at
    ensures var (d, r) := Admit(l, b, a.message, a.at);
            var weight := if !r.Accept? then 0 else if inBytes then a.message.bytes else 1;
            && Tallied(l, d, n, k) && d.start <= a.at
            && (if a.at - b.start < WINDOW
                then d.start == b.start && Used(d, n, k, inBytes) == Used(b, accepted, bytes, inBytes) + weight
                else d.start == a.at && Used(d, n, k, inBytes) == weight)
  {
    hide Metered, IsBulk;
    var c := Current(b, a.at);
    n, k := accepted, bytes;
    if a.at - b.start >= WINDOW { n, k := 0, 0; }
    MeteredTallies(l, c, a.message, n, k);
    if Metered(l, c, a.message).1.Accept? && !Counted(l, a.message) { n, k := n + 1, k + a.message.bytes; }
  }

  lemma WithinAllowance(l: Limits, b: Budget, accepted: nat, bytes: nat, inBytes: bool)
    requires Tallied(l, b, accepted, bytes)
    ensures Used(b, accepted, bytes, inBytes) <= Allowance(l, inBytes)
  {
  }

  lemma {:induction false} RunIsLogged(l: Limits, b: Budget, ins: seq<Arrival>, accepted: nat, bytes: nat, now: int,
                                       inBytes: bool)
    requires Tallied(l, b, accepted, bytes) && b.start <= now && Nondecreasing(ins, now)
    ensures Log(Accepted(l, b, ins, inBytes), b.start, Used(b, accepted, bytes, inBytes), Allowance(l, inBytes),
                WINDOW, 0)
    decreases |ins|
  {
    hide Admit, Tallied, Used, Allowance;
    WithinAllowance(l, b, accepted, bytes, inBytes);
    if ins != [] {
      var n, k := ArrivalIsLogged(l, b, ins[0], accepted, bytes, inBytes);
      var d := Admit(l, b, ins[0].message, ins[0].at).0;
      assert Accepted(l, b, ins, inBytes)[1..] == Accepted(l, d, ins[1..], inBytes);
      RunIsLogged(l, d, ins[1..], n, k, ins[0].at, inBytes);
    }
  }

  /** Messages, or bytes, accepted between `lo` and `hi`. */
  function AcceptedIn(l: Limits, ins: seq<Arrival>, now: int, inBytes: bool, lo: int, hi: int): nat {
    Through(Accepted(l, Opened(now), ins, inBytes), lo, hi)
  }

  /**
   In either mode and under any limits, any one-second interval accepts at most twice what one window
   allows, in messages and in bytes. The sums saturate, but no window that still accepts can get there.
   */
  lemma {:induction false} AtMostTwicePerSecond(l: Limits, ins: seq<Arrival>, now: int, lo: int, hi: int)
    requires Nondecreasing(ins, now) && hi - lo <= WINDOW
    ensures AcceptedIn(l, ins, now, false, lo, hi) <= 2 * FrameAllowance(l)
    ensures AcceptedIn(l, ins, now, true, lo, hi) <= 2 * ByteAllowance(l)
  {
    RunIsLogged(l, Opened(now), ins, 0, 0, now, false);
    TwoAllowances(Accepted(l, Opened(now), ins, false), now, 0, FrameAllowance(l), WINDOW, 0, lo, hi);
    RunIsLogged(l, Opened(now), ins, 0, 0, now, true);
    TwoAllowances(Accepted(l, Opened(now), ins, true), now, 0, ByteAllowance(l), WINDOW, 0, lo, hi);
  }

  // ---- What exactly a window accepts ----

  /** A new second starts the counts over. */
  function CountsAt(b: Budget, now: int): Budget { if now < b.start + 1000 then b else Budget(now, 0, 0, 0, 0, 0, 0) }

  /** The sum stays within the limit; a limit at the top of 64 bits is never passed. */
  predicate BytesFit(sum: nat, limit: nat) { sum <= limit || limit == U64_MAX }

  /**
   What is decided, mode by mode. A message outside the bulk share is accepted while both counts, with
   it, keep to the limits. A bulk message over its share is dropped while what was dropped keeps to them.
   */
  lemma AdmitsIff(l: Limits, b: Budget, m: Message, now: int)
    ensures var (d, r) := Admit(l, b, m, now);
            var c := CountsAt(b, now);
            if l.dropBulk && m.binary && m.bytes > 516 then
              && (r.Accept? <==>
                    c.bulkMessages + 60 < l.frames && c.bulkBytes + m.bytes + 12_288 <= Max(l.bytes, 12_288))
              && (r.DropBulk? <==> !r.Accept? && c.overMessages < l.frames && BytesFit(c.overBytes + m.bytes, l.bytes))
            else
              && (r.Accept? <==> c.messages < l.frames && BytesFit(c.bytes + m.bytes, l.bytes)) && !r.DropBulk?
  {
  }

  lemma PlainAdmitsIff(l: Limits, b: Budget, m: Message, now: int)
    requires !Counted(l, m) && now - b.start < WINDOW
    ensures Admit(l, b, m, now).1.Accept? <==> b.messages < l.frames && BytesFit(b.bytes + m.bytes, l.bytes)
  {
  }

  function BytesOf(ins: seq<Arrival>): nat {
    if ins == [] then 0 else BytesOf(ins[..|ins| - 1]) + ins[|ins| - 1].message.bytes
  }

  /** None of the messages is in the bulk share. */
  predicate Plain(l: Limits, ins: seq<Arrival>) { forall a :: a in ins ==> !Counted(l, a.message) }

  function AfterAll(l: Limits, b: Budget, ins: seq<Arrival>): Budget
    decreases |ins|
  {
    if ins == [] then b else
      var a := ins[|ins| - 1];
      Admit(l, AfterAll(l, b, ins[..|ins| - 1]), a.message, a.at).0
  }

  /** The counts after a window's messages, none of them in the bulk share. */
  lemma {:induction false} CountsAfter(l: Limits, b: Budget, ins: seq<Arrival>)
    requires InWindow(b, ins) && Plain(l, ins) && b.bytes + BytesOf(ins) <= U64_MAX
    ensures var c := AfterAll(l, b, ins);
            c.start == b.start && c.messages == b.messages + |ins| && c.bytes == b.bytes + BytesOf(ins)
    decreases |ins|
  {
    if ins != [] {
      var init, a := ins[..|ins| - 1], ins[|ins| - 1];
      assert a in ins && forall x :: x in init ==> x in ins;
      CountsAfter(l, b, init);
    }
  }

  /**
   In a fresh second a message outside the bulk share is accepted exactly if no more messages than the
   limit, and no more bytes, have come with it, whatever was refused before it.
   */
  lemma WindowAcceptsExactly(l: Limits, start: int, before: seq<Arrival>, a: Arrival)
    requires InWindow(Opened(start), before) && Plain(l, before) && BytesOf(before) <= U64_MAX
    requires a.at - start < WINDOW && !Counted(l, a.message)
    ensures Admit(l, AfterAll(l, Opened(start), before), a.message, a.at).1.Accept? <==>
              |before| + 1 <= l.frames && BytesFit(BytesOf(before) + a.message.bytes, l.bytes)
  {
    hide Admit, AfterAll, BytesOf, Counted, InWindow, Plain;
    CountsAfter(l, Opened(start), before);
    PlainAdmitsIff(l, AfterAll(l, Opened(start), before), a.message, a.at);
  }

  function BulkAccepted(l: Limits, b: Budget, ins: seq<Arrival>): (nat, nat)
    decreases |ins|
  {
    if ins == [] then (0, 0) else
      var (c, r) := Admit(l, b, ins[0].message, ins[0].at);
      var (n, k) := BulkAccepted(l, c, ins[1..]);
      if IsBulk(ins[0].message) && r.Accept? then (n + 1, k + ins[0].message.bytes) else (n, k)
  }

  /** Bulk accepted in one window leaves the reservation untouched. */
  lemma {:induction false} BulkKeepsToItsShare(l: Limits, b: Budget, ins: seq<Arrival>)
    requires l.dropBulk && InWindow(b, ins) && b.bulkMessages <= BulkFrames(l) && b.bulkBytes <= BulkBytes(l)
    ensures var (n, k) := BulkAccepted(l, b, ins);
            b.bulkMessages + n <= SatSub(l.frames, 60) && b.bulkBytes + k <= SatSub(l.bytes, 12 * 1024)
    decreases |ins|
  {
    if ins != [] {
      assert ins[0] in ins;
      BulkKeepsToItsShare(l, Admit(l, b, ins[0].message, ins[0].at).0, ins[1..]);
    }
  }

  // ---- The socket's own counters ----

  class Meter {
    const limits: Limits
    var start: int
    var messages: nat
    var bytes: nat
    var bulkMessages: nat
    var bulkBytes: nat
    var overMessages: nat
    var overBytes: nat

    ghost function Now(): Budget
      reads this
    {
      Budget(start, messages, bytes, bulkMessages, bulkBytes, overMessages, overBytes)
    }

    constructor (l: Limits, now: int)
      ensures limits == l && Now() == Opened(now)
    {
      limits, start := l, now;
      messages, bytes, bulkMessages, bulkBytes, overMessages, overBytes := 0, 0, 0, 0, 0, 0;
    }

    method AdmitMessage(m: Message, now: int) returns (r: Ingress)
      modifies this
      ensures (Now(), r) == Admit(limits, old(Now()), m, now)
    {
      if now - start >= WINDOW {
        start := now;
        messages, bytes, bulkMessages, bulkBytes, overMessages, overBytes := 0, 0, 0, 0, 0, 0;
      }
      if limits.dropBulk && IsBulk(m) {
        if bulkMessages >= BulkFrames(limits) || SatAdd(bulkBytes, m.bytes) > BulkBytes(limits) {
          overMessages := overMessages + 1;
          overBytes := SatAdd(overBytes, m.bytes);
          return if overMessages <= limits.frames && overBytes <= limits.bytes then DropBulk else Close;
        }
        bulkMessages := bulkMessages + 1;
        bulkBytes := bulkBytes + m.bytes;
        return Accept;
      }
      messages := messages + 1;
      bytes := SatAdd(bytes, m.bytes);
      r := if messages <= limits.frames && bytes <= limits.bytes then Accept else Close;
    }
  }
}
