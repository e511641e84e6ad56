/**
 Remote unlock of a locked node. One request at a time owns the transition lock, from before its
 body is read until its password has been checked: a check runs on a blocking thread that keeps
 the lock even if the request that started it is cancelled.
 */
module UnlockAttempts {
  import opened Common
  import opened Roster

  const CHALLENGE_TTL: int := 120
  const FAILURE_WINDOW: int := 900
  const MAX_TOTAL: nat := 20
  const MAX_PER_KEY: nat := 5

  /** The pairing record is kept as it was when the challenge was given, and compared as a whole. */
  datatype Challenge = Challenge(value: string, client: Client, deadline: int)

  /** Counted failures: all of them, and for each key those that still count. */
  datatype Attempts = Attempts(total: nat, keys: map<string, seq<int>>)

  /** Who holds the transition lock. */
  datatype Holder = Idle | Reading(client: Client) | Verifying(key: string)

  /**
   `handoff`: the one-shot password slot is still there. `log` is a history variable: every counted
   failure of each key, in order.
   */
  datatype Locked = Locked(holder: Holder, handoff: bool, attempts: Attempts, challenges: map<string, Challenge>,
                           log: map<string, seq<int>>)

  datatype Reply =
    | Given | Waiting | Unlocked | HandedToNobody | Failed | DeviceUnknown | AlreadyUnlocking | RateLimited | Nothing

  // ---- Attempts ----

  function Recent(f: seq<int>, now: int): seq<int> {
    if f == [] then [] else (if now - f[0] < FAILURE_WINDOW then [f[0]] else []) + Recent(f[1..], now)
  }

  function Pruned(keys: map<string, seq<int>>, now: int): map<string, seq<int>> {
    map k | k in keys && Recent(keys[k], now) != [] :: Recent(keys[k], now)
  }

  function Of(keys: map<string, seq<int>>, k: string): seq<int> { if k in keys then keys[k] else [] }

  predicate Exhausted(a: Attempts, key: string) { a.total >= MAX_TOTAL || |Of(a.keys, key)| >= MAX_PER_KEY }

  /** `limited`: forgets what is out of the window, then looks. */
  function Limited(a: Attempts, key: string, now: int): (Attempts, bool) {
    var b := a.(keys := Pruned(a.keys, now));
    (b, Exhausted(b, key))
  }

  function Counted(a: Attempts, key: string, now: int): Attempts {
    Attempts(a.total + 1, a.keys[key := Of(a.keys, key) + [now]])
  }

  /** `failed`: counts, then answers by what is left. */
  function Fail(s: Locked, key: string, now: int, why: Reply): (Locked, Reply) {
    var (b, limited) := Limited(Counted(s.attempts, key, now), key, now);
    (s.(holder := Idle, attempts := b, log := s.log[key := Of(s.log, key) + [now]]),
     if limited then RateLimited else why)
  }

  // ---- Requests ----

  predicate Busy(s: Locked) { !s.holder.Idle? || !s.handoff }

  function Unexpired(cs: map<string, Challenge>, now: int): map<string, Challenge> {
    map c | c in cs && cs[c].deadline > now :: cs[c]
  }

  function AskChallenge(s: Locked, client: Client, value: string, now: int): (Locked, Reply) {
    if Busy(s) then (s, AlreadyUnlocking)
    else if s.attempts.total >= MAX_TOTAL then (s, RateLimited)
    else
      var kept := Unexpired(s.challenges, now);
      (s.(challenges := kept[client.id := Challenge(value, client, now + CHALLENGE_TTL)]), Given)
  }

  function BeginUnlock(s: Locked, client: Client): (Locked, Reply) {
    if Busy(s) then (s, AlreadyUnlocking) else (s.(holder := Reading(client)), Waiting)
  }

  /** The body is malformed or the request is dropped while it is read. */
  function AbandonRead(s: Locked): (Locked, Reply) {
    if s.holder.Reading? then (s.(holder := Idle), Failed) else (s, Nothing)
  }

  /** `known`: the client has this approved device key. `keyForm` and `form`: the key and the signature decode. */
  datatype Body = Body(challenge: string, key: string, known: bool, keyForm: bool, form: bool, signature: bool)

  predicate Issued(cs: map<string, Challenge>, value: string) { exists c :: c in cs && cs[c].value == value }

  function Take(cs: map<string, Challenge>, value: string): map<string, Challenge> {
    map c | c in cs && cs[c].value != value :: cs[c]
  }

  /** The whole synchronous stretch from the parsed body to the start of password verification. */
  function Submit(s: Locked, b: Body, now: int): (Locked, Reply) {
    if !s.holder.Reading? then (s, Nothing)
    else if !Issued(s.challenges, b.challenge) then (s.(holder := Idle), Failed)
    else
      var t := s.(challenges := Take(s.challenges, b.challenge), holder := Idle);
      var stands := exists c :: c in s.challenges && s.challenges[c].value == b.challenge
                               && s.challenges[c].deadline > now && s.challenges[c].client == s.holder.client;
      if !stands then (t, Failed)
      else if !b.known then (t, DeviceUnknown)
      else
        var (a, limited) := Limited(t.attempts, b.key, now);
        var u := t.(attempts := a);
        if limited then (u, RateLimited)
        else if !b.keyForm then (u, DeviceUnknown)
        else if !b.form then (u, Failed)
        else if !b.signature then Fail(u, b.key, now, Failed)
        else (u.(holder := Verifying(b.key)), Waiting)
  }

  /** What the blocking check found: all is well, the password or identity is wrong, or the device no longer stands. */
  datatype Check = Good | WrongPassword | WrongDevice

  /** `listening`: someone is there to take the password. */
  function FinishVerify(s: Locked, check: Check, listening: bool, now: int): (Locked, Reply) {
    if !s.holder.Verifying? then (s, Nothing)
    else if !check.Good? then Fail(s, s.holder.key, now, if check.WrongDevice? then DeviceUnknown else Failed)
    else (s.(holder := Idle, handoff := false), if listening then Unlocked else HandedToNobody)
  }

  datatype Event =
    | Ask(client: Client, value: string, now: int)
    | Begin(client: Client, now: int)
    | Abandon(now: int)
    | Send(body: Body, now: int)
    | Finish(check: Check, listening: bool, now: int)
    | CancelledWhileVerifying(now: int)
    | VerifierPanics(now: int)

  function Step(s: Locked, e: Event): (Locked, Reply) {
    match e
    case Ask(client, value, now) => AskChallenge(s, client, value, now)
    case Begin(client, _) => BeginUnlock(s, client)
    case Abandon(_) => AbandonRead(s)
    case Send(body, now) => Submit(s, body, now)
    case Finish(check, listening, now) => FinishVerify(s, check, listening, now)
    case CancelledWhileVerifying(_) => (s, Nothing)
    case VerifierPanics(_) => if s.holder.Verifying? then (s.(holder := Idle), Failed) else (s, Nothing)
  }

  function After(s: Locked, es: seq<Event>): Locked
    decreases |es|
  {
    if es == [] then s else After(Step(s, es[0]).0, es[1..])
  }

  // ---- The failure budget ----

  /** No six failures fall within the window. */
  predicate Sparse(f: seq<int>) { forall i :: 0 <= i && i + 5 < |f| ==> f[i + 5] - f[i] >= FAILURE_WINDOW }

  predicate Ascending(f: seq<int>, now: int) {
    (forall i, j :: 0 <= i <= j < |f| ==> f[i] <= f[j]) && (forall i :: 0 <= i < |f| ==> f[i] <= now)
  }

  /** What is remembered of a key is its latest failures, and the rest have left the window. */
  predicate Remembers(kept: seq<int>, all: seq<int>, now: int) {
    |kept| <= |all| && kept == all[|all| - |kept|..]
    && forall i :: 0 <= i < |all| - |kept| ==> now - all[i] >= FAILURE_WINDOW
  }

  predicate KeyOk(keys: map<string, seq<int>>, log: map<string, seq<int>>, k: string, now: int) {
    Ascending(Of(log, k), now) && Sparse(Of(log, k)) && Remembers(Of(keys, k), Of(log, k), now)
  }

  ghost predicate KeysOk(keys: map<string, seq<int>>, log: map<string, seq<int>>, now: int) {
    forall k :: KeyOk(keys, log, k, now)
  }

  ghost predicate Sound(s: Locked, now: int) {
    && s.attempts.total <= MAX_TOTAL && KeysOk(s.attempts.keys, s.log, now)
    && (s.holder.Verifying? ==> !Exhausted(s.attempts, s.holder.key))
  }

  lemma {:induction false} RecentIsSuffix(f: seq<int>, now: int)
    requires Ascending(f, now)
    ensures Remembers(Recent(f, now), f, now)
  {
    if f != [] {
      assert Ascending(f[1..], now);
      RecentIsSuffix(f[1..], now);
      if now - f[0] < FAILURE_WINDOW {
        assert forall i :: 0 <= i < |f[1..]| ==> f[1..][i] >= f[0];
        assert Recent(f[1..], now) == f[1..];
        assert Recent(f, now) == f;
      } else {
        var r := Recent(f[1..], now);
        assert Recent(f, now) == r;
        assert f[1..][|f[1..]| - |r|..] == f[|f| - |r|..];
        forall i | 0 <= i < |f| - |r| ensures now - f[i] >= FAILURE_WINDOW {
          if i > 0 { assert f[i] == f[1..][i - 1]; }
        }
      }
    }
  }

  lemma SuffixRemembers(kept: seq<int>, all: seq<int>, was: int, now: int)
    requires Ascending(all, was) && Remembers(kept, all, was) && was <= now
    ensures Remembers(Recent(kept, now), all, now)
  {
    assert Ascending(kept, now);
    RecentIsSuffix(kept, now);
    var r := Recent(kept, now);
    assert kept[|kept| - |r|..] == all[|all| - |r|..];
    forall i | 0 <= i < |all| - |r| ensures now - all[i] >= FAILURE_WINDOW {
      if i >= |all| - |kept| { assert all[i] == kept[i - (|all| - |kept|)]; }
    }
  }

  /** A failure counted while fewer than five are remembered keeps the log sparse. */
  lemma PushKeepsSparse(kept: seq<int>, all: seq<int>, was: int, now: int)
    requires Ascending(all, was) && Sparse(all) && Remembers(kept, all, was) && was <= now && |kept| < MAX_PER_KEY
    ensures Ascending(all + [now], now) && Sparse(all + [now]) && Remembers(kept + [now], all + [now], now)
  {
    var f := all + [now];
    forall i | 0 <= i && i + 5 < |f| ensures f[i + 5] - f[i] >= FAILURE_WINDOW {
      if i + 5 < |all| { assert f[i + 5] == all[i + 5] && f[i] == all[i]; }
    }
  }

  lemma PruneKeeps(keys: map<string, seq<int>>, log: map<string, seq<int>>, was: int, now: int)
    requires KeysOk(keys, log, was) && was <= now
    ensures KeysOk(Pruned(keys, now), log, now) && KeysOk(keys, log, now)
  {
    forall k ensures KeyOk(Pruned(keys, now), log, k, now) && KeyOk(keys, log, k, now) {
      assert KeyOk(keys, log, k, was);
      SuffixRemembers(Of(keys, k), Of(log, k), was, now);
      assert Of(Pruned(keys, now), k) == Recent(Of(keys, k), now);
    }
  }

  lemma CountKeeps(keys: map<string, seq<int>>, log: map<string, seq<int>>, key: string, now: int)
    requires KeysOk(keys, log, now) && |Of(keys, key)| < MAX_PER_KEY
    ensures KeysOk(keys[key := Of(keys, key) + [now]], log[key := Of(log, key) + [now]], now)
  {
    var keys', log' := keys[key := Of(keys, key) + [now]], log[key := Of(log, key) + [now]];
    forall k ensures KeyOk(keys', log', k, now) {
      assert KeyOk(keys, log, k, now);
      if k == key { PushKeepsSparse(Of(keys, k), Of(log, k), now, now); }
    }
  }

  lemma FailKeeps(s: Locked, key: string, now: int, why: Reply)
    requires s.attempts.total <= MAX_TOTAL && KeysOk(s.attempts.keys, s.log, now) && !Exhausted(s.attempts, key)
    ensures Sound(Fail(s, key, now, why).0, now)
  {
    hide KeysOk, Pruned;
    CountKeeps(s.attempts.keys, s.log, key, now);
    PruneKeeps(Counted(s.attempts, key, now).keys, s.log[key := Of(s.log, key) + [now]], now, now);
  }

  lemma SubmitKeeps(s: Locked, b: Body, was: int, now: int)
    requires Sound(s, was) && was <= now
    ensures Sound(Submit(s, b, now).0, now)
  {
    hide Issued, Take, Fail, KeysOk, Pruned;
    PruneKeeps(s.attempts.keys, s.log, was, now);
    var u := s.(challenges := Take(s.challenges, b.challenge), holder := Idle,
                attempts := Limited(s.attempts, b.key, now).0);
    if !Exhausted(u.attempts, b.key) { FailKeeps(u, b.key, now, Failed); }
  }

  lemma StepKeeps(s: Locked, e: Event, was: int)
    requires Sound(s, was) && was <= e.now
    ensures Sound(Step(s, e).0, e.now)
  {
    hide Submit, Fail, KeysOk;
    PruneKeeps(s.attempts.keys, s.log, was, e.now);
    match e
    case Send(b, now) => SubmitKeeps(s, b, was, now);
    case Finish(check, _, now) =>
      if s.holder.Verifying? { FailKeeps(s, s.holder.key, now, if check.WrongDevice? then DeviceUnknown else Failed); }
    case _ =>
  }

  predicate Nondecreasing(es: seq<Event>, now: int)
    decreases |es|
  {
    es == [] || (now <= es[0].now && Nondecreasing(es[1..], es[0].now))
  }

  function Ends(es: seq<Event>, now: int): int { if es == [] then now else es[|es| - 1].now }

  lemma {:induction false} RunKeeps(s: Locked, es: seq<Event>, now: int)
    requires Sound(s, now) && Nondecreasing(es, now)
    ensures Sound(After(s, es), Ends(es, now))
    decreases |es|
  {
    hide Sound, Step;
    if es != [] {
      StepKeeps(s, es[0], now);
      RunKeeps(Step(s, es[0]).0, es[1..], es[0].now);
    }
  }

  function InInterval(f: seq<int>, lo: int, hi: int): nat {
    if f == [] then 0 else InInterval(f[..|f| - 1], lo, hi) + if lo <= f[|f| - 1] < hi then 1 else 0
  }

  /** In a sparse ascending log, at most the last five entries fall in an interval that ends now. */
  lemma {:induction false} SparseBoundsInterval(f: seq<int>, now: int, lo: int, hi: int)
    requires Ascending(f, now) && Sparse(f) && hi - lo <= FAILURE_WINDOW
    ensures InInterval(f, lo, hi) <= 5
  {
    if f != [] {
      var n := |f|;
      var init := f[..n - 1];
      assert Ascending(init, now) && Sparse(init);
      if f[n - 1] >= hi {
        SparseBoundsInterval(init, now, lo, hi);
      } else if n > 5 {
        assert f[n - 6 + 5] - f[n - 6] >= FAILURE_WINDOW;
        assert forall i :: 0 <= i < n - 5 ==> f[i] <= f[n - 6];
        NoneBefore(f, n - 5, lo, hi);
        assert f[..n] == f;
      } else {
        FewEntries(f, lo, hi);
      }
    }
  }

  lemma {:induction false} FewEntries(f: seq<int>, lo: int, hi: int)
    ensures InInterval(f, lo, hi) <= |f|
  {
    if f != [] { FewEntries(f[..|f| - 1], lo, hi); }
  }

  /** Entries before the interval add nothing. */
  lemma {:induction false} NoneBefore(f: seq<int>, n: nat, lo: int, hi: int)
    requires n <= |f| && forall i :: 0 <= i < n ==> f[i] < lo
    ensures InInterval(f, lo, hi) <= |f| - n
    decreases |f|
  {
    if f != [] {
      var init := f[..|f| - 1];
      if n == |f| { NoneBefore(init, n - 1, lo, hi); } else { NoneBefore(init, n, lo, hi); }
    }
  }

  function NewNode(): Locked { Locked(Idle, true, Attempts(0, map[]), map[], map[]) }

  /** Over every run: at most twenty counted failures, and at most five of one key in any fifteen minutes. */
  lemma {:induction false} FailuresAreRationed(es: seq<Event>, now: int, key: string, lo: int, hi: int)
    requires Nondecreasing(es, now) && hi - lo <= 15 * 60
    ensures After(NewNode(), es).attempts.total <= 20
    ensures InInterval(Of(After(NewNode(), es).log, key), lo, hi) <= 5
  {
    assert forall k :: KeyOk(map[], map[], k, now);
    RunKeeps(NewNode(), es, now);
    var s := After(NewNode(), es);
    assert KeyOk(s.attempts.keys, s.log, key, Ends(es, now));
    SparseBoundsInterval(Of(s.log, key), Ends(es, now), lo, hi);
  }

  // ---- Each challenge is used at most once ----

  function DrawnBy(e: Event): set<string> { if e.Ask? then {e.value} else {} }

  /** Challenges are drawn at random, never the same twice. */
  predicate NewValues(es: seq<Event>, drawn: set<string>)
    decreases |es|
  {
    es == [] || (DrawnBy(es[0]) !! drawn && NewValues(es[1..], drawn + DrawnBy(es[0])))
  }

  lemma SpentStaysSpent(s: Locked, e: Event, value: string)
    requires !Issued(s.challenges, value) && value !in DrawnBy(e)
    ensures !Issued(Step(s, e).0.challenges, value)
  {
    hide Limited, Sparse;
  }

  lemma {:induction false} SpentOverRuns(s: Locked, es: seq<Event>, drawn: set<string>, value: string)
    requires NewValues(es, drawn) && value in drawn && !Issued(s.challenges, value)
    ensures !Issued(After(s, es).challenges, value)
    decreases |es|
  {
    hide Step, Issued;
    if es != [] {
      SpentStaysSpent(s, es[0], value);
      SpentOverRuns(Step(s, es[0]).0, es[1..], drawn + DrawnBy(es[0]), value);
    }
  }

  /** A body that names a challenge ends it, accepted or not: no later body in the run can use it. */
  lemma {:induction false} ChallengeIsConsumedOnce(s: Locked, first: Body, t: int, mid: seq<Event>, second: Body,
                                                   u: int, drawn: set<string>)
    requires s.holder.Reading? && first.challenge == second.challenge && first.challenge in drawn
             && NewValues(mid, drawn)
    ensures var r := Step(After(Step(s, Send(first, t)).0, mid), Send(second, u)).1; r.Failed? || r.Nothing?
  {
    hide Limited;
    SpentOverRuns(Step(s, Send(first, t)).0, mid, drawn, first.challenge);
  }

  // ---- One handoff ----

  lemma {:induction false} HandoffStaysTaken(s: Locked, es: seq<Event>)
    requires !s.handoff && s.holder.Idle?
    ensures After(s, es) == s
    decreases |es|
  {
    if es != [] { HandoffStaysTaken(Step(s, es[0]).0, es[1..]); }
  }

  /** The password is handed over at most once, and everything after it is refused. */
  lemma {:induction false} HandoffHappensOnce(s: Locked, first: Event, mid: seq<Event>, second: Event)
    requires Step(s, first).1.Unlocked? || Step(s, first).1.HandedToNobody?
    ensures var r := Step(After(Step(s, first).0, mid), second).1;
            r.AlreadyUnlocking? || r.Nothing?
  {
    hide Submit, Limited;
    HandedOver(s, first);
    HandoffStaysTaken(Step(s, first).0, mid);
    RefusedAfterHandoff(Step(s, first).0, second);
  }

  lemma HandedOver(s: Locked, e: Event)
    requires Step(s, e).1.Unlocked? || Step(s, e).1.HandedToNobody?
    ensures !Step(s, e).0.handoff && Step(s, e).0.holder.Idle?
  {
  }

  lemma RefusedAfterHandoff(s: Locked, e: Event)
    requires !s.handoff && s.holder.Idle?
    ensures Step(s, e).1.AlreadyUnlocking? || Step(s, e).1.Nothing?
  {
  }

  // ---- The counters as the node holds them ----

  lemma {:induction false} RecentSnoc(f: seq<int>, x: int, now: int)
    ensures Recent(f + [x], now) == Recent(f, now) + if now - x < FAILURE_WINDOW then [x] else []
  {
    if f != [] {
      assert (f + [x])[1..] == f[1..] + [x];
      RecentSnoc(f[1..], x, now);
    }
  }

  /** `failures.retain(..)`. */
  method RetainRecent(f: seq<int>, now: int) returns (kept: seq<int>)
    ensures kept == Recent(f, now)
  {
    kept := [];
    for i := 0 to |f|
      invariant kept == Recent(f[..i], now)
    {
      RecentSnoc(f[..i], f[i], now);
      assert f[..i + 1] == f[..i] + [f[i]];
      if now - f[i] < FAILURE_WINDOW { kept := kept + [f[i]]; }
    }
    assert f[..|f|] == f;
  }

  lemma PrunedNothing(now: int)
    ensures Pruned(map[], now) == map[]
  {
  }

  lemma PrunedPut(keys: map<string, seq<int>>, k: string, f: seq<int>, now: int)
    requires k !in keys
    ensures Pruned(keys[k := f], now)
         == if Recent(f, now) == [] then Pruned(keys, now) else Pruned(keys, now)[k := Recent(f, now)]
  {
  }

  lemma MoveKey(done: map<string, seq<int>>, rest: map<string, seq<int>>, k: string)
    requires done.Keys !! rest.Keys && k in rest
    ensures done[k := rest[k]].Keys !! (rest - {k}).Keys && done[k := rest[k]] + (rest - {k}) == done + rest
  {
  }

  /** `keys.retain(..)`: a key with no recent failure is forgotten. */
  method RetainKeys(keys: map<string, seq<int>>, now: int) returns (kept: map<string, seq<int>>)
    ensures kept == Pruned(keys, now)
  {
    hide Pruned, Recent;
    var rest := keys;
    ghost var done: map<string, seq<int>> := map[];
    kept := map[];
    PrunedNothing(now);
    while rest != map[]
      invariant done.Keys !! rest.Keys && done + rest == keys && kept == Pruned(done, now)
      decreases |rest|
    {
      var k :| k in rest;
      var recent := RetainRecent(rest[k], now);
      PrunedPut(done, k, rest[k], now);
      MoveKey(done, rest, k);
      if recent != [] { kept := kept[k := recent]; }
      done, rest := done[k := rest[k]], rest - {k};
    }
    assert done == keys;
  }

  class Counter {
    var total: nat
    var keys: map<string, seq<int>>

    ghost function Now(): Attempts reads this { Attempts(total, keys) }

    constructor ()
      ensures Now() == Attempts(0, map[])
    {
      total, keys := 0, map[];
    }

    method IsLimited(key: string, now: int) returns (limited: bool)
      modifies `keys
      ensures (Now(), limited) == Limited(old(Now()), key, now)
    {
      hide Pruned;
      keys := RetainKeys(keys, now);
      limited := total >= MAX_TOTAL || (key in keys && |keys[key]| >= MAX_PER_KEY);
    }

    method CountFailure(key: string, now: int) returns (limited: bool)
      modifies this
      ensures (Now(), limited) == Limited(Counted(old(Now()), key, now), key, now)
    {
      total := total + 1;
      keys := keys[key := (if key in keys then keys[key] else []) + [now]];
      limited := IsLimited(key, now);
    }
  }

  class LockedNode {
    var holder: Holder
    var handoff: bool
    const counter: Counter
    var challenges: map<string, Challenge>
    ghost var log: map<string, seq<int>>

    ghost function Now(): Locked
      reads this, counter
    {
      Locked(holder, handoff, counter.Now(), challenges, log)
    }

    constructor ()
      ensures Now() == NewNode() && fresh(counter)
    {
      holder, handoff, challenges, log := Idle, true, map[], map[];
      counter := new Counter();
    }

    method AskForChallenge(client: Client, value: string, now: int) returns (r: Reply)
      modifies `challenges
      ensures (Now(), r) == AskChallenge(old(Now()), client, value, now)
    {
      if !holder.Idle? || !handoff { return AlreadyUnlocking; }
      if counter.total >= MAX_TOTAL { return RateLimited; }
      challenges := Unexpired(challenges, now);
      challenges := challenges[client.id := Challenge(value, client, now + CHALLENGE_TTL)];
      r := Given;
    }

    method TakeLock(client: Client) returns (r: Reply)
      modifies `holder
      ensures (Now(), r) == BeginUnlock(old(Now()), client)
    {
      if !holder.Idle? || !handoff { return AlreadyUnlocking; }
      holder := Reading(client);
      r := Waiting;
    }

    /** Consumes the challenge before anything else is looked at. */
    method SubmitBody(b: Body, now: int) returns (r: Reply)
      modifies this, counter
      ensures (Now(), r) == Submit(old(Now()), b, now)
    {
      hide Pruned, Limited;
      if !holder.Reading? { return Nothing; }
      var client := holder.client;
      holder := Idle;
      if !Issued(challenges, b.challenge) { return Failed; }
      var issued := challenges;
      challenges := Take(challenges, b.challenge);
      if !exists c :: c in issued && issued[c].value == b.challenge
                      && issued[c].deadline > now && issued[c].client == client {
        return Failed;
      }
      if !b.known { return DeviceUnknown; }
      var limited := counter.IsLimited(b.key, now);
      if limited { return RateLimited; }
      if !b.keyForm { return DeviceUnknown; }
      if !b.form { return Failed; }
      if !b.signature {
        limited := counter.CountFailure(b.key, now);
        log := log[b.key := Of(log, b.key) + [now]];
        return if limited then RateLimited else Failed;
      }
      holder := Verifying(b.key);
      r := Waiting;
    }

    /** The blocking check ends: a failure is counted, a success empties the one-shot slot. */
    method FinishCheck(check: Check, listening: bool, now: int) returns (r: Reply)
      modifies this, counter
      ensures (Now(), r) == FinishVerify(old(Now()), check, listening, now)
    {
      hide Pruned, Limited;
      if !holder.Verifying? { return Nothing; }
      var key := holder.key;
      holder := Idle;
      if !check.Good? {
        var limited := counter.CountFailure(key, now);
        log := log[key := Of(log, key) + [now]];
        return if limited then RateLimited else if check.WrongDevice? then DeviceUnknown else Failed;
      }
      handoff := false;
      r := if listening then Unlocked else HandedToNobody;
    }
  }
}
