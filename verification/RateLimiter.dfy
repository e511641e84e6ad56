/**
 The per-key fixed-window request limiter, and the periodic cleanup of its stale buckets.
 */
module RateLimiter {
  import opened Common
  import opened FixedWindow

  datatype Bucket = Bucket(start: int, count: nat)

  datatype Policy = Policy(max: nat, window: nat)

  type Buckets = map<string, Bucket>

  /** `check_key` on one key's bucket. */
  function CheckBucket(p: Policy, b: Option<Bucket>, now: int): (Bucket, bool) {
    var c := match b case Some(x) => x case None => Bucket(now, 0);
    if now - c.start >= p.window then (Bucket(now, 1), true)
    else (c.(count := c.count + 1), c.count + 1 <= p.max)
  }

  function Lookup(m: Buckets, k: string): Option<Bucket> { if k in m then Some(m[k]) else None }

  function Fresh(p: Policy, m: Buckets, now: int): Buckets { map k | k in m && now - m[k].start < 2 * p.window :: m[k] }

  /** `expire_key` moves a bucket's window back by its whole length, so that the next check starts a new one. */
  function Aged(p: Policy, b: Bucket): Bucket { b.(start := b.start - p.window) }

  datatype Event = Check(key: string, at: int) | Cleanup(at: int) | Expire(key: string, at: int)

  function Step(p: Policy, m: Buckets, e: Event): (Buckets, bool) {
    match e
    case Check(k, now) => var (b, ok) := CheckBucket(p, Lookup(m, k), now); (m[k := b], ok)
    case Cleanup(now) => (Fresh(p, m, now), true)
    case Expire(k, _) => (if k in m then m[k := Aged(p, m[k])] else m, true)
  }

  /** The answers to every check, in order. */
  function Answers(p: Policy, m: Buckets, es: seq<Event>): seq<bool>
    decreases |es|
  {
    if es == [] then [] else
      var (n, ok) := Step(p, m, es[0]);
      (if es[0].Check? then [ok] else []) + Answers(p, n, es[1..])
  }

  predicate Nondecreasing(es: seq<Event>, now: int)
    decreases |es|
  {
    es == [] || (now <= es[0].at && Nondecreasing(es[1..], es[0].at))
  }

  // ---- One window ----

  /** How many checks of a key its current window has seen; none if the window is over or never began. */
  function Seen(p: Policy, m: Buckets, k: string, now: int): nat {
    if k in m && now < m[k].start + p.window then m[k].count else 0
  }

  /** A check passes exactly while its window has seen fewer than the maximum, or when it starts a new one. */
  lemma ChecksIff(p: Policy, m: Buckets, k: string, now: int)
    ensures var (n, ok) := Step(p, m, Check(k, now));
            && (ok <==> || Seen(p, m, k, now) < p.max
                        || (if k in m then m[k].start + p.window <= now else p.window == 0))
            && k in n && n[k].count == Seen(p, m, k, now) + 1
            && n[k].start == (if k in m && now < m[k].start + p.window then m[k].start else now)
            && (forall x :: x != k ==> (x in n <==> x in m) && (x in m ==> n[x] == m[x]))
  {
  }

  predicate ChecksOf(es: seq<Event>, k: string, lo: int, hi: int) {
    forall e :: e in es ==> e.Check? && e.key == k && lo <= e.at < hi
  }

  lemma {:induction false} WindowFrom(p: Policy, m: Buckets, k: string, es: seq<Event>, i: nat)
    requires k in m && ChecksOf(es, k, m[k].start, m[k].start + p.window) && i < |es|
    ensures |Answers(p, m, es)| == |es| && (Answers(p, m, es)[i] <==> m[k].count + i < p.max)
    decreases |es|
  {
    assert es[0] in es && ChecksOf(es[1..], k, m[k].start, m[k].start + p.window);
    ChecksIff(p, m, k, es[0].at);
    if |es| > 1 { WindowFrom(p, Step(p, m, es[0]).0, k, es[1..], if i > 0 then i - 1 else 0); }
  }

  /** From a key's first check on, a window lets through exactly the first `max` checks and no other. */
  lemma WindowAdmitsExactly(p: Policy, m: Buckets, k: string, es: seq<Event>, i: nat)
    requires k !in m && es != [] && ChecksOf(es, k, es[0].at, es[0].at + p.window) && i < |es|
    ensures |Answers(p, m, es)| == |es| && (Answers(p, m, es)[i] <==> i < p.max)
  {
    assert es[0] in es;
    ChecksIff(p, m, k, es[0].at);
    if |es| > 1 { WindowFrom(p, Step(p, m, es[0]).0, k, es[1..], if i > 0 then i - 1 else 0); }
  }

  // ---- Cleanup is invisible ----

  function WithoutCleanup(es: seq<Event>): seq<Event> {
    if es == [] then [] else (if es[0].Cleanup? then [] else [es[0]]) + WithoutCleanup(es[1..])
  }

  /** `m` is `n` without some buckets that have been stale for at least one more window. */
  predicate Thinned(p: Policy, m: Buckets, n: Buckets, now: int) {
    m.Keys <= n.Keys && forall k :: k in n ==> if k in m then m[k] == n[k] else now - n[k].start >= 2 * p.window
  }

  lemma {:induction false} CleanupRefines(p: Policy, m: Buckets, n: Buckets, es: seq<Event>, now: int)
    requires p.max >= 1 || p.window == 0
    requires Thinned(p, m, n, now) && Nondecreasing(es, now)
    ensures Answers(p, m, es) == Answers(p, n, WithoutCleanup(es))
    decreases |es|
  {
    if es != [] {
      var e := es[0];
      var m' := Step(p, m, e).0;
      if e.Cleanup? {
        assert WithoutCleanup(es) == WithoutCleanup(es[1..]);
        assert Answers(p, m, es) == Answers(p, m', es[1..]);
        CleanupRefines(p, m', n, es[1..], e.at);
      } else {
        var n' := Step(p, n, e).0;
        assert WithoutCleanup(es)[0] == e && WithoutCleanup(es)[1..] == WithoutCleanup(es[1..]);
        assert Thinned(p, m', n', e.at);
        CleanupRefines(p, m', n', es[1..], e.at);
      }
    }
  }

  ghost predicate CleanupNeverMatters(p: Policy) {
    forall es, now :: Nondecreasing(es, now) ==> Answers(p, map[], es) == Answers(p, map[], WithoutCleanup(es))
  }

  /** One check under a policy that allows nothing: refused in a new window, admitted after an expired one. */
  lemma OneCheck(p: Policy, t: int)
    requires p.max == 0 && p.window > 0 && p.window <= t
    ensures Answers(p, map[], [Check("k", t)]) == [false]
    ensures Answers(p, map["k" := Bucket(0, 1)], [Check("k", t)]) == [true]
  {
    var es := [Check("k", t)];
    var none: Buckets := map[];
    var one: Buckets := map["k" := Bucket(0, 1)];
    assert es[1..] == [];
    assert Answers(p, none, es) == [Step(p, none, es[0]).1] + Answers(p, Step(p, none, es[0]).0, es[1..]);
    assert Answers(p, one, es) == [Step(p, one, es[0]).1] + Answers(p, Step(p, one, es[0]).0, es[1..]);
  }

  /** With nothing allowed, an expired bucket still lets one request in, and a cleaned-up one does not. */
  lemma CleanupCanMatter(p: Policy)
    requires p.max == 0 && p.window > 0
    ensures var es := [Check("k", 0), Cleanup(2 * p.window), Check("k", 2 * p.window)];
            && Nondecreasing(es, 0)
            && Answers(p, map[], es) == [false, false] && Answers(p, map[], WithoutCleanup(es)) == [false, true]
  {
    var t := 2 * p.window;
    var es, fs := [Check("k", 0), Cleanup(t), Check("k", t)], [Check("k", 0), Check("k", t)];
    var none: Buckets := map[];
    var one: Buckets := map["k" := Bucket(0, 1)];
    assert es[1..] == [Cleanup(t), Check("k", t)] && es[1..][1..] == [Check("k", t)] && fs[1..] == [Check("k", t)];
    assert WithoutCleanup(es) == fs by {
      assert WithoutCleanup([Check("k", t)]) == [Check("k", t)];
      assert WithoutCleanup(es[1..]) == [Check("k", t)];
    }
    assert Nondecreasing([Check("k", t)], t) && Nondecreasing(es[1..], 0);
    assert Step(p, none, Check("k", 0)) == (one, false);
    assert Fresh(p, one, t) == none;
    OneCheck(p, t);
    hide Step, Fresh;
    assert Answers(p, none, fs) == [false] + Answers(p, one, fs[1..]);
    FirstCleanup(p, one, es[1..]);
    assert Answers(p, none, es) == [false] + Answers(p, one, es[1..]);
  }

  lemma FirstCleanup(p: Policy, m: Buckets, es: seq<Event>)
    requires es != [] && es[0].Cleanup?
    ensures Answers(p, m, es) == Answers(p, Fresh(p, m, es[0].at), es[1..])
  {
  }

  /** Cleaning up at arbitrary moments never changes a decision, except under a policy that allows nothing. */
  lemma CleanupNeverMattersIff(p: Policy)
    ensures CleanupNeverMatters(p) <==> p.max >= 1 || p.window == 0
  {
    if p.max >= 1 || p.window == 0 {
      forall es, now | Nondecreasing(es, now) ensures Answers(p, map[], es) == Answers(p, map[], WithoutCleanup(es)) {
        CleanupRefines(p, map[], map[], es, now);
      }
    } else {
      CleanupCanMatter(p);
    }
  }

  // ---- The interval bound ----

  /** The decisions on one key, as a log of windows. */
  function Decisions(p: Policy, m: Buckets, es: seq<Event>, k: string): seq<Entry>
    decreases |es|
  {
    if es == [] then [] else
      var (n, ok) := Step(p, m, es[0]);
      (if es[0].Check? && es[0].key == k then [Entry(es[0].at, n[k].start, if ok then 1 else 0)] else [])
      + Decisions(p, n, es[1..], k)
  }

  /** Requests admitted on `k` between `lo` and `hi`. */
  function Admitted(p: Policy, m: Buckets, es: seq<Event>, k: string, lo: int, hi: int): nat {
    Through(Decisions(p, m, es, k), lo, hi)
  }

  /** How often a run ends this key's window early. */
  function Expiries(es: seq<Event>, k: string): nat {
    if es == [] then 0 else (if es[0].Expire? && es[0].key == k then 1 else 0) + Expiries(es[1..], k)
  }

  /**
   The state of one key's window: its bucket, or a window that is over by now. `ended` says that the
   window was ended early, so the next check opens another whatever the time.
   */
  predicate Tracks(p: Policy, m: Buckets, k: string, start: int, used: nat, now: int, ended: bool) {
    if ended then start <= now && used <= p.max && (k in m ==> m[k].start + p.window <= now)
    else if k in m then m[k].start == start <= now && used == Min(m[k].count, p.max)
    else start + p.window <= now && used <= p.max
  }

  /** A check falls in the tracked window with room for what it admits, or opens the next. */
  lemma CheckIsTracked(p: Policy, m: Buckets, k: string, start: int, used: nat, now: int, at: int, ended: bool)
    requires p.max >= 1 && p.window > 0 && now <= at && Tracks(p, m, k, start, used, now, ended)
    ensures var (n, ok) := Step(p, m, Check(k, at));
            var e := Entry(at, n[k].start, if ok then 1 else 0);
            && Tracks(p, n, k, e.start, Min(n[k].count, p.max), at, false)
            && (|| (!ended && SameWindow(e, start, p.window) && Min(n[k].count, p.max) == used + e.weight)
                || (e.start == at && start <= at && (ended || start + p.window <= at)
                    && Min(n[k].count, p.max) == e.weight))
  {
  }

  /** Nothing else moves the tracked window, except that an expiry may end it. */
  lemma OthersAreTracked(p: Policy, m: Buckets, e: Event, k: string, start: int, used: nat, now: int, ended: bool)
    requires now <= e.at && Tracks(p, m, k, start, used, now, ended) && !(e.Check? && e.key == k)
    ensures Tracks(p, Step(p, m, e).0, k, start, used, e.at, ended || (e.Expire? && e.key == k && k in m))
  {
  }

  /** The decision on the first event, if it is one on this key. */
  function Decided(p: Policy, m: Buckets, e: Event, k: string): Entry
    requires e.Check? && e.key == k
  {
    var (n, ok) := Step(p, m, e);
    Entry(e.at, n[k].start, if ok then 1 else 0)
  }

  lemma FirstDecision(p: Policy, m: Buckets, es: seq<Event>, k: string)
    requires es != []
    ensures var rest := Decisions(p, Step(p, m, es[0]).0, es[1..], k);
            Decisions(p, m, es, k) == if es[0].Check? && es[0].key == k then [Decided(p, m, es[0], k)] + rest else rest
  {
  }

  lemma CheckIsLogged(p: Policy, m: Buckets, e: Event, rest: seq<Entry>, k: string, start: int, used: nat, now: int,
                      ended: bool, early: nat)
    requires p.max >= 1 && p.window > 0 && e.Check? && e.key == k && now <= e.at
    requires Tracks(p, m, k, start, used, now, ended)
    requires var n := Step(p, m, e).0; Log(rest, n[k].start, Min(n[k].count, p.max), p.max, p.window, early)
    ensures Log([Decided(p, m, e, k)] + rest, start, used, p.max, p.window, early + if ended then 1 else 0)
  {
    UsedIsWithin(p, m, k, start, used, now, ended);
    CheckIsTracked(p, m, k, start, used, now, e.at, ended);
    hide Log, Tracks;
    var n, d := Step(p, m, e).0, Decided(p, m, e, k);
    hide Step;
    if !ended && SameWindow(d, start, p.window) && Min(n[k].count, p.max) == used + d.weight {
      LogSame(d, rest, start, used, p.max, p.window, early);
    } else {
      LogOpens(d, rest, start, used, p.max, p.window, early);
    }
  }

  lemma {:induction false} DecisionsAreLogged(
    p: Policy, m: Buckets, es: seq<Event>, k: string, start: int, used: nat, now: int, ended: bool)
    requires p.max >= 1 && p.window > 0 && Nondecreasing(es, now) && Tracks(p, m, k, start, used, now, ended)
    ensures Log(Decisions(p, m, es, k), start, used, p.max, p.window, Expiries(es, k) + if ended then 1 else 0)
    decreases |es|
  {
    UsedIsWithin(p, m, k, start, used, now, ended);
    if es != [] {
      FirstDecision(p, m, es, k);
      hide Tracks, Step, Log, Decisions, Decided;
      var e := es[0];
      var n := Step(p, m, e).0;
      var rest := Decisions(p, n, es[1..], k);
      if e.Check? && e.key == k {
        CheckIsTracked(p, m, k, start, used, now, e.at, ended);
        DecisionsAreLogged(p, n, es[1..], k, n[k].start, Min(n[k].count, p.max), e.at, false);
        CheckIsLogged(p, m, e, rest, k, start, used, now, ended, Expiries(es, k));
      } else {
        var over := ended || (e.Expire? && e.key == k && k in m);
        OthersAreTracked(p, m, e, k, start, used, now, ended);
        DecisionsAreLogged(p, n, es[1..], k, start, used, e.at, over);
        LogAllowsMore(rest, start, used, p.max, p.window, Expiries(es[1..], k) + (if over then 1 else 0),
                      Expiries(es, k) + if ended then 1 else 0);
      }
    }
  }

  lemma UsedIsWithin(p: Policy, m: Buckets, k: string, start: int, used: nat, now: int, ended: bool)
    requires Tracks(p, m, k, start, used, now, ended)
    ensures used <= p.max
  {
  }

  /**
   For every mix of keys, times, cleanups and expiries, an interval one window long admits at most
   twice the maximum on any key, and once more for each time its window was ended early.
   */
  lemma {:induction false} AtMostTwicePerWindow(p: Policy, es: seq<Event>, now: int, k: string, lo: int, hi: int)
    requires Nondecreasing(es, now) && hi - lo <= p.window
    ensures p.max >= 1 && p.window > 0 ==> Admitted(p, map[], es, k, lo, hi) <= (2 + Expiries(es, k)) * p.max
  {
    if p.max >= 1 && p.window > 0 {
      DecisionsAreLogged(p, map[], es, k, now - p.window, 0, now, false);
      TwoAllowances(Decisions(p, map[], es, k), now - p.window, 0, p.max, p.window, Expiries(es, k), lo, hi);
    }
  }

  ghost predicate TwiceIsTheMost(p: Policy) {
    forall es, now, k, lo, hi :: Nondecreasing(es, now) && hi - lo <= p.window ==>
      Admitted(p, map[], es, k, lo, hi) <= (2 + Expiries(es, k)) * p.max
  }

  /** A policy that allows nothing still admits one request whenever a window has expired. */
  lemma NothingAllowedStillAdmits(p: Policy)
    requires p.max == 0 && p.window > 0
    ensures var es := [Check("k", 0), Check("k", p.window)];
            Nondecreasing(es, 0) && Expiries(es, "k") == 0 && Admitted(p, map[], es, "k", p.window, p.window) == 1
  {
    var es := [Check("k", 0), Check("k", p.window)];
    var none: Buckets := map[];
    var one: Buckets := map["k" := Bucket(0, 1)];
    assert es[1..] == [Check("k", p.window)];
    assert Step(p, none, es[0]) == (one, false);
    assert Decisions(p, one, es[1..], "k") == [Entry(p.window, p.window, 1)];
    var d := Decisions(p, none, es, "k");
    assert d == [Entry(0, 0, 0), Entry(p.window, p.window, 1)];
    assert d[1..] == [Entry(p.window, p.window, 1)];
    assert Through(d[1..], p.window, p.window) == 1;
    assert Nondecreasing(es[1..], 0) && Expiries(es[1..], "k") == 0;
  }

  /** That many checks of one key at one instant. */
  function Burst(n: nat): seq<Event> { if n == 0 then [] else [Check("k", 0)] + Burst(n - 1) }

  /** A window of no length is over at once, so every request is admitted. */
  lemma {:induction false} NoWindowAdmitsAll(p: Policy, m: Buckets, n: nat)
    requires p.window == 0 && ("k" in m ==> m["k"].start <= 0)
    ensures Nondecreasing(Burst(n), 0) && Expiries(Burst(n), "k") == 0 && Admitted(p, m, Burst(n), "k", 0, 0) == n
    decreases n
  {
    if n > 0 {
      var es := Burst(n);
      var next := Step(p, m, es[0]).0;
      assert es[0] == Check("k", 0) && es[1..] == Burst(n - 1);
      assert next["k"] == Bucket(0, 1);
      NoWindowAdmitsAll(p, next, n - 1);
      assert Decisions(p, m, es, "k")[1..] == Decisions(p, next, es[1..], "k");
    }
  }

  /** The bound holds exactly for a policy that allows something in a window that has some length. */
  lemma TwiceIsTheMostIff(p: Policy)
    ensures TwiceIsTheMost(p) <==> p.max >= 1 && p.window > 0
  {
    if p.window == 0 {
      NoWindowAdmitsAll(p, map[], 2 * p.max + 1);
      var es := Burst(2 * p.max + 1);
      assert Admitted(p, map[], es, "k", 0, 0) > (2 + Expiries(es, "k")) * p.max;
    } else if p.max == 0 {
      NothingAllowedStillAdmits(p);
    } else {
      forall es, now, k, lo, hi | Nondecreasing(es, now) && hi - lo <= p.window
        ensures Admitted(p, map[], es, k, lo, hi) <= (2 + Expiries(es, k)) * p.max
      {
        AtMostTwicePerWindow(p, es, now, k, lo, hi);
      }
    }
  }

  // ---- The limiter ----

  class Limiter {
    const policy: Policy
    var buckets: Buckets

    constructor (p: Policy)
      ensures policy == p && buckets == map[]
    {
      policy, buckets := p, map[];
    }

    method CheckKey(key: string, now: int) returns (ok: bool)
      modifies this
      ensures (buckets, ok) == Step(policy, old(buckets), Check(key, now))
    {
      ghost var before := buckets;
      if key !in buckets { buckets := buckets[key := Bucket(now, 0)]; }
      var bucket := buckets[key];
      if now - bucket.start >= policy.window {
        buckets := buckets[key := Bucket(now, 1)];
        assert buckets == before[key := Bucket(now, 1)];
        return true;
      }
      buckets := buckets[key := bucket.(count := bucket.count + 1)];
      assert buckets == before[key := bucket.(count := bucket.count + 1)];
      ok := buckets[key].count <= policy.max;
    }

    method ExpireKey(key: string, now: int)
      modifies this
      ensures buckets == Step(policy, old(buckets), Expire(key, now)).0
    {
      if key in buckets { buckets := buckets[key := buckets[key].(start := buckets[key].start - policy.window)]; }
    }

    method CleanUp(now: int)
      modifies this
      ensures buckets == Step(policy, old(buckets), Cleanup(now)).0
    {
      var rest, kept := buckets, map[];
      while rest != map[]
        invariant forall k :: k in rest ==> k in buckets && rest[k] == buckets[k]
        invariant kept == map k | k in buckets && k !in rest && now - buckets[k].start < 2 * policy.window :: buckets[k]
        decreases |rest|
      {
        var k :| k in rest;
        if now - rest[k].start < 2 * policy.window { kept := kept[k := rest[k]]; }
        rest := rest - {k};
      }
      buckets := kept;
    }
  }
}
