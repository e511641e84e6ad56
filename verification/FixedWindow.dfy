/**
 What a fixed-window allowance guarantees for a sliding interval, whatever is being counted.
 */
module FixedWindow {

  /** A decision at `at`, in the window that began at `start`; `weight` is what was let through. */
  datatype Entry = Entry(at: int, start: int, weight: nat)

  predicate SameWindow(e: Entry, start: int, window: nat) { e.start == start && start <= e.at < start + window }

  /**
   A log of decisions: each falls in the current window, whose total stays within the allowance, or
   opens a new one. A new window opens no earlier than a full window later, except that up to
   `early` of them were opened by ending the one before.
   */
  predicate Log(es: seq<Entry>, start: int, used: nat, allowance: nat, window: nat, early: nat)
    decreases |es|
  {
    used <= allowance &&
    (es != [] ==>
       var e := es[0];
       || (SameWindow(e, start, window) && Log(es[1..], start, used + e.weight, allowance, window, early))
       || (e.start == e.at && start + window <= e.at && Log(es[1..], e.start, e.weight, allowance, window, early))
       || (e.start == e.at && start <= e.at && early > 0
           && Log(es[1..], e.start, e.weight, allowance, window, early - 1)))
  }

  lemma LogSame(e: Entry, rest: seq<Entry>, start: int, used: nat, allowance: nat, window: nat, early: nat)
    requires used <= allowance && SameWindow(e, start, window)
             && Log(rest, start, used + e.weight, allowance, window, early)
    ensures Log([e] + rest, start, used, allowance, window, early)
  {
    assert ([e] + rest)[1..] == rest;
  }

  lemma LogOpens(e: Entry, rest: seq<Entry>, start: int, used: nat, allowance: nat, window: nat, early: nat)
    requires used <= allowance && e.start == e.at && start <= e.at
             && Log(rest, e.start, e.weight, allowance, window, early)
    ensures start + window <= e.at ==> Log([e] + rest, start, used, allowance, window, early)
    ensures Log([e] + rest, start, used, allowance, window, early + 1)
  {
    assert ([e] + rest)[1..] == rest;
  }

  /** A log stays one if more windows may have been ended early. */
  lemma {:induction false} LogAllowsMore(
    es: seq<Entry>, start: int, used: nat, allowance: nat, window: nat, early: nat, more: nat)
    requires Log(es, start, used, allowance, window, early) && early <= more
    ensures Log(es, start, used, allowance, window, more)
    decreases |es|
  {
    if es != [] {
      var e := es[0];
      if SameWindow(e, start, window) && Log(es[1..], start, used + e.weight, allowance, window, early) {
        LogAllowsMore(es[1..], start, used + e.weight, allowance, window, early, more);
      } else if start + window <= e.at && Log(es[1..], e.start, e.weight, allowance, window, early) {
        LogAllowsMore(es[1..], e.start, e.weight, allowance, window, early, more);
      } else {
        LogAllowsMore(es[1..], e.start, e.weight, allowance, window, early - 1, more - 1);
      }
    }
  }

  /** What was let through in the closed interval from `lo` to `hi`. */
  function Through(es: seq<Entry>, lo: int, hi: int): nat {
    if es == [] then 0 else (if lo <= es[0].at <= hi then es[0].weight else 0) + Through(es[1..], lo, hi)
  }

  lemma {:induction false} NothingBefore(
    es: seq<Entry>, start: int, used: nat, allowance: nat, window: nat, early: nat, lo: int, hi: int)
    requires Log(es, start, used, allowance, window, early) && hi < start
    ensures Through(es, lo, hi) == 0
  {
    if es != [] {
      var e := es[0];
      if SameWindow(e, start, window) && Log(es[1..], start, used + e.weight, allowance, window, early) {
        NothingBefore(es[1..], start, used + e.weight, allowance, window, early, lo, hi);
      } else if start + window <= e.at && Log(es[1..], e.start, e.weight, allowance, window, early) {
        NothingBefore(es[1..], e.start, e.weight, allowance, window, early, lo, hi);
      } else {
        NothingBefore(es[1..], e.start, e.weight, allowance, window, early - 1, lo, hi);
      }
    }
  }

  /** What the rest of a log can still let through, by how many windows the interval reaches. */
  function Ceiling(start: int, used: nat, allowance: nat, window: nat, hi: int): nat
    requires used <= allowance
  {
    if hi < start + window then allowance - used
    else if hi < start + 2 * window then allowance - used + allowance
    else 2 * allowance
  }

  /** Opening a window a full window later stays under the ceiling; opening one at any time costs one allowance. */
  lemma OpeningIsCovered(e: Entry, start: int, used: nat, allowance: nat, window: nat, lo: int, hi: int, rest: nat)
    requires window > 0 && hi - lo <= window && start <= e.at == e.start && used <= allowance && e.weight <= allowance
    requires rest <= Ceiling(e.start, e.weight, allowance, window, hi) && (hi < e.start ==> rest == 0)
    ensures var total := (if lo <= e.at <= hi then e.weight else 0) + rest;
            && total <= Ceiling(start, used, allowance, window, hi) + allowance
            && (start + window <= e.at ==> total <= Ceiling(start, used, allowance, window, hi))
  {
  }

  function Over(rest: nat, spare: nat): nat { if rest <= spare then 0 else rest - spare }

  /** One allowance for each window ended early. */
  function Spare(early: nat, allowance: nat): nat { if early == 0 then 0 else allowance + Spare(early - 1, allowance) }

  lemma {:induction false} SpareIsProduct(early: nat, allowance: nat)
    ensures Spare(early, allowance) == early * allowance
  {
    if early > 0 { SpareIsProduct(early - 1, allowance); }
  }

  lemma {:induction false} ThroughIsBounded(
    es: seq<Entry>, start: int, used: nat, allowance: nat, window: nat, early: nat, lo: int, hi: int)
    requires window > 0 && hi - lo <= window && Log(es, start, used, allowance, window, early)
    ensures hi < start ==> Through(es, lo, hi) == 0
    ensures Through(es, lo, hi) <= Ceiling(start, used, allowance, window, hi) + Spare(early, allowance)
  {
    if hi < start { NothingBefore(es, start, used, allowance, window, early, lo, hi); }
    if es != [] {
      var e, rest := es[0], Through(es[1..], lo, hi);
      if SameWindow(e, start, window) && Log(es[1..], start, used + e.weight, allowance, window, early) {
        ThroughIsBounded(es[1..], start, used + e.weight, allowance, window, early, lo, hi);
      } else if start + window <= e.at && Log(es[1..], e.start, e.weight, allowance, window, early) {
        ThroughIsBounded(es[1..], e.start, e.weight, allowance, window, early, lo, hi);
        OpeningIsCovered(e, start, used, allowance, window, lo, hi, Over(rest, Spare(early, allowance)));
      } else {
        ThroughIsBounded(es[1..], e.start, e.weight, allowance, window, early - 1, lo, hi);
        OpeningIsCovered(e, start, used, allowance, window, lo, hi, Over(rest, Spare(early - 1, allowance)));
      }
    }
  }

  /** Any interval one window long lets through at most two allowances, and one more for each window ended early. */
  lemma TwoAllowances(es: seq<Entry>, start: int, used: nat, allowance: nat, window: nat, early: nat, lo: int, hi: int)
    requires window > 0 && hi - lo <= window && Log(es, start, used, allowance, window, early)
    ensures Through(es, lo, hi) <= (2 + early) * allowance
  {
    ThroughIsBounded(es, start, used, allowance, window, early, lo, hi);
    SpareIsProduct(early, allowance);
  }
}
