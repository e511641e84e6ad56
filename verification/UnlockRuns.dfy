/**
 What earns a remote unlock, over every run of the locked node: a password is handed over only for a
 check that succeeded, and a check starts only on the signed answer of a known device to a challenge
 given to the very pairing that answers, in time.
 */
module UnlockRuns {
  import opened Common
  import opened Roster
  import opened UnlockAttempts

  // ---- One step ----

  predicate HandsOver(r: Reply) { r.Unlocked? || r.HandedToNobody? }

  /** The password leaves the node exactly when a running check ends well; someone gets it exactly if they listen. */
  lemma HandsOverIff(s: Locked, e: Event)
    ensures HandsOver(Step(s, e).1) <==> e.Finish? && e.check.Good? && s.holder.Verifying?
    ensures HandsOver(Step(s, e).1) ==> (Step(s, e).1.Unlocked? <==> e.listening)
    ensures Step(s, e).0.handoff <==> s.handoff && !HandsOver(Step(s, e).1)
  {
    hide Limited, Issued, Take;
  }

  /** A challenge of this value was given to this very pairing record and has not run out. */
  predicate Stands(s: Locked, value: string, client: Client, now: int) {
    exists c :: c in s.challenges && s.challenges[c] == Challenge(value, client, s.challenges[c].deadline)
                && now < s.challenges[c].deadline
  }

  /** Fewer than twenty failures in all, and fewer than five of this key in the last fifteen minutes. */
  predicate HasRoom(s: Locked, key: string, now: int) {
    s.attempts.total < 20 && |Recent(Of(s.attempts.keys, key), now)| < 5
  }

  /** Everything a body must have before its signature is looked at. */
  predicate Answers(s: Locked, b: Body, now: int) {
    && s.holder.Reading? && Stands(s, b.challenge, s.holder.client, now)
    && b.known && b.keyForm && b.form && HasRoom(s, b.key, now)
  }

  lemma PrunedOf(keys: map<string, seq<int>>, k: string, now: int)
    ensures Of(Pruned(keys, now), k) == Recent(Of(keys, k), now)
  {
  }

  lemma StandsIff(s: Locked, value: string, client: Client, now: int)
    ensures Stands(s, value, client, now) <==>
              exists c :: c in s.challenges && s.challenges[c].value == value && s.challenges[c].deadline > now
                          && s.challenges[c].client == client
  {
    if c :| c in s.challenges && s.challenges[c].value == value && s.challenges[c].deadline > now
            && s.challenges[c].client == client {
      assert s.challenges[c] == Challenge(value, client, s.challenges[c].deadline);
    }
  }

  /** What a body does: nothing counted unless everything but the signature is right. */
  lemma SubmitShape(s: Locked, b: Body, now: int)
    requires s.holder.Reading?
    ensures var t := Submit(s, b, now).0;
            && (!Answers(s, b, now) ==> t.holder.Idle? && t.attempts.total == s.attempts.total && t.log == s.log)
            && (Answers(s, b, now) && b.signature ==>
                  t.holder == Verifying(b.key) && t.attempts.total == s.attempts.total && t.log == s.log)
            && (Answers(s, b, now) && !b.signature ==>
                  && t.holder.Idle? && t.attempts.total == s.attempts.total + 1
                  && t.log == s.log[b.key := Of(s.log, b.key) + [now]] && t.handoff == s.handoff)
  {
    PrunedOf(s.attempts.keys, b.key, now);
    StandsIff(s, b.challenge, s.holder.client, now);
    hide Recent, Pruned, Take, Stands;
  }

  /** A check of the password starts exactly for a body with everything, correctly signed. */
  lemma StartsIff(s: Locked, b: Body, now: int)
    requires !s.holder.Verifying?
    ensures Step(s, Send(b, now)).0.holder.Verifying? <==> Answers(s, b, now) && b.signature
    ensures Answers(s, b, now) && b.signature ==> Step(s, Send(b, now)).0.holder == Verifying(b.key)
  {
    if s.holder.Reading? { SubmitShape(s, b, now); }
    hide Submit, Stands, HasRoom;
  }

  /** The key a step counts a failure against: a check that did not end well, or a wrong signature. */
  function CountsAgainst(s: Locked, e: Event): Option<string> {
    if e.Finish? && s.holder.Verifying? && !e.check.Good? then Some(s.holder.key)
    else if e.Send? && Answers(s, e.body, e.now) && !e.body.signature then Some(e.body.key)
    else None
  }

  /** Exactly these steps are counted, each once: in the total and in the log of that key. */
  lemma CountedIff(s: Locked, e: Event)
    ensures match CountsAgainst(s, e)
            case None => Step(s, e).0.attempts.total == s.attempts.total && Step(s, e).0.log == s.log
            case Some(k) =>
              && Step(s, e).0.attempts.total == s.attempts.total + 1
              && Step(s, e).0.log == s.log[k := Of(s.log, k) + [e.now]]
              && Step(s, e).0.holder.Idle? && Step(s, e).0.handoff == s.handoff
  {
    if e.Send? && s.holder.Reading? {
      SubmitShape(s, e.body, e.now);
      hide Submit, Answers;
    } else {
      hide Pruned;
    }
  }

  /** What the caller hears of a counted failure: that the budget is spent, or else what was wrong. */
  lemma CountedReply(s: Locked, e: Event)
    requires CountsAgainst(s, e).Some?
    ensures Step(s, e).1 ==
              if !HasRoom(Step(s, e).0, CountsAgainst(s, e).value, e.now) then RateLimited
              else if e.Finish? && e.check.WrongDevice? then DeviceUnknown else Failed
  {
    var key := CountsAgainst(s, e).value;
    if e.Send? {
      StandsIff(s, e.body.challenge, s.holder.client, e.now);
      PrunedOf(s.attempts.keys, key, e.now);
      var u := s.(challenges := Take(s.challenges, e.body.challenge), holder := Idle,
                  attempts := s.attempts.(keys := Pruned(s.attempts.keys, e.now)));
      hide Pruned, Recent, Stands, Take;
      assert Step(s, e) == Fail(u, key, e.now, Failed);
      FailReply(u, key, e.now, Failed);
    } else {
      FailReply(s, key, e.now, if e.check.WrongDevice? then DeviceUnknown else Failed);
      hide Fail;
    }
  }

  lemma FailReply(s: Locked, key: string, now: int, why: Reply)
    ensures var (t, r) := Fail(s, key, now, why); r == if HasRoom(t, key, now) then why else RateLimited
  {
    PrunedOf(Counted(s.attempts, key, now).keys, key, now);
    RecentTwice(Of(Counted(s.attempts, key, now).keys, key), now);
    hide Pruned;
  }

  lemma {:induction false} RecentTwice(f: seq<int>, now: int)
    ensures Recent(Recent(f, now), now) == Recent(f, now)
  {
    if f != [] {
      RecentTwice(f[1..], now);
      var rest := Recent(f[1..], now);
      assert ([f[0]] + rest)[1..] == rest && [] + rest == rest;
    }
  }

  /** What the caller hears of a body that is not even counted. */
  lemma UncountedReply(s: Locked, b: Body, now: int)
    requires s.holder.Reading? && !Answers(s, b, now)
    ensures Submit(s, b, now).1 ==
              if !Stands(s, b.challenge, s.holder.client, now) then Failed
              else if !b.known then DeviceUnknown
              else if !HasRoom(s, b.key, now) then RateLimited
              else if !b.keyForm then DeviceUnknown else Failed
  {
    PrunedOf(s.attempts.keys, b.key, now);
    StandsIff(s, b.challenge, s.holder.client, now);
    hide Recent, Pruned, Take, Stands;
  }

  /** A challenge is given exactly while no unlock is under way and fewer than twenty failures are counted. */
  lemma GivenIff(s: Locked, client: Client, value: string, now: int)
    ensures var (t, r) := Step(s, Ask(client, value, now));
            && (r.Given? <==> s.holder.Idle? && s.handoff && s.attempts.total < 20)
            && (r.Given? ==> && client.id in t.challenges
                             && t.challenges[client.id] == Challenge(value, client, now + 120)
                             && forall c :: c != client.id ==>
                                  (c in t.challenges <==> c in s.challenges && now < s.challenges[c].deadline))
            && (!r.Given? ==> t == s)
  {
  }

  /** The lock is taken exactly while nobody holds it and the password is still to be handed over. */
  lemma TakenIff(s: Locked, client: Client, now: int)
    ensures var (t, r) := Step(s, Begin(client, now));
            (r.Waiting? <==> s.holder.Idle? && s.handoff) && (r.Waiting? ==> t == s.(holder := Reading(client)))
            && (!r.Waiting? ==> t == s)
  {
  }

  /** A request that ends in any way lets the lock go, unless it has just started a check. */
  lemma LockIsLetGo(s: Locked, e: Event)
    ensures e.Abandon? && s.holder.Reading? ==> Step(s, e).0 == s.(holder := Idle)
    ensures e.VerifierPanics? && s.holder.Verifying? ==> Step(s, e).0 == s.(holder := Idle)
    ensures e.CancelledWhileVerifying? ==> Step(s, e).0 == s
    ensures e.Finish? && s.holder.Verifying? ==> Step(s, e).0.holder.Idle?
    ensures e.Send? && s.holder.Reading? ==> !Step(s, e).0.holder.Reading?
  {
    hide Limited, Take, Issued;
  }

  // ---- Runs ----

  /** The `i`-th event is a complete, signed body of this key, answering its own pairing's challenge in time. */
  ghost predicate EarnedAt(key: string, h: seq<Event>, i: nat) {
    && i < |h| && h[i].Send? && h[i].body.key == key
    && h[i].body.known && h[i].body.keyForm && h[i].body.form && h[i].body.signature
    && exists client :: AskedBefore(client, h[i].body.challenge, h, i, h[i].now) && BegunBefore(client, h, i)
  }

  /** The challenge was asked for by this pairing before the `i`-th event, less than two minutes before `now`. */
  ghost predicate AskedBefore(client: Client, value: string, h: seq<Event>, i: nat, now: int) {
    exists j :: 0 <= j < i <= |h| && h[j].Ask? && h[j].client == client && h[j].value == value && now < h[j].now + 120
  }

  ghost predicate BegunBefore(client: Client, h: seq<Event>, i: nat) {
    exists j :: 0 <= j < i <= |h| && h[j].Begin? && h[j].client == client
  }

  ghost predicate Earned(key: string, h: seq<Event>) { exists i: nat :: EarnedAt(key, h, i) }

  predicate AskedAt(c: Challenge, e: Event) {
    e.Ask? && e.client == c.client && e.value == c.value && c.deadline == e.now + 120
  }

  ghost predicate Asked(c: Challenge, h: seq<Event>) {
    exists j :: 0 <= j < |h| && AskedAt(c, h[j])
  }

  /** Everything the node holds has its origin in the history. */
  ghost predicate Traced(s: Locked, h: seq<Event>) {
    && (forall c :: c in s.challenges ==> Asked(s.challenges[c], h))
    && (s.holder.Reading? ==> BegunBefore(s.holder.client, h, |h|))
    && (s.holder.Verifying? ==> Earned(s.holder.key, h))
  }

  lemma AskedLater(c: Challenge, h: seq<Event>, e: Event)
    requires Asked(c, h)
    ensures Asked(c, h + [e])
  {
    var j :| 0 <= j < |h| && AskedAt(c, h[j]);
    assert (h + [e])[j] == h[j];
  }

  lemma BegunLater(client: Client, h: seq<Event>, e: Event)
    requires BegunBefore(client, h, |h|)
    ensures BegunBefore(client, h + [e], |h|) && BegunBefore(client, h + [e], |h| + 1)
  {
    var j :| 0 <= j < |h| && h[j].Begin? && h[j].client == client;
    assert (h + [e])[j] == h[j];
  }

  lemma EarnedLater(key: string, h: seq<Event>, e: Event)
    requires Earned(key, h)
    ensures Earned(key, h + [e])
  {
    var i: nat :| EarnedAt(key, h, i);
    var g := h + [e];
    assert g[i] == h[i];
    var client :| AskedBefore(client, h[i].body.challenge, h, i, h[i].now) && BegunBefore(client, h, i);
    var j :| 0 <= j < i && h[j].Ask? && h[j].client == client && h[j].value == h[i].body.challenge
             && h[i].now < h[j].now + 120;
    assert g[j] == h[j];
    assert AskedBefore(client, g[i].body.challenge, g, i, g[i].now);
    var k :| 0 <= k < i && h[k].Begin? && h[k].client == client;
    assert g[k] == h[k];
    assert BegunBefore(client, g, i);
    assert EarnedAt(key, g, i);
  }

  lemma StartedIsEarned(s: Locked, h: seq<Event>, b: Body, now: int)
    requires Traced(s, h) && Answers(s, b, now) && b.signature
    ensures Earned(b.key, h + [Send(b, now)])
  {
    var g, client := h + [Send(b, now)], s.holder.client;
    var c :| c in s.challenges && s.challenges[c] == Challenge(b.challenge, client, s.challenges[c].deadline)
             && now < s.challenges[c].deadline;
    var d := s.challenges[c];
    assert Asked(d, h);
    var j :| 0 <= j < |h| && AskedAt(d, h[j]);
    assert g[j] == h[j];
    assert AskedBefore(client, b.challenge, g, |h|, now);
    BegunLater(client, h, Send(b, now));
    assert EarnedAt(b.key, g, |h|);
  }

  lemma ChallengesTraced(s: Locked, h: seq<Event>, e: Event)
    requires Traced(s, h)
    ensures forall c :: c in Step(s, e).0.challenges ==> Asked(Step(s, e).0.challenges[c], h + [e])
  {
    hide Limited, Asked, Earned, BegunBefore;
    forall c | c in Step(s, e).0.challenges ensures Asked(Step(s, e).0.challenges[c], h + [e]) {
      if c in s.challenges && s.challenges[c] == Step(s, e).0.challenges[c] {
        AskedLater(s.challenges[c], h, e);
      } else {
        AskedNow(h, e);
      }
    }
  }

  lemma AskedNow(h: seq<Event>, e: Event)
    ensures e.Ask? ==> Asked(Challenge(e.value, e.client, e.now + 120), h + [e])
  {
    assert (h + [e])[|h|] == e;
  }

  lemma BegunNow(h: seq<Event>, e: Event)
    ensures e.Begin? ==> BegunBefore(e.client, h + [e], |h| + 1)
  {
    assert (h + [e])[|h|] == e;
  }

  lemma StepTraced(s: Locked, h: seq<Event>, e: Event)
    requires Traced(s, h)
    ensures Traced(Step(s, e).0, h + [e])
  {
    ChallengesTraced(s, h, e);
    if s.holder.Reading? { BegunLater(s.holder.client, h, e); }
    if s.holder.Verifying? { EarnedLater(s.holder.key, h, e); }
    BegunNow(h, e);
    if e.Send? && !s.holder.Verifying? {
      StartsIff(s, e.body, e.now);
      if Answers(s, e.body, e.now) && e.body.signature { StartedIsEarned(s, h, e.body, e.now); }
    }
    hide Limited, Asked, Earned, BegunBefore, Answers, Take, Issued;
  }

  lemma {:induction false} RunTraced(s: Locked, h: seq<Event>, es: seq<Event>)
    requires Traced(s, h)
    ensures Traced(After(s, es), h + es)
    decreases |es|
  {
    hide Step, Traced;
    if es == [] {
      assert h + es == h;
    } else {
      StepTraced(s, h, es[0]);
      RunTraced(Step(s, es[0]).0, h + [es[0]], es[1..]);
      assert h + [es[0]] + es[1..] == h + es;
    }
  }

  /**
   Over every run from a locked start, the password leaves the node only when a check ends well that was
   started by a complete and correctly signed body of a known device, answering within two minutes a
   challenge that the same pairing record had asked for.
   */
  lemma {:induction false} UnlockIsEarned(es: seq<Event>, e: Event)
    ensures var s := After(NewNode(), es);
            HandsOver(Step(s, e).1) ==>
              e.Finish? && e.check.Good? && s.holder.Verifying? && Earned(s.holder.key, es)
  {
    assert Traced(NewNode(), []);
    RunTraced(NewNode(), [], es);
    assert [] + es == es;
    HandsOverIff(After(NewNode(), es), e);
  }
}
