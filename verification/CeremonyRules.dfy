/**
 What the first-run ceremony asks before it commits an identity, answer by answer and over whole runs:
 whoever finalizes is whoever began, with the password they committed to and, where words were to be
 compared, after the box's owner approved them.
 */
module CeremonyRules {
  import opened Common
  import opened FirstRunCommit
  import opened FirstRunCeremony

  // ---- Finalize ----

  /** The answer is for the pending ceremony, from the client that began it, while it lasts and setup is open. */
  predicate InCeremony(s: Ceremony, a: Answer, now: int) {
    && !s.committed && Startup(s.dir) == Bootstrap && s.failures < 3
    && (if a.password.Some? then s.owner == Remote else s.owner == Local)
    && s.pending.Some? && s.pending.value.client == a.client && s.pending.value.id == a.id
    && now < s.pending.value.createdAt + (if s.pending.value.sas.Some? then 900 else 1800)
  }

  /** Where words are compared: the same channel, in time, the same device and digest, and the owner approved. */
  predicate WordsAgree(s: Ceremony, a: Answer, now: int)
    requires s.pending.Some?
  {
    match s.pending.value.sas
    case Some(sas) =>
      && sas.approved && now < 900 && a.noise == Some(sas.binding)
      && a.version == Some(1) && a.digest == Some(sas.digest)
      && a.device == Some(Device(Some(sas.key), sas.name))
    case None => a.version.None? && a.digest.None? && !(s.owner.Remote? && a.required)
  }

  /** The password, where one is given, is the one committed to. */
  predicate PasswordRight(s: Ceremony, a: Answer)
    requires s.pending.Some?
  {
    a.password.Some? ==> !a.password.value.empty && s.pending.value.commitment == Some(a.password.value.hash)
  }

  predicate DeviceGiven(s: Ceremony, a: Answer) { a.device.Some? <==> a.enrolls || s.owner.Remote? }

  predicate HooksRun(a: Answer) { a.password.Some? ==> a.hooks }

  /** Nothing stands between the answer and the commit. */
  predicate MayCommit(s: Ceremony, a: Answer, now: int) {
    && InCeremony(s, a, now) && WordsAgree(s, a, now) && PasswordRight(s, a) && HooksRun(a)
    && DeviceGiven(s, a) && a.backup && a.deviceOk
  }

  lemma ComparedIff(s: Ceremony, a: Answer, now: int)
    requires s.pending.Some?
    ensures var p := s.pending.value;
            WordsAgree(s, a, now) && !(s.owner.Remote? && p.sas.None? && a.required) ==>
              Compared(s, p, a, now) == Checked(s, p, a)
    ensures var p := s.pending.value;
            !WordsAgree(s, a, now) && !(s.owner.Remote? && p.sas.None? && a.required) ==>
              !Compared(s, p, a, now).1.Committed? && Compared(s, p, a, now).0.answers == s.answers
  {
    hide Checked;
  }

  lemma ReachesChecked(s: Ceremony, a: Answer, now: int)
    ensures InCeremony(s, a, now) && WordsAgree(s, a, now) ==> Finalize(s, a, now) == Checked(s, s.pending.value, a)
    ensures !(InCeremony(s, a, now) && WordsAgree(s, a, now)) ==>
              !Finalize(s, a, now).1.Committed? && Finalize(s, a, now).0.answers == s.answers
              && Finalize(s, a, now).0.dir == s.dir
  {
    hide Checked, Startup;
    if s.pending.Some? { ComparedIff(s, a, now); }
  }

  /**
   A finalize commits if and only if the answer has everything and every step of the commit succeeds:
   whose ceremony it is, the words, the password, the backup and the device.
   */
  lemma CommitsIffEarned(s: Ceremony, a: Answer, now: int)
    ensures Finalize(s, a, now).1.Committed? <==> MayCommit(s, a, now) && Commit(s.dir, a.attempt).1.Committed?
  {
    ReachesChecked(s, a, now);
    hide Finalize, Commit, InCeremony, WordsAgree;
  }

  /** When it does not get that far, the identity on disk is untouched; when it does, it is exactly the attempt's. */
  lemma OnlyEarnedTouchesDisk(s: Ceremony, a: Answer, now: int)
    ensures Finalize(s, a, now).0.dir == if MayCommit(s, a, now) then Commit(s.dir, a.attempt).0 else s.dir
  {
    ReachesChecked(s, a, now);
    hide Finalize, Commit, InCeremony, WordsAgree;
  }

  /** A wrong password, or with the right one a backup that does not match. */
  predicate AnswersWrong(s: Ceremony, a: Answer, now: int) {
    && InCeremony(s, a, now) && WordsAgree(s, a, now)
    && (|| (a.password.Some? && !a.password.value.empty && s.pending.value.commitment.Some?
            && s.pending.value.commitment.value != a.password.value.hash)
        || (PasswordRight(s, a) && HooksRun(a) && DeviceGiven(s, a) && !a.backup))
  }

  /** Exactly these are counted, one each, against the ceremony they were given in; the third ends it. */
  lemma WrongIsCountedOnce(s: Ceremony, a: Answer, now: int)
    requires s.pending.Some? ==> Answers(s, s.pending.value.id) == s.pending.value.wrong
    ensures var t := Finalize(s, a, now).0;
            && (!AnswersWrong(s, a, now) ==> t.answers == s.answers)
            && (AnswersWrong(s, a, now) ==>
                  && t.answers == s.answers[a.id := Answers(s, a.id) + 1] && t.dir == s.dir
                  && (t.pending.Some? <==> Answers(t, a.id) < 3))
  {
    ReachesChecked(s, a, now);
    assert InCeremony(s, a, now) ==> s.pending.Some? && s.pending.value.id == a.id;
    hide Finalize, Commit, InCeremony, WordsAgree;
  }

  /** From a complete answer on, the ceremony is over, whether the commit then succeeds or not. */
  lemma EarnedEndsTheCeremony(s: Ceremony, a: Answer, now: int)
    ensures MayCommit(s, a, now) ==> Finalize(s, a, now).0.pending.None?
  {
    ReachesChecked(s, a, now);
    hide Finalize, Commit, InCeremony, WordsAgree;
  }

  // ---- Failures ----

  /** The words were compared in time over the right channel, and did not agree. */
  predicate Miscompares(s: Ceremony, a: Answer, now: int) {
    && InCeremony(s, a, now) && s.pending.value.sas.Some? && now < 900
    && var sas := s.pending.value.sas.value;
       && a.noise == Some(sas.binding)
       && !(a.version == Some(1) && a.digest == Some(sas.digest) && a.device == Some(Device(Some(sas.key), sas.name)))
  }

  /**
   The steps that use up one of the process's three failures: a failed comparison, the third wrong answer
   in a compared ceremony, giving up a comparison, and cancelling on the setup page.
   */
  predicate UsesOneUp(s: Ceremony, e: Event) {
    match e
    case FinalizeIt(a, now) =>
      Miscompares(s, a, now) || (AnswersWrong(s, a, now) && s.pending.value.wrong >= 2 && s.pending.value.sas.Some?)
    case CancelIt(client, id, now) => Cancel(s, client, id, now).1.Cancelled? && Comparisons(s) == 1
    case PageCancelIt(now) => s.owner.Remote? && !s.committed && now < 900 && s.failures < 3
    case _ => false
  }

  lemma FinalizeFailures(s: Ceremony, a: Answer, now: int)
    ensures Finalize(s, a, now).0.failures == s.failures + if UsesOneUp(s, FinalizeIt(a, now)) then 1 else 0
  {
    hide Startup, Commit;
  }

  lemma FailuresCountedIff(s: Ceremony, e: Event)
    ensures Step(s, e).0.failures == s.failures + if UsesOneUp(s, e) then 1 else 0
  {
    match e
    case FinalizeIt(a, now) => FinalizeFailures(s, a, now);
    case CancelIt(client, id, now) => CancelsIff(s, client, id, now);
    case BeginIt(b, now) => BeginsIff(s, b, now);
    case _ => hide Startup, Commit;
  }

  /** The process remembers exactly the commits it made. */
  lemma CommittedIsRemembered(s: Ceremony, e: Event)
    ensures Step(s, e).0.committed <==> s.committed || Step(s, e).1.Committed?
  {
    hide Startup, Commit, SasMatches;
  }

  /** Setup is open to this answer and the pending ceremony is this client's. */
  predicate Reaches(s: Ceremony, a: Answer) {
    && !s.committed && Startup(s.dir) == Bootstrap && (if a.password.Some? then s.owner == Remote else s.owner == Local)
    && s.pending.Some? && s.pending.value.client == a.client
  }

  /** An answer ends the ceremony exactly if it is complete, miscompares, is the third wrong one, or comes too late. */
  lemma FinalizeEndsIff(s: Ceremony, a: Answer, now: int)
    requires s.pending.Some?
    ensures var p := s.pending.value;
            Finalize(s, a, now).0.pending.None? <==>
              || MayCommit(s, a, now) || Miscompares(s, a, now) || (AnswersWrong(s, a, now) && p.wrong >= 2)
              || (Reaches(s, a) && HasExpired(p, now))
              || (InCeremony(s, a, now) && p.sas.Some? && a.noise == Some(p.sas.value.binding) && now >= 900)
  {
    hide Startup, Commit;
  }

  // ---- The other requests ----

  predicate HasExpired(p: Pending, now: int) { now >= p.createdAt + (if p.sas.Some? then 900 else 1800) }

  /** A ceremony begins exactly when setup is open to this kind of owner, none is under way, and its terms are met. */
  lemma BeginsIff(s: Ceremony, b: Start, now: int)
    ensures var (t, r) := Begin(s, b, now);
            && (r.Started? <==>
                  && !s.committed && Startup(s.dir) == Bootstrap && s.failures < 3
                  && (if b.commitment.Some? then s.owner == Remote && b.listed && (b.required ==> b.sas.Some?)
                      else s.owner == Local)
                  && (s.pending.Some? ==> HasExpired(s.pending.value, now))
                  && (b.sas.Some? ==> now < 900 && b.claim))
            && (r.Started? ==>
                  && t.pending.Some? && t.pending.value.id == b.id && t.pending.value.client == b.client
                  && t.pending.value.createdAt == now && t.pending.value.wrong == 0
                  && t.pending.value.commitment == b.commitment
                  && (t.pending.value.sas.Some? <==> b.sas.Some?)
                  && (b.sas.Some? ==> t.pending.value.sas.value == b.sas.value.(approved := false)))
            && t.dir == s.dir && t.answers == s.answers && t.failures == s.failures
  {
    hide Startup;
  }

  /** Words are approved only on the setup page, for the pending ceremony that has them, while both last. */
  lemma ApprovesIff(s: Ceremony, id: string, words: bool, now: int)
    ensures var (t, r) := PageApprove(s, id, words, now);
            && (r.Approved? <==>
                  && s.owner.Remote? && !s.committed && now < 900 && s.failures < 3 && words
                  && s.pending.Some? && s.pending.value.id == id && s.pending.value.sas.Some?
                  && !HasExpired(s.pending.value, now))
            && (r.Approved? ==>
                  t == s.(pending := Some(s.pending.value.(sas := Some(s.pending.value.sas.value.(approved := true))))))
            && (!r.Approved? ==> t == s)
  {
  }

  /** Cancelling ends only one's own ceremony; giving up a comparison counts as a failure. */
  lemma CancelsIff(s: Ceremony, client: string, id: string, now: int)
    ensures var (t, r) := Cancel(s, client, id, now);
            && (r.Cancelled? <==>
                  && !s.committed && Startup(s.dir) == Bootstrap
                  && (s.pending.Some? ==> && s.pending.value.client == client && !HasExpired(s.pending.value, now)
                                          && (id == "current" || id == s.pending.value.id)))
            && (r.Cancelled? ==> t.pending.None? && t.failures == s.failures + Comparisons(s))
            && (!r.Cancelled? ==> t.failures == s.failures && (t.pending == s.pending || r.Expired?))
            && t.dir == s.dir && t.answers == s.answers
  {
    hide Startup;
  }

  function Comparisons(s: Ceremony): nat { if s.pending.Some? && s.pending.value.sas.Some? then 1 else 0 }

  /** The legacy commit is for a node without a remote owner and without a ceremony under way. */
  lemma TransitsIff(s: Ceremony, a: Attempt, now: int)
    ensures Transition(s, a, now).1.Committed? <==>
              && !s.owner.Remote? && !s.committed && Startup(s.dir) == Bootstrap
              && (s.pending.Some? ==> HasExpired(s.pending.value, now)) && Commit(s.dir, a).1.Committed?
  {
    hide Startup, Commit;
  }

  // ---- Runs ----

  /** The ceremony was begun by this event; only the owner's approval and wrong answers were added to it. */
  predicate BegunBy(p: Pending, e: Event) {
    && e.BeginIt? && e.b.id == p.id && e.b.client == p.client && e.now == p.createdAt && e.b.commitment == p.commitment
    && (e.b.commitment.Some? ==> e.b.listed) && (p.sas.Some? <==> e.b.sas.Some?)
    && (p.sas.Some? ==> p.sas.value.(approved := false) == e.b.sas.value.(approved := false))
  }

  predicate ApprovedBy(id: string, e: Event) { e.PageApproveIt? && e.id == id && e.words }

  ghost predicate Traced(s: Ceremony, h: seq<Event>) {
    s.pending.Some? ==>
      && (exists e :: e in h && BegunBy(s.pending.value, e))
      && (s.pending.value.sas.Some? && s.pending.value.sas.value.approved ==>
            exists e :: e in h && ApprovedBy(s.pending.value.id, e))
  }

  /** What a step does to the pending ceremony: it goes, stays but for its count, is approved, or is new. */
  lemma PendingAfter(s: Ceremony, e: Event)
    ensures var p := Step(s, e).0.pending;
            p.Some? ==>
              || (&& s.pending.Some? && p.value.(wrong := 0) == s.pending.value.(wrong := 0))
              || (&& e.PageApproveIt? && e.words && s.pending.Some? && s.pending.value.sas.Some? && e.id == p.value.id
                  && p.value == s.pending.value.(sas := Some(s.pending.value.sas.value.(approved := true))))
              || (&& BegunBy(p.value, e) && (p.value.sas.Some? ==> !p.value.sas.value.approved))
  {
    hide Startup, Commit, SasMatches;
  }

  lemma StepTraced(s: Ceremony, h: seq<Event>, e: Event)
    requires Traced(s, h)
    ensures Traced(Step(s, e).0, h + [e])
  {
    PendingAfter(s, e);
    hide Step;
    assert e in h + [e] && forall x :: x in h ==> x in h + [e];
    var p := Step(s, e).0.pending;
    if p.Some? && !BegunBy(p.value, e) {
      var x :| x in h && BegunBy(s.pending.value, x);
      assert BegunBy(p.value, x);
      if p.value.sas.Some? && p.value.sas.value.approved && !ApprovedBy(p.value.id, e) {
        var y :| y in h && ApprovedBy(s.pending.value.id, y);
        assert ApprovedBy(p.value.id, y);
      }
    }
  }

  lemma {:induction false} RunTraced(s: Ceremony, h: seq<Event>, es: seq<Event>)
    requires Traced(s, h)
    ensures Traced(FirstRunCeremony.After(s, es), h + es)
    decreases |es|
  {
    hide Step, Traced;
    if es == [] {
      assert h + es == h;
    } else {
      StepTraced(s, h, es[0]);
      RunTraced(Step(s, es[0]).0, h + [es[0]], es[1..]);
      assert h + [es[0]] + es[1..] == h + es;
    }
  }

  /** The identity is committed by whoever began the ceremony, to whose commitment the password answers. */
  predicate Answered(e: Event, a: Answer) {
    && e.BeginIt? && e.b.id == a.id && e.b.client == a.client
    && (a.password.Some? ==> e.b.listed && e.b.commitment == Some(a.password.value.hash))
    && (e.b.sas.Some? ==> && a.noise == Some(e.b.sas.value.binding) && a.digest == Some(e.b.sas.value.digest)
                          && a.device == Some(Device(Some(e.b.sas.value.key), e.b.sas.value.name)))
  }

  /**
   Over every run of a fresh process, a finalize that commits answers a ceremony begun earlier in the
   run by the same client, with the password that client committed to then; if words were to be compared,
   the same device and channel answer, and the owner approved them on the setup page in between.
   */
  lemma {:induction false} CommitIsEarned(owner: Owner, d: Dir, es: seq<Event>, a: Answer, now: int)
    ensures var s := FirstRunCeremony.After(Ceremony(owner, d, false, None, 0, 0, map[]), es);
            Finalize(s, a, now).1.Committed? ==>
              && s.pending.Some?
              && (exists e :: e in es && Answered(e, a))
              && (s.pending.value.sas.Some? ==> exists e :: e in es && ApprovedBy(a.id, e))
  {
    var s0 := Ceremony(owner, d, false, None, 0, 0, map[]);
    var s := FirstRunCeremony.After(s0, es);
    RunTraced(s0, [], es);
    assert [] + es == es;
    CommitsIffEarned(s, a, now);
    if Finalize(s, a, now).1.Committed? {
      hide Finalize, FirstRunCeremony.After;
      var e :| e in es && BegunBy(s.pending.value, e);
      assert Answered(e, a);
    }
  }
}
