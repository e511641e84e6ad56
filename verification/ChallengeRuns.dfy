/**
 When a token challenge is given, when it is honoured, and for whom, over every run: a challenge is
 redeemed only by the client it was given to, within two minutes of that.
 */
module ChallengeRuns {
  import opened Common
  import opened TokenChallenges

  // ---- One step ----

  function LiveOnes(d: Desk, at: int): set<string> { set c | c in d.challenges && at < d.challenges[c].expires }

  function OwnOnes(d: Desk, who: ClientId, at: int): set<string> {
    set c | c in d.challenges && at < d.challenges[c].expires && d.challenges[c].owner == who
  }

  /** There is room: fewer than 128 live challenges, or eight of this client's own, one of which will go. */
  predicate HasRoom(d: Desk, who: ClientId, at: int) { |OwnOnes(d, who, at)| >= 8 || |LiveOnes(d, at)| < 128 }

  lemma RoomIff(d: Desk, who: ClientId, victim: string, nonce: string, at: int)
    ensures Allocated(d.challenges, who, victim, nonce, at).Some? <==> HasRoom(d, who, at)
  {
    assert OwnedBy(Unexpired(d.challenges, at), who) == OwnOnes(d, who, at);
    assert Unexpired(d.challenges, at).Keys == LiveOnes(d, at);
  }

  /** A redemption succeeds exactly for the client the challenge was given to, before it runs out. */
  lemma RedeemsIff(d: Desk, c: string, client: ClientId, at: int)
    ensures var (e, ok) := Step(d, Redeem(c, client, at));
            && (ok <==> c in d.challenges && d.challenges[c].owner == client && at < d.challenges[c].expires)
            && e.proofs == d.proofs && forall x :: x in e.challenges <==> x in d.challenges && x != c
  {
  }

  /** A challenge is given exactly to a known client while there is room, for two minutes. */
  lemma IssuesIff(d: Desk, who: ClientId, known: bool, victim: string, nonce: string, at: int)
    ensures var (e, ok) := Step(d, Issue(who, known, victim, nonce, at));
            && (ok <==> known && HasRoom(d, who, at))
            && (ok ==> nonce in e.challenges && e.challenges[nonce] == Slot(who, at + 120))
            && e.proofs == d.proofs
  {
    RoomIff(d, who, victim, nonce, at);
  }

  /** Revoking a client ends its challenges and no other. */
  lemma RevokesIts(d: Desk, client: ClientId, c: string)
    ensures var e := Step(d, Revoke(client)).0;
            && (c in e.challenges <==> c in d.challenges && d.challenges[c].owner != client)
            && (c in e.challenges ==> e.challenges[c] == d.challenges[c]) && e.proofs == d.proofs
  {
  }

  /** The proofs spent that may still be replayed now. */
  function Fresh(d: Desk, wall: int): set<Proof> { set p | p in d.proofs && Recent(p, wall) }

  function FreshOf(d: Desk, who: ClientId, wall: int): set<Proof> {
    set p | p in d.proofs && Recent(p, wall) && p.client == who
  }

  /** A local proof earns a challenge exactly if it is timely, not spent, stands, and both memos have room. */
  lemma LocalIff(d: Desk, p: Proof, current: bool, victim: string, nonce: string, wall: int, at: int)
    ensures var (e, ok) := Step(d, Local(p, current, victim, nonce, wall, at));
            && (ok <==>
                  && wall - 30 <= p.timestamp <= wall + 30 && current && p !in Fresh(d, wall)
                  && |Fresh(d, wall)| < 4096 && |FreshOf(d, p.client, wall)| < 128 && HasRoom(d, p.client, at))
            && (ok ==> nonce in e.challenges && e.challenges[nonce] == Slot(p.client, at + 120) && p in e.proofs)
  {
    RoomIff(d, p.client, victim, nonce, at);
    assert RecentProofs(d.proofs, wall) == Fresh(d, wall);
    assert ProofsOf(RecentProofs(d.proofs, wall), p.client) == FreshOf(d, p.client, wall);
  }

  // ---- Runs ----

  /** The event gave this challenge to this client at this time. */
  predicate GaveAt(e: Event, c: string, s: Slot) {
    || (e.Issue? && e.known && e.nonce == c && e.client == s.owner && s.expires == e.at + 120)
    || (e.Local? && e.current && e.nonce == c && e.proof.client == s.owner && s.expires == e.at + 120)
  }

  ghost predicate Given(c: string, s: Slot, h: seq<Event>) { exists e :: e in h && GaveAt(e, c, s) }

  ghost predicate Traced(d: Desk, h: seq<Event>) { forall c :: c in d.challenges ==> Given(c, d.challenges[c], h) }

  lemma SlotAfter(d: Desk, e: Event, c: string)
    ensures var m := Step(d, e).0.challenges;
            c in m ==> (c in d.challenges && m[c] == d.challenges[c]) || GaveAt(e, c, m[c])
  {
  }

  lemma StepTraced(d: Desk, h: seq<Event>, e: Event)
    requires Traced(d, h)
    ensures Traced(Step(d, e).0, h + [e])
  {
    hide Step, GaveAt;
    assert e in h + [e] && forall x :: x in h ==> x in h + [e];
    forall c | c in Step(d, e).0.challenges ensures Given(c, Step(d, e).0.challenges[c], h + [e]) {
      SlotAfter(d, e, c);
      if !GaveAt(e, c, Step(d, e).0.challenges[c]) {
        assert Given(c, d.challenges[c], h);
        var x :| x in h && GaveAt(x, c, d.challenges[c]);
        assert x in h + [e];
      }
    }
  }

  lemma {:induction false} RunTraced(d: Desk, h: seq<Event>, es: seq<Event>)
    requires Traced(d, h)
    ensures Traced(After(d, es), h + es)
    decreases |es|
  {
    hide Step, Traced;
    if es == [] {
      assert h + es == h;
    } else {
      StepTraced(d, h, es[0]);
      RunTraced(Step(d, es[0]).0, h + [es[0]], es[1..]);
      assert h + [es[0]] + es[1..] == h + es;
    }
  }

  /** Over every run a challenge is honoured only for the client it was given to, less than two minutes before. */
  lemma {:induction false} RedemptionIsEarned(es: seq<Event>, c: string, client: ClientId, at: int)
    ensures var d := After(Desk(map[], {}), es);
            Step(d, Redeem(c, client, at)).1 ==>
              exists e, t :: e in es && GaveAt(e, c, Slot(client, t)) && at < t
  {
    RunTraced(Desk(map[], {}), [], es);
    assert [] + es == es;
    var d := After(Desk(map[], {}), es);
    RedeemsIff(d, c, client, at);
    if Step(d, Redeem(c, client, at)).1 {
      assert Given(c, d.challenges[c], es);
      var e :| e in es && GaveAt(e, c, d.challenges[c]);
      assert GaveAt(e, c, Slot(client, d.challenges[c].expires));
    }
  }
}
