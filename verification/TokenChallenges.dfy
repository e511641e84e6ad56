/**
 Token challenges and the memo of local proofs already spent. The wall clock dates proofs, a
 monotonic clock dates challenges; both are parameters, as are the random nonces.
 */
module TokenChallenges {
  import opened Common

  type ClientId = string

  const CHALLENGE_TTL: int := 120
  const MAX_CHALLENGES: nat := 128
  const MAX_PER_CLIENT: nat := 8
  const MAX_PROOFS: nat := 4096
  const MAX_PROOFS_PER_CLIENT: nat := 128
  const PROOF_WINDOW: int := 30
  const I64_MAX: int := 0x7FFF_FFFF_FFFF_FFFF

  datatype Slot = Slot(owner: ClientId, expires: int)

  /** A signature over one client id and one timestamp. */
  datatype Proof = Proof(client: ClientId, timestamp: int, signature: string)

  type Challenges = map<string, Slot>

  // ---- Allocation ----

  function Unexpired(m: Challenges, at: int): Challenges { map c | c in m && m[c].expires > at :: m[c] }

  function OwnedBy(m: Challenges, who: ClientId): set<string> { set c | c in m && m[c].owner == who }

  predicate IsOldest(m: Challenges, who: ClientId, c: string) {
    c in OwnedBy(m, who) && forall d :: d in OwnedBy(m, who) ==> m[c].expires <= m[d].expires
  }

  /** A client at its own limit replaces its oldest challenge, even when the map is full. */
  function Allocated(m: Challenges, who: ClientId, victim: string, nonce: string, at: int): Option<Challenges> {
    var live := Unexpired(m, at);
    if |OwnedBy(live, who)| >= MAX_PER_CLIENT then Some((live - {victim})[nonce := Slot(who, at + CHALLENGE_TTL)])
    else if |live| >= MAX_CHALLENGES then None
    else Some(live[nonce := Slot(who, at + CHALLENGE_TTL)])
  }

  predicate VictimOk(m: Challenges, who: ClientId, victim: string, at: int) {
    var live := Unexpired(m, at);
    |OwnedBy(live, who)| >= MAX_PER_CLIENT ==> IsOldest(live, who, victim)
  }

  ghost predicate Bounded(m: Challenges) {
    |m| <= MAX_CHALLENGES && forall who :: |OwnedBy(m, who)| <= MAX_PER_CLIENT
  }

  lemma SubsetCount<T>(a: set<T>, b: set<T>)
    requires a <= b
    ensures |a| <= |b|
  {
    assert b == a + (b - a);
  }

  lemma SubmapBounded(m: Challenges, n: Challenges)
    requires Bounded(m) && n.Keys <= m.Keys && forall c :: c in n ==> n[c] == m[c]
    ensures Bounded(n)
  {
    SubsetCount(n.Keys, m.Keys);
    forall who ensures |OwnedBy(n, who)| <= MAX_PER_CLIENT { SubsetCount(OwnedBy(n, who), OwnedBy(m, who)); }
  }

  lemma OwnedInsert(m: Challenges, who: ClientId, nonce: string, expires: int, x: ClientId)
    requires nonce !in m
    ensures |OwnedBy(m[nonce := Slot(who, expires)], x)| == |OwnedBy(m, x)| + (if x == who then 1 else 0)
  {
    var n := m[nonce := Slot(who, expires)];
    if x == who {
      assert OwnedBy(n, x) == OwnedBy(m, x) + {nonce};
    } else {
      assert OwnedBy(n, x) == OwnedBy(m, x);
    }
  }

  lemma InsertBounded(m: Challenges, who: ClientId, nonce: string, expires: int)
    requires Bounded(m) && nonce !in m && |m| < MAX_CHALLENGES && |OwnedBy(m, who)| < MAX_PER_CLIENT
    ensures Bounded(m[nonce := Slot(who, expires)])
  {
    var n := m[nonce := Slot(who, expires)];
    assert n.Keys == m.Keys + {nonce};
    forall x ensures |OwnedBy(n, x)| <= MAX_PER_CLIENT { OwnedInsert(m, who, nonce, expires, x); }
  }

  /** What a fair allocation leaves: both bounds, the new challenge, everyone else's live ones, and no strangers. */
  ghost predicate Fair(m: Challenges, n: Challenges, who: ClientId, nonce: string, at: int) {
    && Bounded(n) && nonce in n && n[nonce] == Slot(who, at + CHALLENGE_TTL)
    && (forall c :: c in m && m[c].expires > at && m[c].owner != who ==> c in n && n[c] == m[c])
    && (forall c :: c in n && c != nonce ==> c in m && n[c] == m[c])
  }

  lemma ReplacementIsFair(m: Challenges, who: ClientId, victim: string, nonce: string, at: int)
    requires Bounded(m) && nonce !in m && IsOldest(Unexpired(m, at), who, victim)
    ensures Fair(m, (Unexpired(m, at) - {victim})[nonce := Slot(who, at + CHALLENGE_TTL)], who, nonce, at)
  {
    var live := Unexpired(m, at);
    var rest := live - {victim};
    OneFewer(live, who, victim, m);
    hide Bounded, IsOldest;
    InsertBounded(rest, who, nonce, at + CHALLENGE_TTL);
  }

  /** Giving up one's own challenge makes room for another. */
  lemma OneFewer(live: Challenges, who: ClientId, victim: string, m: Challenges)
    requires Bounded(m) && live.Keys <= m.Keys && (forall c :: c in live ==> live[c] == m[c])
             && victim in OwnedBy(live, who)
    ensures var rest := live - {victim};
            Bounded(rest) && |rest| < MAX_CHALLENGES && |OwnedBy(rest, who)| < MAX_PER_CLIENT
  {
    var rest := live - {victim};
    SubmapBounded(m, live);
    SubmapBounded(m, rest);
    assert live.Keys == rest.Keys + {victim};
    assert OwnedBy(live, who) == OwnedBy(rest, who) + {victim};
  }

  lemma AdditionIsFair(m: Challenges, who: ClientId, nonce: string, at: int)
    requires Bounded(m) && nonce !in m
    requires var live := Unexpired(m, at); |OwnedBy(live, who)| < MAX_PER_CLIENT && |live| < MAX_CHALLENGES
    ensures Fair(m, Unexpired(m, at)[nonce := Slot(who, at + CHALLENGE_TTL)], who, nonce, at)
  {
    hide Bounded;
    SubmapBounded(m, Unexpired(m, at));
    InsertBounded(Unexpired(m, at), who, nonce, at + CHALLENGE_TTL);
  }

  /** Allocation keeps both bounds and touches no other client's live challenge. */
  lemma AllocationIsFair(m: Challenges, who: ClientId, victim: string, nonce: string, at: int)
    requires Bounded(m) && nonce !in m && VictimOk(m, who, victim, at)
    ensures var n := Allocated(m, who, victim, nonce, at); n.Some? ==> Fair(m, n.value, who, nonce, at)
  {
    hide Bounded, Fair, IsOldest, Unexpired, OwnedBy;
    var live := Unexpired(m, at);
    if |OwnedBy(live, who)| >= MAX_PER_CLIENT {
      ReplacementIsFair(m, who, victim, nonce, at);
    } else if |live| < MAX_CHALLENGES {
      AdditionIsFair(m, who, nonce, at);
    }
  }

  // ---- Proofs ----

  predicate InWindow(p: Proof, now: int) { -PROOF_WINDOW <= now - p.timestamp <= PROOF_WINDOW }

  /** Kept while its timestamp could still be accepted; the sum saturates at the 64-bit maximum. */
  predicate Recent(p: Proof, now: int) { Min(p.timestamp + PROOF_WINDOW, I64_MAX) >= now }

  function RecentProofs(ps: set<Proof>, now: int): set<Proof> { set p | p in ps && Recent(p, now) }

  function ProofsOf(ps: set<Proof>, who: ClientId): set<Proof> { set p | p in ps && p.client == who }

  /** The decision on a proof, given the recent ones already spent. */
  function MaySpend(recent: set<Proof>, p: Proof): bool {
    p !in recent && |recent| < MAX_PROOFS && |ProofsOf(recent, p.client)| < MAX_PROOFS_PER_CLIENT
  }

  // ---- The desk ----

  datatype Desk = Desk(challenges: Challenges, proofs: set<Proof>)

  /**
   `known`: the client is paired. `current`: the pairing the proof was checked against still
   stands. `wall` and `at` are the two clocks.
   */
  datatype Event =
    | Issue(client: ClientId, known: bool, victim: string, nonce: string, at: int)
    | Local(proof: Proof, current: bool, victim: string, nonce: string, wall: int, at: int)
    | Redeem(challenge: string, client: ClientId, at: int)
    | Revoke(client: ClientId)

  function Step(d: Desk, e: Event): (Desk, bool) {
    match e
    case Issue(client, known, victim, nonce, at) =>
      if !known then (d, false) else
        var n := Allocated(d.challenges, client, victim, nonce, at);
        if n.None? then (d.(challenges := Unexpired(d.challenges, at)), false) else (d.(challenges := n.value), true)
    case Local(p, current, victim, nonce, wall, at) =>
      if !InWindow(p, wall) || !current then (d, false) else
        var recent := RecentProofs(d.proofs, wall);
        if !MaySpend(recent, p) then (d.(proofs := recent), false) else
          var n := Allocated(d.challenges, p.client, victim, nonce, at);
          if n.None? then (Desk(Unexpired(d.challenges, at), recent), false) else (Desk(n.value, recent + {p}), true)
    case Redeem(challenge, client, at) =>
      if challenge !in d.challenges then (d, false) else
        (d.(challenges := d.challenges - {challenge}),
         d.challenges[challenge].expires > at && d.challenges[challenge].owner == client)
    case Revoke(client) =>
      (d.(challenges := map c | c in d.challenges && d.challenges[c].owner != client :: d.challenges[c]), true)
  }

  function After(d: Desk, es: seq<Event>): Desk
    decreases |es|
  {
    if es == [] then d else After(Step(d, es[0]).0, es[1..])
  }

  predicate Draws(e: Event) { e.Issue? || e.Local? }

  function WallOf(e: Event, last: int): int { if e.Local? then e.wall else last }

  function DrawnBy(e: Event): set<string> { if Draws(e) then {e.nonce} else {} }

  function DrawnAfter(drawn: set<string>, es: seq<Event>): set<string>
    decreases |es|
  {
    if es == [] then drawn else DrawnAfter(drawn + DrawnBy(es[0]), es[1..])
  }

  /** Nonces are new, evictions pick an oldest challenge, and the wall clock does not go back. */
  predicate Legal(d: Desk, e: Event, last: int, drawn: set<string>) {
    match e
    case Issue(client, _, victim, nonce, at) => nonce !in drawn && VictimOk(d.challenges, client, victim, at)
    case Local(p, _, victim, nonce, wall, at) =>
      nonce !in drawn && last <= wall <= I64_MAX && VictimOk(d.challenges, p.client, victim, at)
    case _ => true
  }

  predicate LegalRun(d: Desk, es: seq<Event>, last: int, drawn: set<string>)
    decreases |es|
  {
    es == [] || (Legal(d, es[0], last, drawn)
                 && LegalRun(Step(d, es[0]).0, es[1..], WallOf(es[0], last), drawn + DrawnBy(es[0])))
  }

  // ---- Bounds over runs ----

  ghost predicate DeskOk(d: Desk, drawn: set<string>) { Bounded(d.challenges) && d.challenges.Keys <= drawn }

  lemma StepKeepsBounds(d: Desk, e: Event, last: int, drawn: set<string>)
    requires DeskOk(d, drawn) && Legal(d, e, last, drawn)
    ensures DeskOk(Step(d, e).0, drawn + DrawnBy(e))
  {
    hide Bounded, VictimOk, Allocated;
    match e
    case Issue(client, _, victim, nonce, at) =>
      SubmapBounded(d.challenges, Unexpired(d.challenges, at));
      AllocationIsFair(d.challenges, client, victim, nonce, at);
    case Local(p, _, victim, nonce, _, at) =>
      SubmapBounded(d.challenges, Unexpired(d.challenges, at));
      AllocationIsFair(d.challenges, p.client, victim, nonce, at);
    case Redeem(_, _, _) => SubmapBounded(d.challenges, Step(d, e).0.challenges);
    case Revoke(_) => SubmapBounded(d.challenges, Step(d, e).0.challenges);
  }

  /** Never more than 128 live challenges, never more than 8 of one client. */
  lemma {:induction false} ChallengesStayBounded(d: Desk, es: seq<Event>, last: int, drawn: set<string>)
    requires DeskOk(d, drawn) && LegalRun(d, es, last, drawn)
    ensures DeskOk(After(d, es), DrawnAfter(drawn, es))
    decreases |es|
  {
    hide DeskOk, Step, Legal;
    if es != [] {
      StepKeepsBounds(d, es[0], last, drawn);
      ChallengesStayBounded(Step(d, es[0]).0, es[1..], WallOf(es[0], last), drawn + DrawnBy(es[0]));
    }
  }

  /** No event of another client removes a live challenge, except by redeeming it. */
  lemma OthersKeepTheirChallenges(d: Desk, e: Event, last: int, drawn: set<string>, c: string)
    requires DeskOk(d, drawn) && Legal(d, e, last, drawn) && c in d.challenges
    requires match e
             case Issue(client, _, _, _, at) => client != d.challenges[c].owner && d.challenges[c].expires > at
             case Local(p, _, _, _, _, at) => p.client != d.challenges[c].owner && d.challenges[c].expires > at
             case Redeem(challenge, _, _) => challenge != c
             case Revoke(client) => client != d.challenges[c].owner
    ensures c in Step(d, e).0.challenges && Step(d, e).0.challenges[c] == d.challenges[c]
  {
    hide Bounded, VictimOk, Allocated;
    match e
    case Issue(client, _, victim, nonce, at) => AllocationIsFair(d.challenges, client, victim, nonce, at);
    case Local(p, _, victim, nonce, _, at) => AllocationIsFair(d.challenges, p.client, victim, nonce, at);
    case _ =>
  }

  // ---- Each challenge is redeemed at most once ----

  lemma GoneStaysGone(d: Desk, e: Event, last: int, drawn: set<string>, c: string)
    requires Legal(d, e, last, drawn) && c in drawn && c !in d.challenges
    ensures c !in Step(d, e).0.challenges
  {
    hide VictimOk;
  }

  lemma {:induction false} GoneOverRuns(d: Desk, es: seq<Event>, last: int, drawn: set<string>, c: string)
    requires LegalRun(d, es, last, drawn) && c in drawn && c !in d.challenges
    ensures c !in After(d, es).challenges
    decreases |es|
  {
    hide Step, Legal;
    if es != [] {
      GoneStaysGone(d, es[0], last, drawn, c);
      GoneOverRuns(Step(d, es[0]).0, es[1..], WallOf(es[0], last), drawn + DrawnBy(es[0]), c);
    }
  }

  /** A redemption, even a refused one, ends the challenge for the rest of the run. */
  lemma {:induction false} ChallengeIsSingleUse(d: Desk, c: string, first: ClientId, t: int, mid: seq<Event>,
                                                second: ClientId, u: int,
                             last: int, drawn: set<string>)
    requires DeskOk(d, drawn) && c in d.challenges
    requires LegalRun(Step(d, Redeem(c, first, t)).0, mid, last, drawn)
    ensures !Step(After(Step(d, Redeem(c, first, t)).0, mid), Redeem(c, second, u)).1
  {
    GoneOverRuns(Step(d, Redeem(c, first, t)).0, mid, last, drawn, c);
  }

  // ---- The pruned memo against the set of all proofs ever spent ----

  /** The reference never forgets: it decides from every proof ever spent. */
  datatype Archive = Archive(challenges: Challenges, spent: set<Proof>)

  function ReferenceStep(a: Archive, e: Event): (Archive, bool) {
    match e
    case Local(p, current, victim, nonce, wall, at) =>
      if !InWindow(p, wall) || !current || p in a.spent || !MaySpend(RecentProofs(a.spent, wall), p)
      then (a, false) else
        var n := Allocated(a.challenges, p.client, victim, nonce, at);
        if n.None? then (a.(challenges := Unexpired(a.challenges, at)), false)
        else (Archive(n.value, a.spent + {p}), true)
    case _ =>
      var (d, ok) := Step(Desk(a.challenges, {}), e);
      (a.(challenges := d.challenges), ok)
  }

  function ReferenceAfter(a: Archive, es: seq<Event>): Archive
    decreases |es|
  {
    if es == [] then a else ReferenceAfter(ReferenceStep(a, es[0]).0, es[1..])
  }

  /** The memo holds only spent proofs, and all of those that could still be presented. */
  predicate Agree(d: Desk, a: Archive, last: int) {
    d.challenges == a.challenges && d.proofs <= a.spent && RecentProofs(a.spent, last) <= d.proofs
  }

  lemma RecentAgree(d: Desk, a: Archive, last: int, now: int)
    requires Agree(d, a, last) && last <= now
    ensures RecentProofs(d.proofs, now) == RecentProofs(a.spent, now)
  {
  }

  /** A proof still in its window was spent before exactly when the pruned memo has it. */
  lemma StepAgrees(d: Desk, a: Archive, e: Event, last: int, drawn: set<string>)
    requires Agree(d, a, last) && Legal(d, e, last, drawn)
    ensures Step(d, e).1 == ReferenceStep(a, e).1
    ensures Agree(Step(d, e).0, ReferenceStep(a, e).0, WallOf(e, last))
  {
    hide VictimOk, Allocated, MaySpend;
    if e.Local? {
      RecentAgree(d, a, last, e.wall);
      var p := e.proof;
      assert InWindow(p, e.wall) ==> Recent(p, e.wall);
      assert p in RecentProofs(a.spent, e.wall) ==> !MaySpend(RecentProofs(a.spent, e.wall), p) by {
        SpentIsRefused(a.spent, e);
      }
    }
  }

  lemma SpentIsRefused(spent: set<Proof>, e: Event)
    requires e.Local?
    ensures e.proof in RecentProofs(spent, e.wall) ==> !MaySpend(RecentProofs(spent, e.wall), e.proof)
  {
  }

  /** Every decision of every run is the one the unbounded reference takes. */
  lemma {:induction false} MemoRefinesArchive(d: Desk, a: Archive, es: seq<Event>, last: int, drawn: set<string>,
                                              k: nat)
    requires Agree(d, a, last) && LegalRun(d, es, last, drawn) && k < |es|
    ensures Step(After(d, es[..k]), es[k]).1 == ReferenceStep(ReferenceAfter(a, es[..k]), es[k]).1
    decreases |es|
  {
    hide Step, ReferenceStep, Legal, Agree;
    StepAgrees(d, a, es[0], last, drawn);
    if k > 0 {
      assert es[..k][0] == es[0] && es[..k][1..] == es[1..][..k - 1];
      MemoRefinesArchive(Step(d, es[0]).0, ReferenceStep(a, es[0]).0, es[1..], WallOf(es[0], last),
                         drawn + DrawnBy(es[0]), k - 1);
    }
  }

  /** A spent proof is remembered as long as it could be presented again. */
  predicate Remembers(d: Desk, p: Proof, last: int) { Recent(p, last) ==> p in d.proofs }

  lemma SpentIsRemembered(d: Desk, e: Event, last: int, drawn: set<string>, p: Proof)
    requires Legal(d, e, last, drawn) && Remembers(d, p, last)
    ensures Remembers(Step(d, e).0, p, WallOf(e, last))
  {
    hide VictimOk, Allocated, MaySpend;
  }

  /** The outcome of every event of a run. */
  function Outcomes(d: Desk, es: seq<Event>): (r: seq<bool>)
    ensures |r| == |es|
    decreases |es|
  {
    if es == [] then [] else [Step(d, es[0]).1] + Outcomes(Step(d, es[0]).0, es[1..])
  }

  /** An allocation spends its proof, and a proof still remembered allocates nothing. */
  lemma SpentNow(d: Desk, e: Event, last: int)
    requires e.Local?
    ensures Step(d, e).1 ==> Remembers(Step(d, e).0, e.proof, e.wall)
    ensures last <= e.wall <= I64_MAX && Remembers(d, e.proof, last) ==> !Step(d, e).1
  {
    hide VictimOk, Allocated;
  }

  lemma {:induction false} SpentIsRefusedLater(d: Desk, es: seq<Event>, last: int, drawn: set<string>, p: Proof, j: nat)
    requires LegalRun(d, es, last, drawn) && Remembers(d, p, last) && j < |es| && es[j].Local? && es[j].proof == p
    ensures !Outcomes(d, es)[j]
    decreases |es|
  {
    hide VictimOk, Step, Remembers;
    if j > 0 {
      SpentIsRemembered(d, es[0], last, drawn, p);
      SpentIsRefusedLater(Step(d, es[0]).0, es[1..], WallOf(es[0], last), drawn + DrawnBy(es[0]), p, j - 1);
    } else {
      SpentNow(d, es[0], last);
    }
  }

  /** No proof allocates two challenges in a run, however late the copy arrives. */
  lemma {:induction false} ProofIsOneShot(d: Desk, es: seq<Event>, last: int, drawn: set<string>, i: nat, j: nat)
    requires LegalRun(d, es, last, drawn) && i < j < |es|
    ensures es[i].Local? && es[j].Local? && es[i].proof == es[j].proof ==> !(Outcomes(d, es)[i] && Outcomes(d, es)[j])
    decreases |es|
  {
    hide Step, Remembers, Legal;
    if i > 0 {
      ProofIsOneShot(Step(d, es[0]).0, es[1..], WallOf(es[0], last), drawn + DrawnBy(es[0]), i - 1, j - 1);
    } else if es[0].Local? && es[j].Local? && es[0].proof == es[j].proof && Step(d, es[0]).1 {
      SpentNow(d, es[0], last);
      SpentIsRefusedLater(Step(d, es[0]).0, es[1..], es[0].wall, drawn + DrawnBy(es[0]), es[0].proof, j - 1);
    }
  }

  // ---- The service's own fields ----

  /** `min_by_key` over the client's own challenges. */
  method FindOldest(m: Challenges, who: ClientId) returns (oldest: string)
    requires OwnedBy(m, who) != {}
    ensures IsOldest(m, who, oldest)
  {
    var rest := OwnedBy(m, who);
    oldest :| oldest in rest;
    rest := rest - {oldest};
    while rest != {}
      invariant rest <= OwnedBy(m, who) && oldest in OwnedBy(m, who)
      invariant forall c :: c in OwnedBy(m, who) && c !in rest ==> m[oldest].expires <= m[c].expires
      decreases |rest|
    {
      var c :| c in rest;
      if m[c].expires < m[oldest].expires { oldest := c; }
      rest := rest - {c};
    }
  }

  class Challenger {
    var challenges: Challenges
    var proofs: set<Proof>

    ghost function Now(): Desk reads this { Desk(challenges, proofs) }

    constructor ()
      ensures Now() == Desk(map[], {}) && DeskOk(Now(), {})
    {
      challenges, proofs := map[], {};
      assert forall who :: OwnedBy(map[], who) == {};
    }

    /** `issue_token_challenge_locked`; `victim` is the challenge replaced, if one was. */
    method IssueChallenge(client: ClientId, known: bool, nonce: string, at: int) returns (ok: bool, victim: string)
      modifies `challenges
      ensures VictimOk(old(challenges), client, victim, at)
      ensures (Now(), ok) == Step(old(Now()), Issue(client, known, victim, nonce, at))
    {
      var live := Unexpired(challenges, at);
      ok, victim := false, "";
      if |OwnedBy(live, client)| >= MAX_PER_CLIENT { victim := FindOldest(live, client); }
      if !known { return; }
      challenges := live;
      if |OwnedBy(live, client)| >= MAX_PER_CLIENT {
        challenges := challenges - {victim};
      } else if |live| >= MAX_CHALLENGES {
        return;
      }
      challenges := challenges[nonce := Slot(client, at + CHALLENGE_TTL)];
      ok := true;
    }

    /** Only a successful allocation spends the proof. */
    method IssueLocalChallenge(p: Proof, current: bool, nonce: string, wall: int, at: int)
      returns (ok: bool, victim: string)
      modifies this
      ensures VictimOk(old(challenges), p.client, victim, at)
      ensures (Now(), ok) == Step(old(Now()), Local(p, current, victim, nonce, wall, at))
    {
      ghost var before := challenges;
      var admitted := InWindow(p, wall) && current;
      if admitted {
        proofs := RecentProofs(proofs, wall);
        admitted := MaySpend(proofs, p);
      }
      ok, victim := IssueChallenge(p.client, admitted, nonce, at);
      if ok { proofs := proofs + {p}; }
    }

    method RedeemChallenge(challenge: string, client: ClientId, at: int) returns (ok: bool)
      modifies `challenges
      ensures (Now(), ok) == Step(old(Now()), Redeem(challenge, client, at))
    {
      if challenge !in challenges { return false; }
      var slot := challenges[challenge];
      challenges := challenges - {challenge};
      ok := slot.expires > at && slot.owner == client;
    }
  }
}
