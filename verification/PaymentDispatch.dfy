/**
 The guard around a wallet payment. The payment future is polled step by step; each poll takes the
 ledger lock and rechecks the reservation, and between polls any ledger event may happen. What the
 flight ends with decides whether its charge is released, settled or kept reserved.
 */
module PaymentDispatch {
  import opened Common
  import opened SpendBudget
  import opened Roster
  import opened GrantBook
  import opened PairingLedger

  /** Left between the first poll and the end of the call block it pays for, in milliseconds. */
  const DISPATCH_MARGIN: nat := 5_000

  datatype Reservation = Reservation(op: OpId, id: ReservationId, client: ClientId)

  // ---- Authority at one poll ----

  predicate EnvelopesLive(b: Budget, due: map<Recipient, nat>, now: int) {
    b.recipientsOnly ==> forall r :: r in due ==> r in b.envelopeEnds && b.envelopeEnds[r] > now
  }

  predicate Backs(n: Node, res: Reservation, g: SpendGrant, now: int) {
    && Permits(n.deployment, g) && g.op == res.op
    && g.budget.Some? && res.id in g.budget.value.pending
    && EnvelopesLive(g.budget.value, g.budget.value.pending[res.id], now)
    && g.client == res.client && g.identity == n.bound && Spend in g.scopes && GrantLive(g, now)
    && exists c :: c in n.mem.roster.clients && c.id == g.client && c.epoch == g.epoch && c.identity == n.bound
  }

  predicate Paused(n: Node, res: Reservation) {
    exists g :: g in n.mem.book.grants && g.op == res.op && g.client == res.client
                && g.budget.Some? && g.budget.value.breaker.paused
  }

  /** `with_call_spend_authority_at`: why one dispatch step may not run, if it may not. */
  function Barred(n: Node, res: Reservation, now: int): Option<Refusal> {
    if !exists g :: g in n.mem.book.grants && Backs(n, res, g, now) then Some(NoGrant)
    else if Paused(n, res) then Some(GrantPaused)
    else None
  }

  // ---- A flight ----

  /** What the wallet answers to a poll. */
  datatype Says = Pending | Paid(principal: nat) | PaidWithoutProof(principal: nat) | Unsure | NotPaid

  datatype Verdict = Wallet(says: Says) | TooLate | Refused(why: Refusal) | LostAuthority

  /** One wake-up: the ledger events since the last, the clocks, and the wallet's answer if polled. */
  datatype Wake = Wake(events: seq<Event>, now: int, ms: nat, says: Says)

  datatype Poll = Poll(node: Node, now: int, ms: nat)

  /** Every wallet poll, in order, and the verdict unless the flight is still pending or was dropped. */
  datatype Log = Log(polls: seq<Poll>, verdict: Option<Verdict>)

  predicate Late(deadline: Option<nat>, ms: nat) { deadline.Some? && SatAdd(ms, DISPATCH_MARGIN) > deadline.value }

  ghost function Flight(n: Node, res: Reservation, deadline: Option<nat>, ws: seq<Wake>, polled: bool): Log
    decreases |ws|
  {
    if ws == [] then Log([], None) else
      var m := After(n, ws[0].events);
      var why := Barred(m, res, ws[0].now);
      if why.Some? then Log([], Some(if polled then LostAuthority else Refused(why.value)))
      else if !polled && Late(deadline, ws[0].ms) then Log([], Some(TooLate))
      else
        var poll := Poll(m, ws[0].now, ws[0].ms);
        if !ws[0].says.Pending? then Log([poll], Some(Wallet(ws[0].says))) else
          var rest := Flight(m, res, deadline, ws[1..], true);
          Log([poll] + rest.polls, rest.verdict)
  }

  /** What one wake-up does to a flight. */
  lemma FlightTurn(n: Node, res: Reservation, deadline: Option<nat>, ws: seq<Wake>, polled: bool)
    requires ws != []
    ensures var m, f := After(n, ws[0].events), Flight(n, res, deadline, ws, polled);
            var why, poll := Barred(m, res, ws[0].now), Poll(m, ws[0].now, ws[0].ms);
            if why.Some? then f == Log([], Some(if polled then LostAuthority else Refused(why.value)))
            else if !polled && Late(deadline, ws[0].ms) then f == Log([], Some(TooLate))
            else if !ws[0].says.Pending? then f == Log([poll], Some(Wallet(ws[0].says)))
            else var rest := Flight(m, res, deadline, ws[1..], true); f == Log([poll] + rest.polls, rest.verdict)
  {
    hide After, Barred, Late;
  }

  lemma FlightOver(n: Node, res: Reservation, deadline: Option<nat>, polled: bool)
    ensures Flight(n, res, deadline, [], polled) == Log([], None)
  {
  }

  /** The whole flight is the polls made so far and the rest of it. */
  ghost predicate SoFar(whole: Log, polls: seq<Poll>, rest: Log) { whole == Log(polls + rest.polls, rest.verdict) }

  lemma OneMore(whole: Log, polls: seq<Poll>, poll: Poll, rest: Log)
    requires SoFar(whole, polls, Log([poll] + rest.polls, rest.verdict))
    ensures SoFar(whole, polls + [poll], rest)
  {
    assert polls + ([poll] + rest.polls) == (polls + [poll]) + rest.polls;
  }

  ghost predicate StatesFrom(states: seq<Node>, n: Node, ws: seq<Wake>) {
    |states| == |ws| && forall i :: 0 <= i < |ws| ==> states[i] == Reached(n, ws, i)
  }

  lemma StatesTurn(states: seq<Node>, n: Node, ws: seq<Wake>)
    requires StatesFrom(states, n, ws) && ws != []
    ensures states[0] == After(n, ws[0].events) && StatesFrom(states[1..], states[0], ws[1..])
  {
    hide After;
    assert states[0] == Reached(n, ws, 0);
    forall i | 0 <= i < |ws[1..]| ensures states[1..][i] == Reached(states[0], ws[1..], i) {
      assert states[i + 1] == Reached(n, ws, i + 1);
    }
  }

  /** `dispatch`, as it runs: one iteration per wake-up, with the flag that records the first poll. */
  method Dispatch(states: seq<Node>, ghost n: Node, res: Reservation, deadline: Option<nat>, ws: seq<Wake>)
    returns (polls: seq<Poll>, verdict: Option<Verdict>)
    requires StatesFrom(states, n, ws)
    ensures Log(polls, verdict) == Flight(n, res, deadline, ws, false)
  {
    hide After, Barred, Late, Flight, StatesFrom;
    var polled, i := false, 0;
    polls, verdict := [], None;
    ghost var at, whole := n, Flight(n, res, deadline, ws, false);
    assert ws[0..] == ws && |states| == |ws| by { SameLength(states, n, ws); }
    assert states[0..] == states;
    while i < |ws|
      invariant 0 <= i <= |ws| == |states| && verdict.None?
      invariant StatesFrom(states[i..], at, ws[i..])
      invariant SoFar(whole, polls, Flight(at, res, deadline, ws[i..], polled))
    {
      var m, wake := states[i], ws[i];
      assert ws[i..][0] == wake && ws[i..][1..] == ws[i + 1..] && states[i..][0] == m
             && states[i..][1..] == states[i + 1..];
      StatesTurn(states[i..], at, ws[i..]);
      FlightTurn(at, res, deadline, ws[i..], polled);
      var why := Barred(m, res, wake.now);
      if why.Some? {
        verdict := Some(if polled then LostAuthority else Refused(why.value));
        return;
      }
      if !polled && Late(deadline, wake.ms) {
        verdict := Some(TooLate);
        return;
      }
      polled := true;
      if !wake.says.Pending? {
        polls := polls + [Poll(m, wake.now, wake.ms)];
        verdict := Some(Wallet(wake.says));
        return;
      }
      OneMore(whole, polls, Poll(m, wake.now, wake.ms), Flight(m, res, deadline, ws[i + 1..], true));
      polls := polls + [Poll(m, wake.now, wake.ms)];
      at := m;
      i := i + 1;
    }
    assert ws[i..] == [];
    FlightOver(at, res, deadline, polled);
  }

  lemma SameLength(states: seq<Node>, n: Node, ws: seq<Wake>)
    requires StatesFrom(states, n, ws)
    ensures |states| == |ws|
  {
  }

  /** The ledger as the `i`-th wake-up finds it. */
  ghost function Reached(n: Node, ws: seq<Wake>, i: nat): Node
    requires i < |ws|
    decreases i
  {
    var m := After(n, ws[0].events);
    if i == 0 then m else Reached(m, ws[1..], i - 1)
  }

  // ---- Safety of every flight ----

  /**
   The grant holds this reservation and may spend: it has a budget, is unpaused and unexpired, is of the
   client's current epoch and identity, is honoured here, and every recipient's envelope is still open.
   */
  predicate InForce(n: Node, res: Reservation, g: SpendGrant, now: int) {
    && g in n.mem.book.grants && g.op == res.op && g.client == res.client && Spend in g.scopes
    && g.budget.Some? && now < g.expiresAt <= g.grantedAt + 24 * 3600
    && res.id in g.budget.value.pending && !g.budget.value.breaker.paused
    && (g.budget.value.recipientsOnly ==>
          forall r :: r in g.budget.value.pending[res.id] ==>
            r in g.budget.value.envelopeEnds && now < g.budget.value.envelopeEnds[r])
    && g.identity == n.bound && Permits(n.deployment, g)
    && exists c :: c in n.mem.roster.clients && c.id == res.client && c.epoch == g.epoch && c.identity == n.bound
  }

  ghost predicate PollInForce(p: Poll, res: Reservation) { exists g :: InForce(p.node, res, g, p.now) }

  /** Over every interleaving, the wallet is polled only while its reservation is in force. */
  lemma {:induction false} EveryPollIsInForce(n: Node, res: Reservation, deadline: Option<nat>, ws: seq<Wake>,
                                              polled: bool)
    ensures forall p :: p in Flight(n, res, deadline, ws, polled).polls ==> PollInForce(p, res)
    decreases |ws|
  {
    hide After, Barred, PollInForce;
    if ws != [] {
      var m := After(n, ws[0].events);
      EveryPollIsInForce(m, res, deadline, ws[1..], true);
      if Barred(m, res, ws[0].now).None? { UnbarredInForce(m, res, ws[0].now, ws[0].ms); }
    }
  }

  lemma UnbarredInForce(n: Node, res: Reservation, now: int, ms: nat)
    requires Barred(n, res, now).None?
    ensures PollInForce(Poll(n, now, ms), res)
  {
    hide Permits;
    var g :| g in n.mem.book.grants && Backs(n, res, g, now);
    assert InForce(n, res, g, now);
  }

  lemma {:induction false} SameOpSameGrant(gs: seq<SpendGrant>, g: SpendGrant, h: SpendGrant)
    requires Distinct(gs) && g in gs && h in gs && g.op == h.op
    ensures g == h
  {
    if g != gs[0] && h != gs[0] { SameOpSameGrant(gs[1..], g, h); }
  }

  /** With one grant to an operation id, a poll may run if and only if its reservation is in force. */
  lemma UnbarredIff(n: Node, res: Reservation, now: int)
    requires Distinct(n.mem.book.grants)
    ensures Barred(n, res, now).None? <==> exists g :: InForce(n, res, g, now)
  {
    hide Permits, Distinct;
    if Barred(n, res, now).None? {
      UnbarredInForce(n, res, now, 0);
      assert PollInForce(Poll(n, now, 0), res);
    }
    if g :| InForce(n, res, g, now) {
      assert Backs(n, res, g, now);
      if Paused(n, res) {
        var h :| h in n.mem.book.grants && h.op == res.op && h.client == res.client
                 && h.budget.Some? && h.budget.value.breaker.paused;
        SameOpSameGrant(n.mem.book.grants, g, h);
      }
    }
  }

  /** The wallet is polled at a wake-up exactly when the reservation is then in force and, the first time, in time. */
  lemma PolledIff(n: Node, res: Reservation, deadline: Option<nat>, ws: seq<Wake>, polled: bool)
    requires ws != [] && Distinct(After(n, ws[0].events).mem.book.grants)
    ensures Flight(n, res, deadline, ws, polled).polls != [] <==>
              && (exists g :: InForce(After(n, ws[0].events), res, g, ws[0].now))
              && (!polled && deadline.Some? ==> SatAdd(ws[0].ms, 5_000) <= deadline.value)
  {
    hide After, Barred, InForce, Distinct;
    UnbarredIff(After(n, ws[0].events), res, ws[0].now);
  }

  /** Losing authority is a refusal exactly when the wallet was never polled, and unresolved exactly when it was. */
  lemma {:induction false} VerdictTellsPolled(n: Node, res: Reservation, deadline: Option<nat>, ws: seq<Wake>,
                                              polled: bool)
    ensures var f := Flight(n, res, deadline, ws, polled);
            f.verdict.Some? ==>
              && (f.verdict.value.Refused? || f.verdict.value.TooLate? ==> !polled && f.polls == [])
              && (f.verdict.value.LostAuthority? ==> polled || f.polls != [])
              && (f.verdict.value.Wallet? ==> f.polls != [] && !f.verdict.value.says.Pending?)
    decreases |ws|
  {
    hide After, Barred, Late;
    if ws != [] { VerdictTellsPolled(After(n, ws[0].events), res, deadline, ws[1..], true); }
  }

  /** The first poll for a call block leaves five seconds before the block ends. */
  lemma {:induction false} FirstPollLeavesMargin(n: Node, res: Reservation, deadline: Option<nat>, ws: seq<Wake>)
    ensures var f := Flight(n, res, deadline, ws, false);
            f.polls != [] && deadline.Some? ==> SatAdd(f.polls[0].ms, DISPATCH_MARGIN) <= deadline.value
  {
    hide After, Barred;
  }

  // ---- A revoked grant never pays ----

  ghost predicate LegalWakes(n: Node, ws: seq<Wake>)
    decreases |ws|
  {
    ws == [] || (LegalRun(n, ws[0].events) && LegalWakes(After(n, ws[0].events), ws[1..]))
  }

  lemma RevokedIsBarred(n: Node, res: Reservation, w: Witness, now: int)
    requires BooksOk(n, Some(w)) && w.op == res.op && w.revoked
    ensures Barred(n, res, now).Some?
  {
    hide BudgetOk, Permits, EnvelopesLive;
    forall g | g in n.mem.book.grants ensures !Backs(n, res, g, now) { assert GrantOk(g, n.drawn, Some(w)); }
  }

  lemma {:induction false} RevokedFlightIsGrounded(n: Node, res: Reservation, deadline: Option<nat>, ws: seq<Wake>,
                                                   polled: bool, w: Witness)
    requires BooksOk(n, Some(w)) && w.op == res.op && w.revoked && Lasting(w) && LegalWakes(n, ws)
    ensures Flight(n, res, deadline, ws, polled).polls == []
  {
    hide BooksOk, Barred, Late;
    if ws != [] {
      AlwaysSpared(ws[0].events, Some(w));
      BudgetsBalanceOverRuns(n, ws[0].events, Some(w));
      RevokedIsBarred(After(n, ws[0].events), res, w, ws[0].now);
    }
  }

  /** The run acknowledges, somewhere, a section that ends every grant of this client. */
  ghost predicate EndedIn(n: Node, es: seq<Event>, client: ClientId)
    decreases |es|
  {
    es != [] &&
    (|| (es[0].Do? && es[0].op.Pair? && EndsGrants(es[0].op.pair, client) && Step(n, es[0]).1 == Told(Fine))
     || EndedIn(Step(n, es[0]).0, es[1..], client))
  }

  lemma {:induction false} EndedIsRemembered(n: Node, es: seq<Event>, w: Witness)
    requires BooksOk(n, Some(w)) && Lasting(w) && LegalRun(n, es) && EndedIn(n, es, w.client)
    ensures BooksOk(After(n, es), Some(w.(revoked := true)))
    decreases |es|
  {
    hide BooksOk, Step, Legal, EndsGrants;
    var m := Step(n, es[0]).0;
    AlwaysSpared(es, Some(w));
    AlwaysSpared(es[1..], Some(w.(revoked := true)));
    assert es[0] in es;
    if es[0].Do? && es[0].op.Pair? && EndsGrants(es[0].op.pair, w.client) && Step(n, es[0]).1 == Told(Fine) {
      RevocationEndsGrant(n, es[0].op.pair, es[0].outcome, w);
      BudgetsBalanceOverRuns(m, es[1..], Some(w.(revoked := true)));
    } else {
      StepKeepsBooks(n, es[0], Some(w));
      EndedIsRemembered(m, es[1..], w);
    }
  }

  /**
   A reservation accepted under a grant is never polled again once the client's revocation, bump,
   rotation or the node's rebind was acknowledged: not after a restart, nor after re-pairing.
   */
  lemma {:induction false} RevokedReservationNeverDispatches(
    n: Node, accept: Event, es: seq<Event>, deadline: Option<nat>, ws: seq<Wake>, polled: bool)
    requires BooksOk(n, None) && LegalRun(n, [accept] + es) && LegalWakes(After(n, [accept] + es), ws)
    ensures var r, m := Said(n, accept), Step(n, accept).0;
            r.Accepted? ==> accept.Do? && accept.op.Grant? && accept.op.grant.Reserve?
    ensures var r, m := Said(n, accept), Step(n, accept).0;
            r.Accepted? && EndedIn(m, es, accept.op.grant.id) ==>
              Flight(After(m, es), Reservation(r.op, r.rid, accept.op.grant.id), deadline, ws, polled).polls == []
  {
    hide BooksOk, Step, Legal, Said, EndedIn, Flight, Held, WhyNot, BudgetOk, ChargedTo;
    assert ([accept] + es)[1..] == es;
    var r, m := Said(n, accept), Step(n, accept).0;
    if r.Accepted? {
      var b := AcceptIsRemembered(n, accept, None);
      var client := accept.op.grant.id;
      var o := accept.op.grant;
      NothingKnown(Held(b, o.rid, o.charges, o.ids, o.now), r.op, client);
      var w := About(r.op, client);
      if EndedIn(m, es, client) {
        EndedIsRemembered(m, es, w);
        RevokedFlightIsGrounded(After(m, es), Reservation(r.op, r.rid, client), deadline, ws, polled,
                                w.(revoked := true));
      }
    }
  }

  // ---- What happens to the charge ----

  function CheckedAdd(a: nat, b: nat): Option<nat> { if a + b <= U64_MAX then Some(a + b) else None }

  /** One more payment on what is recorded so far; an unknown fee is never forgotten. */
  function Accumulate(recorded: Option<nat>, fee: Option<nat>): Option<nat> {
    if recorded.Some? && fee.Some? then CheckedAdd(recorded.value, fee.value) else None
  }

  function SettledTotal(principal: nat, recorded: Option<Option<nat>>): Option<nat> {
    var fee := match recorded case Some(f) => f case None => if principal == 0 then Some(0) else None;
    if fee.Some? then CheckedAdd(principal, fee.value) else None
  }

  /** What `resolve_proof` hands to the ledger: the amount to resolve to, or nothing. */
  function Disposal(v: Option<Verdict>, recorded: Option<Option<nat>>): Option<nat> {
    match v
    case None => None
    case Some(LostAuthority) => None
    case Some(Refused(_)) => Some(0)
    case Some(TooLate) => Some(0)
    case Some(Wallet(Paid(principal))) => SettledTotal(principal, recorded)
    case Some(Wallet(PaidWithoutProof(principal))) => SettledTotal(principal, recorded)
    case Some(Wallet(NotPaid)) => Some(0)
    case Some(Wallet(_)) => None
  }

  /**
   A charge whose wallet was polled is let go only on the wallet's own word; a lost grant, an unsure
   wallet or a dropped flight keeps it reserved.
   */
  lemma {:induction false} PolledChargeNeedsTheWalletsWord(n: Node, res: Reservation, deadline: Option<nat>,
                                                           ws: seq<Wake>, recorded: Option<Option<nat>>)
    ensures var f := Flight(n, res, deadline, ws, false);
            f.polls != [] && Disposal(f.verdict, recorded).Some? ==>
              f.verdict.value.Wallet? && !f.verdict.value.says.Unsure? && !f.verdict.value.says.Pending?
  {
    hide Flight;
    VerdictTellsPolled(n, res, deadline, ws, false);
  }

  // ---- The charge on the ledger ----

  /** The ledger events between the wake-ups, in order. */
  function EventsOf(ws: seq<Wake>): seq<Event> {
    if ws == [] then [] else ws[0].events + EventsOf(ws[1..])
  }

  /** What the handler does to the ledger once its flight is over: one resolution, or nothing. */
  function Aftermath(res: Reservation, r: Recipient, disposal: Option<nat>, now: int, out: Outcome): seq<Event> {
    if disposal.None? then [] else
      [Do(Grant(ResolveShare(res.op, res.client, Share(res.id, r), disposal.value, now)), out)]
  }

  /**
   Over every run: a charge stays reserved in memory and on disk, and counted against its grant, unless
   its flight ended in a definite amount. Losing the grant's authority in mid-flight, an unsure wallet,
   an unknown fee or a dropped flight releases nothing.
   */
  lemma {:induction false} UndecidedChargeStaysOwed(
    n: Node, accept: Event, ws: seq<Wake>, after: seq<Event>, res: Reservation, deadline: Option<nat>,
    recorded: Option<Option<nat>>, r: Recipient, now: int, out: Outcome)
    requires BooksOk(n, None)
    requires var f := Flight(Step(n, accept).0, res, deadline, ws, false);
             LegalRun(n, [accept] + (EventsOf(ws) + Aftermath(res, r, Disposal(f.verdict, recorded), now, out) + after))
    requires forall e :: e in EventsOf(ws) + after ==> !Resolves(e, res.op, Share(res.id, r))
    ensures Said(n, accept).Accepted? ==> accept.Do? && accept.op.Grant? && accept.op.grant.Reserve?
    ensures var a, m := Said(n, accept), Step(n, accept).0;
            var d := Disposal(Flight(m, res, deadline, ws, false).verdict, recorded);
            var es := EventsOf(ws) + Aftermath(res, r, d, now, out) + after;
            a.Accepted? && res == Reservation(a.op, a.rid, accept.op.grant.id)
            && r in PerRecipient(accept.op.grant.charges) && d.None? ==>
              BothOwe(After(m, es), a.op, Share(a.rid, r), PerRecipient(accept.op.grant.charges)[r])
  {
    hide BooksOk, Step, Legal, Said, Flight, PerRecipient, BothOwe, LegalRun, After, Resolves, Disposal;
    var d := Disposal(Flight(Step(n, accept).0, res, deadline, ws, false).verdict, recorded);
    var es := EventsOf(ws) + Aftermath(res, r, d, now, out) + after;
    if d.None? { assert es == EventsOf(ws) + after; }
    ChargeStaysOwed(n, accept, es, r);
  }

  function Fold(fees: seq<Option<nat>>): Option<nat>
  {
    if fees == [] then Some(0) else Accumulate(Fold(fees[..|fees| - 1]), fees[|fees| - 1])
  }

  function Known(fees: seq<Option<nat>>): nat
  {
    if fees == [] then 0 else
      Known(fees[..|fees| - 1]) + (match fees[|fees| - 1] case Some(f) => f case None => 0)
  }

  predicate AllKnown(fees: seq<Option<nat>>) { forall i :: 0 <= i < |fees| ==> fees[i].Some? }

  /** The running record is the exact sum of the fees, and is lost for good by one unknown or overflowing fee. */
  lemma {:induction false} RecordIsExactSum(fees: seq<Option<nat>>)
    ensures Fold(fees) == if AllKnown(fees) && Known(fees) <= U64_MAX then Some(Known(fees)) else None
  {
    if fees != [] {
      var init := fees[..|fees| - 1];
      RecordIsExactSum(init);
      assert AllKnown(fees) <==> AllKnown(init) && fees[|fees| - 1].Some? by {
        assert forall i :: 0 <= i < |init| ==> init[i] == fees[i];
      }
    }
  }

  /** A settlement is principal plus every fee, each of them known; without evidence only a zero principal settles. */
  lemma SettledIffFeesKnown(principal: nat, fees: seq<Option<nat>>, total: nat)
    ensures SettledTotal(principal, if fees == [] then None else Some(Fold(fees))) == Some(total)
            <==> AllKnown(fees) && total == principal + Known(fees) <= U64_MAX && (fees == [] ==> principal == 0)
  {
    RecordIsExactSum(fees);
  }

  /** What a debit has on record for a recipient after these fees. */
  function RecordOf(fees: seq<Option<nat>>): Option<Option<nat>> { if fees == [] then None else Some(Fold(fees)) }

  /** Every fee is known, and with the principal they come to this; no fee on record is enough only for no principal. */
  predicate Costs(principal: nat, fees: seq<Option<nat>>, x: nat) {
    AllKnown(fees) && x == principal + Known(fees) && x <= U64_MAX && (fees == [] ==> principal == 0)
  }

  /**
   A verdict lets the charge go at exactly this amount: nothing if the wallet did not pay or was never
   polled; the principal and every fee if it paid, each fee known; and not at all otherwise.
   */
  predicate LetsGoAt(v: Verdict, fees: seq<Option<nat>>, x: nat) {
    match v
    case Wallet(Paid(p)) => Costs(p, fees, x)
    case Wallet(PaidWithoutProof(p)) => Costs(p, fees, x)
    case Wallet(NotPaid) => x == 0
    case Refused(_) => x == 0
    case TooLate => x == 0
    case Wallet(Unsure) => false
    case Wallet(Pending) => false
    case LostAuthority => false
  }

  lemma DisposalIff(v: Option<Verdict>, fees: seq<Option<nat>>, x: nat)
    ensures Disposal(v, RecordOf(fees)) == Some(x) <==> v.Some? && LetsGoAt(v.value, fees, x)
  {
    RecordIsExactSum(fees);
    assert fees == [] ==> AllKnown(fees) && Known(fees) == 0;
    hide Fold, Known, AllKnown;
  }

  /** Wherever the grant stands with a budget, the share is on record as settled at this amount and no longer owed. */
  ghost predicate BothSettled(n: Node, op: OpId, k: Share, amount: nat) {
    forall g :: (g in n.mem.book.grants || g in n.disk.book.grants) && g.op == op && g.budget.Some? ==>
      SettledAt(g.budget.value, k, amount)
  }

  predicate SettledAt(b: Budget, k: Share, amount: nat) {
    k in b.settled && b.settled[k] == amount && !Outstanding(b, k)
  }

  lemma SettledHere(k: Book, drawn: set<string>, v: Witness, share: Share, g: SpendGrant)
    requires BookOk(k, drawn, Some(v)) && share in v.done && g in k.grants && g.op == v.op && g.budget.Some?
    ensures SettledAt(g.budget.value, share, v.done[share])
  {
    assert GrantOk(g, drawn, Some(v));
    assert Apart(g.budget.value.pending, g.budget.value.settled);
  }

  lemma SettledInBoth(n: Node, v: Witness, share: Share)
    requires BooksOk(n, Some(v)) && share in v.done
    ensures BothSettled(n, v.op, share, v.done[share])
  {
    hide BookOk, SettledAt;
    forall g | g in n.mem.book.grants && g.op == v.op && g.budget.Some?
      ensures SettledAt(g.budget.value, share, v.done[share]) {
      SettledHere(n.mem.book, n.drawn, v, share, g);
    }
    forall g | g in n.disk.book.grants && g.op == v.op && g.budget.Some?
      ensures SettledAt(g.budget.value, share, v.done[share]) {
      SettledHere(n.disk.book, n.drawn, v, share, g);
    }
  }

  /**
   Once what the handler does after its flight is acknowledged, both files record the share settled at
   what the verdict and the fees on record come to, for the rest of every run.
   */
  lemma {:induction false} FlightIsSettledAtItsCost(
    n: Node, res: Reservation, r: Recipient, v: Verdict, fees: seq<Option<nat>>, x: nat, now: int, out: Outcome,
    after: seq<Event>)
    requires BooksOk(n, None) && LetsGoAt(v, fees, x)
    requires LegalRun(n, Aftermath(res, r, Disposal(Some(v), RecordOf(fees)), now, out) + after)
    ensures var es := Aftermath(res, r, Disposal(Some(v), RecordOf(fees)), now, out);
            |es| == 1 && (Said(n, es[0]).Settled? ==>
              BothSettled(After(Step(n, es[0]).0, after), res.op, Share(res.id, r), x))
  {
    DisposalIff(Some(v), fees, x);
    hide BooksOk, Step, Legal, Said, Disposal, LetsGoAt, BothSettled;
    var e := Do(Grant(ResolveShare(res.op, res.client, Share(res.id, r), x, now)), out);
    assert Aftermath(res, r, Disposal(Some(v), RecordOf(fees)), now, out) == [e] && ([e] + after)[1..] == after;
    if Said(n, e).Settled? {
      SettleIsRemembered(n, e, None);
      var w := About(res.op, res.client).(done := map[Share(res.id, r) := x]);
      AlwaysSpared(after, Some(w));
      BudgetsBalanceOverRuns(Step(n, e).0, after, Some(w));
      SettledInBoth(After(Step(n, e).0, after), w, Share(res.id, r));
    }
  }

  /** The fee record a debit keeps for each recipient. */
  class Debit {
    var fees: map<Recipient, Option<nat>>
    ghost var paid: map<Recipient, seq<Option<nat>>>

    ghost predicate Valid()
      reads this
    {
      fees.Keys == paid.Keys && forall r :: r in fees ==> paid[r] != [] && fees[r] == Fold(paid[r])
    }

    constructor ()
      ensures Valid() && paid == map[]
    {
      fees, paid := map[], map[];
    }

    method RecordPayment(recipient: Recipient, fee: Option<nat>)
      requires Valid()
      modifies this
      ensures Valid()
      ensures paid == old(paid)[recipient := (if recipient in old(paid) then old(paid)[recipient] else []) + [fee]]
    {
      var previous := if recipient in fees then fees[recipient] else Some(0);
      ghost var before := if recipient in paid then paid[recipient] else [];
      assert (before + [fee])[..|before + [fee]| - 1] == before;
      fees := fees[recipient := Accumulate(previous, fee)];
      paid := paid[recipient := before + [fee]];
    }

    /** The amount `settled` resolves a recipient to; nothing while any fee is unknown. */
    method Settled(recipient: Recipient, principal: nat) returns (total: Option<nat>)
      requires Valid()
      ensures var history := if recipient in paid then paid[recipient] else [];
              total.Some? <==>
                AllKnown(history) && principal + Known(history) <= U64_MAX && (history == [] ==> principal == 0)
      ensures var history := if recipient in paid then paid[recipient] else [];
              total.Some? ==> total.value == principal + Known(history)
    {
      ghost var history := if recipient in paid then paid[recipient] else [];
      total := SettledTotal(principal, if recipient in fees then Some(fees[recipient]) else None);
      SettledIffFeesKnown(principal, history, principal + Known(history));
      if total.Some? { SettledIffFeesKnown(principal, history, total.value); }
    }
  }
}
