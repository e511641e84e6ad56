/**
 A relation grant pays only contacts for whom the owner's device signed an envelope: over every run,
 each call accepted under one stays within an envelope opened for that client and that contact.
 */
module EnvelopeRuns {
  import opened Common
  import opened SpendBudget
  import opened Roster
  import opened GrantBook
  import opened PairingLedger

  /** An envelope as it was signed: who may pay whom, how much in one act, and until when. */
  datatype Envelope = Envelope(client: ClientId, peer: Recipient, perAct: nat, ends: int)

  predicate SignedIn(b: Budget, client: ClientId, signed: set<Envelope>) {
    b.recipientsOnly ==>
      forall r :: r in b.envelopeEnds ==> r in b.perAct && Envelope(client, r, b.perAct[r], b.envelopeEnds[r]) in signed
  }

  /** Every envelope in a relation grant was signed. */
  predicate Signed(g: SpendGrant, signed: set<Envelope>) {
    g.budget.Some? ==> SignedIn(g.budget.value, g.client, signed)
  }

  predicate AllSigned(gs: seq<SpendGrant>, signed: set<Envelope>) { forall g :: g in gs ==> Signed(g, signed) }

  // ---- Budgets ----

  predicate SameEnvelopes(b: Budget, c: Budget) {
    c.recipientsOnly == b.recipientsOnly && c.perAct == b.perAct && c.envelopeEnds == b.envelopeEnds
  }

  lemma TalliedEnvelopes(b: Budget, charges: seq<Charge>, now: int)
    ensures SameEnvelopes(b, Tallied(b, charges, now))
  {
    hide Charged, PerRecipient, Counted;
  }

  lemma HeldEnvelopes(b: Budget, id: ReservationId, charges: seq<Charge>, ids: set<string>, now: int)
    ensures SameEnvelopes(b, Held(b, id, charges, ids, now))
  {
    TalliedEnvelopes(b, charges, now);
    hide Tallied, Stamped, PerRecipient;
  }

  lemma ResolvedEnvelopes(b: Budget, k: Share, actual: nat, now: int)
    requires Outstanding(b, k)
    ensures SameEnvelopes(b, Resolve(b, k, actual, now))
  {
    hide Recorded, Adjusted, RemoveShare;
  }

  lemma AdmitEnvelopes(b: Budget, id: ReservationId, charges: seq<Charge>, ids: set<string>, payment: bool, now: int)
    ensures match Admit(b, id, charges, ids, payment, now)
            case Admitted(c) => SameEnvelopes(b, c)
            case Denied(_, noted) => noted.Some? ==> SameEnvelopes(b, noted.value)
  {
    hide Admit, WhyNot, Held;
    AdmitShape(b, id, charges, ids, payment, now);
    HeldEnvelopes(b, id, charges, ids, now);
  }

  // ---- Lists of grants ----

  lemma {:induction false} LiveSigned(gs: seq<SpendGrant>, now: int, signed: set<Envelope>)
    requires AllSigned(gs, signed)
    ensures AllSigned(LiveGrants(gs, now), signed)
  {
    hide Signed, GrantLive;
    if gs != [] {
      assert gs[0] in gs && forall g :: g in gs[1..] ==> g in gs;
      LiveSigned(gs[1..], now, signed);
    }
  }

  lemma {:induction false} KillSigned(gs: seq<SpendGrant>, whom: Whom, signed: set<Envelope>)
    requires AllSigned(gs, signed)
    ensures AllSigned(KillSpend(gs, whom), signed)
  {
    hide Hits, SignedIn;
    if gs != [] {
      assert gs[0] in gs && forall g :: g in gs[1..] ==> g in gs;
      KillSigned(gs[1..], whom, signed);
    }
  }

  lemma MoreSigned(gs: seq<SpendGrant>, signed: set<Envelope>, more: set<Envelope>)
    requires AllSigned(gs, signed) && signed <= more
    ensures AllSigned(gs, more)
  {
  }

  lemma EditSigned(gs: seq<SpendGrant>, i: nat, h: SpendGrant, signed: set<Envelope>)
    requires AllSigned(gs, signed) && i < |gs| && Signed(h, signed)
    ensures AllSigned(gs[i := h], signed)
  {
    hide Signed;
  }

  lemma RewriteSigned(k: Book, i: nat, b: Budget, reply: Reply, signed: set<Envelope>)
    requires AllSigned(k.grants, signed) && Distinct(k.grants) && i < |k.grants|
    requires k.grants[i].budget.Some? && SameEnvelopes(k.grants[i].budget.value, b)
    ensures var fx := Rewrite(k, i, b, reply); AllSigned(fx.book.grants, signed) && fx.undo == k
  {
    assert k.grants[i] in k.grants && Signed(k.grants[i], signed);
    assert Signed(k.grants[i].(budget := Some(b)), signed);
    hide Signed, SameEnvelopes, Distinct, SetBudget;
    SetBudgetRestores(k.grants, i, Some(b));
    EditSigned(k.grants, i, k.grants[i].(budget := Some(b)), signed);
  }

  lemma ReplaceSigned(gs: seq<SpendGrant>, g: SpendGrant, signed: set<Envelope>)
    requires AllSigned(gs, signed) && Signed(g, signed)
    ensures AllSigned(KillSpend(gs, Only(g.client)) + [g], signed)
  {
    hide Signed, KillSpend;
    KillSigned(gs, Only(g.client), signed);
  }

  // ---- Sections ----

  function SignedBy(o: GrantOp): set<Envelope> {
    if o.OpenEnvelope? then {Envelope(o.id, o.peer, o.perAct, o.now + o.window)} else {}
  }

  lemma ReserveSigned(k: Book, x: Context, o: GrantOp, signed: set<Envelope>)
    requires o.Reserve? && AllSigned(k.grants, signed) && Distinct(k.grants)
    ensures var fx := DoReserve(k, x, o); fx.Write? ==> AllSigned(fx.book.grants, signed) && fx.undo == k
  {
    hide Admit, AllSigned, Distinct, Rewrite, Permits, SameEnvelopes;
    var i := ChargeIndex(k.grants, x, o);
    if i < |k.grants| {
      var g := k.grants[i];
      AdmitEnvelopes(g.budget.value, o.rid, o.charges, o.ids, o.payment, o.now);
      match Admit(g.budget.value, o.rid, o.charges, o.ids, o.payment, o.now)
      case Admitted(b) => RewriteSigned(k, i, b, Accepted(g.op, o.rid, o.ids), signed);
      case Denied(_, noted) => if noted.Some? { RewriteSigned(k, i, noted.value, Failed, signed); }
    }
  }

  lemma ResolveSigned(k: Book, o: GrantOp, signed: set<Envelope>)
    requires o.ResolveShare? && AllSigned(k.grants, signed) && Distinct(k.grants)
    ensures var fx := DoResolve(k, o); fx.Write? ==> AllSigned(fx.book.grants, signed) && fx.undo == k
  {
    hide Resolve, AllSigned, Distinct, Rewrite, SameEnvelopes;
    var i := HeldIndex(k.grants, o.op, o.id);
    if i < |k.grants| && k.grants[i].budget.Some? && Outstanding(k.grants[i].budget.value, o.share) {
      ResolvedEnvelopes(k.grants[i].budget.value, o.share, o.actual, o.now);
      RewriteSigned(k, i, Resolve(k.grants[i].budget.value, o.share, o.actual, o.now), Settled(o.op, o.share), signed);
    }
  }

  lemma ResetSigned(k: Book, x: Context, o: GrantOp, signed: set<Envelope>)
    requires o.ResetBreakers? && AllSigned(k.grants, signed) && Distinct(k.grants)
    ensures var fx := DoResetBreakers(k, x, o); fx.Write? ==> AllSigned(fx.book.grants, signed) && fx.undo == k
  {
    hide AllSigned, Distinct, Rewrite;
    var i := HeldIndex(k.grants, o.op, o.id);
    if i < |k.grants| && GrantLive(k.grants[i], o.now) {
      RewriteSigned(k, i, Reset(k.grants[i].budget.value), Fine, signed);
    }
  }

  lemma CapContactSigned(k: Book, x: Context, o: GrantOp, signed: set<Envelope>)
    requires o.CapContact? && AllSigned(k.grants, signed)
    ensures var fx := DoCapContact(k, x, o); fx.Write? ==> AllSigned(fx.book.grants, signed) && fx.undo == k
  {
    hide ContactFits;
    var i := HeldIndex(k.grants, o.op, o.id);
    if i < |k.grants| { assert k.grants[i] in k.grants; }
  }

  lemma RenewedSigned(g: SpendGrant, b: Budget, o: GrantOp, signed: set<Envelope>)
    requires o.OpenEnvelope? && g.client == o.id && SignedIn(b, o.id, signed)
    ensures Signed(Renewed(g, b, o), signed + SignedBy(o))
  {
    hide LatestEnd;
  }

  lemma OpenEnvelopeSigned(k: Book, x: Context, o: GrantOp, signed: set<Envelope>)
    requires o.OpenEnvelope? && AllSigned(k.grants, signed)
    ensures var fx := DoOpenEnvelope(k, x, o);
            fx.Write? ==> AllSigned(fx.book.grants, signed + SignedBy(o)) && fx.undo == k
  {
    MoreSigned(k.grants, signed, signed + SignedBy(o));
    var i := RelationIndex(k.grants, o);
    if i < |k.grants| {
      var g := k.grants[i];
      assert g in k.grants && Signed(g, signed);
      RenewedSigned(g, g.budget.value, o, signed);
      hide AllSigned, Renewed;
      EditSigned(k.grants, i, Renewed(g, g.budget.value, o), signed + SignedBy(o));
    } else {
      var g := SpendGrant(o.op, o.id, {Spend}, o.now, o.now + o.window, o.node, o.epoch, None, Device);
      RenewedSigned(g, Relations(), o, signed);
      assert Renewed(g, Relations(), o).client == o.id;
      hide AllSigned, Renewed, KillSpend;
      ReplaceSigned(k.grants, Renewed(g, Relations(), o), signed + SignedBy(o));
    }
  }

  lemma GrantSpendSigned(k: Book, x: Context, o: GrantOp, signed: set<Envelope>)
    requires o.GrantSpend? && AllSigned(k.grants, signed)
    ensures var fx := DoGrantSpend(k, x, o.op, o.terms, o.now);
            fx.Write? ==> AllSigned(fx.book.grants, signed) && AllSigned(fx.undo.grants, signed)
  {
    hide AllSigned, KillSpend;
    var e := FindElevation(k.elevations, o.op);
    if e.Some? {
      ReplaceSigned(k.grants, SpendGrant(o.op, e.value.client, e.value.scopes, o.now, o.now + o.terms.ttl, x.bound,
                                         Epoch(x.roster, e.value.client), Some(FromTerms(o.terms)), Console), signed);
    }
  }

  lemma EffectSigned(k: Book, x: Context, o: GrantOp, signed: set<Envelope>)
    requires AllSigned(k.grants, signed) && Distinct(k.grants)
    ensures var fx, more := EffectOf(k, x, o), signed + SignedBy(o);
            fx.Write? ==> AllSigned(fx.book.grants, more) && AllSigned(fx.undo.grants, more)
  {
    hide AllSigned, Distinct, DoGrantSpend, DoOpenEnvelope, DoReserve, DoResolve, DoResetBreakers, DoCapContact,
         KillSpend;
    MoreSigned(k.grants, signed, signed + SignedBy(o));
    assert o.OpenEnvelope? || signed + SignedBy(o) == signed;
    match o
    case GrantSpend(_, _, _) => GrantSpendSigned(k, x, o, signed);
    case GrantByDevice(op, id, epoch, node, terms, verifies, now) =>
      ReplaceSigned(k.grants, SpendGrant(op, id, {Spend}, now, now + terms.ttl, node, epoch,
                                         Some(FromTerms(terms)), Receipt(verifies)), signed);
    case OpenEnvelope(_, _, _, _, _, _, _, _, _) => OpenEnvelopeSigned(k, x, o, signed);
    case EndRelations(id) => KillSigned(k.grants, RelationsOf({id}), signed);
    case RevokeGrants(whom) => KillSigned(k.grants, whom, signed);
    case Reserve(_, _, _, _, _, _, _, _, _, _) => ReserveSigned(k, x, o, signed);
    case ResolveShare(_, _, _, _, _) => ResolveSigned(k, o, signed);
    case ResetBreakers(_, _, _, _) => ResetSigned(k, x, o, signed);
    case CapContact(_, _, _, _, _, _, _) => CapContactSigned(k, x, o, signed);
    case _ =>
  }

  lemma SweptSigned(k: Book, p: PairOp, signed: set<Envelope>)
    requires AllSigned(k.grants, signed)
    ensures AllSigned(Swept(k, p).grants, signed)
  {
    hide AllSigned;
    match p
    case Bump(id) => KillSigned(k.grants, Only(id), signed);
    case Rotate(id, _) => KillSigned(k.grants, Only(id), signed);
    case Revoke(id) => KillSigned(k.grants, Only(id), signed);
    case ConsoleRevoke(ids, owners) =>
      KillSigned(k.grants, These(ids), signed);
      KillSigned(KillSpend(k.grants, These(ids)), RelationsOf(owners), signed);
    case Rebind(_) => KillSigned(k.grants, Everyone, signed);
    case _ =>
  }

  // ---- Runs ----

  predicate BothSigned(n: Node, signed: set<Envelope>) {
    AllSigned(n.mem.book.grants, signed) && AllSigned(n.disk.book.grants, signed)
  }

  function SignedAt(e: Event): set<Envelope> { if e.Do? && e.op.Grant? then SignedBy(e.op.grant) else {} }

  /** Every envelope the device signed during the run. */
  function SignedDuring(es: seq<Event>): set<Envelope> {
    if es == [] then {} else SignedAt(es[0]) + SignedDuring(es[1..])
  }

  lemma ChangeSigned(n: Node, o: Op, signed: set<Envelope>)
    requires AllSigned(n.mem.book.grants, signed) && Distinct(n.mem.book.grants)
    ensures var c, more := ChangeOf(n, o), signed + SignedAt(Do(o, Lost));
            AllSigned(c.file.book.grants, more) && (c.Writes? ==> AllSigned(c.undo.book.grants, more))
  {
    hide EffectOf, EditOf, Effective, AllSigned, Swept, Distinct;
    MoreSigned(n.mem.book.grants, signed, signed + SignedAt(Do(o, Lost)));
    match o
    case Pair(p) =>
      SweptSigned(n.mem.book, p, signed);
      MoreSigned(Swept(n.mem.book, p).grants, signed, signed + SignedAt(Do(o, Lost)));
    case Grant(g) => EffectSigned(n.mem.book, Context(n.mem.roster, n.bound, n.deployment), g, signed);
    case IssueToken(_, _) =>
  }

  lemma StepSigned(n: Node, e: Event, signed: set<Envelope>)
    requires BothSigned(n, signed) && Distinct(n.mem.book.grants)
    ensures BothSigned(Step(n, e).0, signed + SignedAt(e))
  {
    hide AllSigned, Distinct;
    MoreSigned(n.mem.book.grants, signed, signed + SignedAt(e));
    MoreSigned(n.disk.book.grants, signed, signed + SignedAt(e));
    if e.Do? {
      hide ChangeOf, Survives;
      ChangeSigned(n, e.op, signed);
      var c := ChangeOf(n, e.op);
      if c.Writes? && !e.outcome.Lost? { LiveSigned(c.file.book.grants, e.outcome.at, signed + SignedAt(e)); }
    }
  }

  lemma DistinctInBooks(n: Node)
    requires BooksOk(n, None)
    ensures Distinct(n.mem.book.grants)
  {
  }

  lemma {:induction false} RunSigned(n: Node, es: seq<Event>, signed: set<Envelope>)
    requires BooksOk(n, None) && LegalRun(n, es) && BothSigned(n, signed)
    ensures BothSigned(After(n, es), signed + SignedDuring(es)) && BooksOk(After(n, es), None)
    decreases |es|
  {
    hide BooksOk, Step, Legal, BothSigned;
    if es == [] {
      assert signed + SignedDuring(es) == signed;
    } else {
      assert SparedBy(es[0], None);
      DistinctInBooks(n);
      StepSigned(n, es[0], signed);
      StepKeepsBooks(n, es[0], None);
      RunSigned(Step(n, es[0]).0, es[1..], signed + SignedAt(es[0]));
      assert signed + SignedAt(es[0]) + SignedDuring(es[1..]) == signed + SignedDuring(es);
    }
  }

  /** An envelope for this client and contact, still open, that covers all of the call that goes to the contact. */
  predicate Covers(v: Envelope, o: GrantOp, r: Recipient)
    requires o.Reserve?
  {
    v.client == o.id && v.peer == r && o.now < v.ends && Owed(o.charges, r) <= v.perAct
  }

  /** The grant charged is a relation grant. */
  predicate UnderRelation(n: Node, o: GrantOp)
    requires o.Reserve?
  {
    var b := ChargedTo(n.mem.book, Context(n.mem.roster, n.bound, n.deployment), o);
    b.Some? && b.value.recipientsOnly
  }

  lemma ChargedIsSigned(n: Node, o: GrantOp, signed: set<Envelope>)
    requires o.Reserve? && AllSigned(n.mem.book.grants, signed)
    ensures var b := ChargedTo(n.mem.book, Context(n.mem.roster, n.bound, n.deployment), o);
            b.Some? ==> SignedIn(b.value, o.id, signed)
  {
    hide Permits, SignedIn;
    var i := ChargeIndex(n.mem.book.grants, Context(n.mem.roster, n.bound, n.deployment), o);
    if i < |n.mem.book.grants| { assert Signed(n.mem.book.grants[i], signed); }
  }

  lemma AllowedIsCovered(b: Budget, o: GrantOp, signed: set<Envelope>, r: Recipient)
    requires o.Reserve? && b.recipientsOnly && SignedIn(b, o.id, signed) && Allowed(b, o.charges, o.now)
    requires exists c :: c in o.charges && c.recipient == r
    ensures exists v :: v in signed && Covers(v, o, r)
  {
    var c :| c in o.charges && c.recipient == r;
    assert RecipientAllowed(b, o.charges, c.recipient, o.now);
    hide Owed;
    var v := Envelope(o.id, r, b.perAct[r], b.envelopeEnds[r]);
    assert v in signed && Covers(v, o, r);
  }

  /**
   After any run, crashes and restarts included, a call accepted under a relation grant pays a contact
   only within an envelope that the owner's device signed for that client and that contact: one that is
   still open, and that covers in one act all the call sends there.
   */
  lemma {:induction false} RelationPaysOnlyEnvelopes(
    n: Node, es: seq<Event>, signed: set<Envelope>, e: Event, r: Recipient)
    requires BooksOk(n, None) && LegalRun(n, es) && BothSigned(n, signed) && Legal(After(n, es), e)
    ensures Said(After(n, es), e).Accepted? ==> e.Do? && e.op.Grant? && e.op.grant.Reserve?
    ensures Said(After(n, es), e).Accepted? && UnderRelation(After(n, es), e.op.grant)
            && (exists c :: c in e.op.grant.charges && c.recipient == r) ==>
              exists v :: v in signed + SignedDuring(es) && Covers(v, e.op.grant, r)
  {
    hide BookOk, Step, Legal, Said, WhyNot, BudgetOk, ChargedTo, Held, AllSigned;
    RunSigned(n, es, signed);
    var m := After(n, es);
    if Said(m, e).Accepted? {
      var b := AcceptIsRemembered(m, e, None);
      AllowedIff(b, e.op.grant.charges, e.op.grant.now);
      ChargedIsSigned(m, e.op.grant, signed + SignedDuring(es));
      hide Allowed, SignedIn, Covers;
      if UnderRelation(m, e.op.grant) && (exists c :: c in e.op.grant.charges && c.recipient == r) {
        AllowedIsCovered(b, e.op.grant, signed + SignedDuring(es), r);
      }
    }
  }

  /** A node without relation grants starts with nothing signed. */
  lemma FreshIsUnsigned(bound: string, d: Deployment)
    ensures var f := File(Roster([], map[]), Book([], [], [])); BothSigned(Node(f, f, bound, d, {}), {})
  {
  }
}
