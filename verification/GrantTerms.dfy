/**
 What a grant can cost its owner over a whole run: nothing accepted under it ever takes its total, or
 a contact's share of it, past what the owner approved. Only a payment that cost more than was
 reserved for it can, by no more than the difference, which the ledger records rather than hides.
 */
module GrantTerms {
  import opened Common
  import opened SpendBudget
  import opened Roster
  import opened GrantBook
  import opened PairingLedger

  predicate ResolvesUnder(e: Event, op: OpId) {
    e.Do? && e.op.Grant? && e.op.grant.ResolveShare? && e.op.grant.op == op
  }

  function OverrunsAfter(n: Node, e: Event, op: OpId, seen: map<Recipient, nat>): map<Recipient, nat> {
    if !ResolvesUnder(e, op) then seen else
      var o := e.op.grant;
      seen[o.share.recipient := Get(seen, o.share.recipient) + Overrun(n.mem.book, o)]
  }

  /** How much more the run's resolutions under a grant recorded than was reserved, for each recipient. */
  ghost function Overruns(n: Node, es: seq<Event>, op: OpId, seen: map<Recipient, nat>): map<Recipient, nat>
    decreases |es|
  {
    if es == [] then seen else
      Overruns(Step(n, es[0]).0, es[1..], op, OverrunsAfter(n, es[0], op, seen))
  }

  /** No resolution under the grant records more than was reserved for the share. */
  ghost predicate NoOverrun(n: Node, es: seq<Event>, op: OpId)
    decreases |es|
  {
    es == [] || (&& (ResolvesUnder(es[0], op) ==> Overrun(n.mem.book, es[0].op.grant) == 0)
                 && NoOverrun(Step(n, es[0]).0, es[1..], op))
  }

  /** A resolution, however its write ends, leaves both files under the ceiling moved by its overrun. */
  lemma ResolutionEases(n: Node, e: Event, v: Witness)
    requires BooksOk(n, Some(v)) && Legal(n, e) && ResolvesUnder(e, v.op) && v.held == map[]
    ensures BooksOk(Step(n, e).0, Some(Eased(v, e.op.grant.share.recipient, Overrun(n.mem.book, e.op.grant))))
  {
    var o := e.op.grant;
    var r, over := o.share.recipient, Overrun(n.mem.book, o);
    assert LeavesOwed(o, Some(v)) && EasedFor(Some(v), v.op, r, over) == Some(Eased(v, r, over));
    assert n.drawn + DrawsOf(e.op) == n.drawn;
    hide BookOk, Step, NoClip, Eased, EasedFor, LeavesOwed, DoResolve, Overrun;
    ResolveKeeps(n.mem.book, o, n.drawn, Some(v));
    EasedOk(n.mem.book, n.drawn, Some(v), v.op, r, over);
    EasedOk(n.disk.book, n.drawn, Some(v), v.op, r, over);
    ChangeCarries(n, e, Some(Eased(v, r, over)));
  }

  function WithSpill(v: Witness, c: Ceiling, spill: map<Recipient, nat>): Witness {
    v.(ceiling := Some(c.(spill := spill)))
  }

  lemma CeilingStep(n: Node, e: Event, v: Witness, c: Ceiling)
    requires BooksOk(n, Some(v)) && Legal(n, e) && v.held == map[] && v.admitted == map[] && v.ceiling == Some(c)
    ensures BooksOk(Step(n, e).0, Some(WithSpill(v, c, OverrunsAfter(n, e, v.op, c.spill))))
  {
    hide BooksOk, Step, Legal, Overrun;
    if ResolvesUnder(e, v.op) {
      ResolutionEases(n, e, v);
    } else {
      assert SparedBy(e, Some(v)) && WithSpill(v, c, c.spill) == v;
      StepKeepsBooks(n, e, Some(v));
    }
  }

  /** Over every run both files stay under the ceiling moved by the overruns of the run. */
  lemma {:induction false} CeilingHolds(n: Node, es: seq<Event>, v: Witness, c: Ceiling)
    requires BooksOk(n, Some(v)) && LegalRun(n, es) && v.held == map[] && v.admitted == map[] && v.ceiling == Some(c)
    ensures BooksOk(After(n, es), Some(WithSpill(v, c, Overruns(n, es, v.op, c.spill))))
    decreases |es|
  {
    hide BooksOk, Step, Legal, OverrunsAfter;
    if es == [] {
      assert WithSpill(v, c, c.spill) == v;
    } else {
      CeilingStep(n, es[0], v, c);
      var spill := OverrunsAfter(n, es[0], v.op, c.spill);
      CeilingHolds(Step(n, es[0]).0, es[1..], WithSpill(v, c, spill), c.(spill := spill));
    }
  }

  /** The event writes a grant on these terms, if it succeeds. */
  predicate Approves(e: Event, terms: Terms) {
    e.Do? && e.op.Grant? && (e.op.grant.GrantSpend? || e.op.grant.GrantByDevice?) && e.op.grant.terms == terms
  }

  /** Wherever the grant stands with a budget, in memory or on disk, its tallies are under the ceiling. */
  ghost predicate BothUnder(n: Node, op: OpId, c: Ceiling) {
    forall g :: (g in n.mem.book.grants || g in n.disk.book.grants) && g.op == op && g.budget.Some? ==>
      TallyUnder(g.budget.value.used, g.budget.value.usedBy, c)
  }

  lemma SeenUnder(k: Book, drawn: set<string>, v: Witness, g: SpendGrant)
    requires BookOk(k, drawn, Some(v)) && v.ceiling.Some? && g in k.grants && g.op == v.op && g.budget.Some?
    ensures TallyUnder(g.budget.value.used, g.budget.value.usedBy, v.ceiling.value)
  {
    assert GrantOk(g, drawn, Some(v));
    hide BudgetOk;
  }

  lemma BothSeenUnder(n: Node, v: Witness)
    requires BooksOk(n, Some(v)) && v.ceiling.Some?
    ensures BothUnder(n, v.op, v.ceiling.value)
  {
    hide BookOk, TallyUnder;
    forall g | g in n.mem.book.grants && g.op == v.op && g.budget.Some?
      ensures TallyUnder(g.budget.value.used, g.budget.value.usedBy, v.ceiling.value) {
      SeenUnder(n.mem.book, n.drawn, v, g);
    }
    forall g | g in n.disk.book.grants && g.op == v.op && g.budget.Some?
      ensures TallyUnder(g.budget.value.used, g.budget.value.usedBy, v.ceiling.value) {
      SeenUnder(n.disk.book, n.drawn, v, g);
    }
  }

  lemma BeginsUnder(terms: Terms, op: OpId, client: ClientId)
    ensures Recollects(FromTerms(terms), About(op, client).(ceiling := Some(Approved(terms, map[]))))
  {
  }

  function Recalled(op: OpId, client: ClientId, terms: Terms, spill: map<Recipient, nat>): Witness {
    About(op, client).(ceiling := Some(Approved(terms, spill)))
  }

  /** Both files recall the terms of an acknowledged grant for the rest of the run. */
  lemma {:induction false} TermsAreRecalled(n: Node, e: Event, terms: Terms, es: seq<Event>) returns (client: ClientId)
    requires BooksOk(n, None) && LegalRun(n, [e] + es) && Approves(e, terms) && Said(n, e).Fine?
    ensures var m, op := Step(n, e).0, e.op.grant.op;
            BooksOk(After(m, es), Some(Recalled(op, client, terms, Overruns(m, es, op, map[]))))
  {
    assert ([e] + es)[1..] == es;
    assert Grants(n, e) && Begins(n.mem.book, e.op.grant) == Some(FromTerms(terms));
    hide BooksOk, Step, Said, Legal, Begins, FromTerms, Recollects;
    client := GrantIsRemembered(n, e);
    var op := e.op.grant.op;
    BeginsUnder(terms, op, client);
    CeilingHolds(Step(n, e).0, es, Recalled(op, client, terms, map[]), Approved(terms, map[]));
  }

  /**
   From the moment a grant's terms are acknowledged, over every run with refusals, rollbacks, crashes
   and restarts, what it has committed stays within the approved total, and within each approved
   contact's cap, plus what payments cost above their own reservations.
   */
  lemma {:induction false} GrantKeepsToItsTerms(n: Node, e: Event, terms: Terms, es: seq<Event>)
    requires BooksOk(n, None) && LegalRun(n, [e] + es) && Approves(e, terms)
    ensures var m := Step(n, e).0;
            Said(n, e).Fine? ==>
              BothUnder(After(m, es), e.op.grant.op, Approved(terms, Overruns(m, es, e.op.grant.op, map[])))
  {
    hide BooksOk, Step, Said, LegalRun, BothUnder;
    if Said(n, e).Fine? {
      var client := TermsAreRecalled(n, e, terms, es);
      var m, op := Step(n, e).0, e.op.grant.op;
      BothSeenUnder(After(m, es), Recalled(op, client, terms, Overruns(m, es, op, map[])));
    }
  }

  /** The call is one the owner's terms allow: in size, to whom, and for what. */
  ghost predicate KeepsToTerms(o: GrantOp, terms: Terms)
    requires o.Reserve?
  {
    && Amount(o.charges) <= terms.perCall
    && (forall c :: c in o.charges && terms.allowlist.Some? ==> c.recipient in terms.allowlist.value)
    && (o.liquidity ==> terms.liquidity)
  }

  lemma AllowedKeepsToTerms(b: Budget, o: GrantOp, terms: Terms, spill: map<Recipient, nat>)
    requires o.Reserve? && Under(b, Approved(terms, spill)) && Allowed(b, o.charges, o.now)
    requires o.liquidity ==> b.liquidity
    ensures KeepsToTerms(o, terms)
  {
    hide TallyUnder, Extends, EnvelopeCovers, Owed, PaymentsSince, MsatSince, Unresolved;
    forall c | c in o.charges && terms.allowlist.Some? ensures c.recipient in terms.allowlist.value {
      assert RecipientAllowed(b, o.charges, c.recipient, o.now);
    }
  }

  /** After any run, every call accepted under a grant is one that the terms acknowledged for it allow. */
  lemma {:induction false} AcceptedCallsKeepToTerms(n: Node, e: Event, terms: Terms, es: seq<Event>, call: Event)
    requires BooksOk(n, None) && LegalRun(n, [e] + es) && Approves(e, terms) && Said(n, e).Fine?
    requires Legal(After(Step(n, e).0, es), call)
    ensures var m := After(Step(n, e).0, es);
            Said(m, call).Accepted? ==> call.Do? && call.op.Grant? && call.op.grant.Reserve?
    ensures var m := After(Step(n, e).0, es);
            Said(m, call).Accepted? && Said(m, call).op == e.op.grant.op ==> KeepsToTerms(call.op.grant, terms)
  {
    hide BooksOk, Step, Said, Legal, LegalRun, WhyNot, BudgetOk, ChargedTo, Held;
    var client := TermsAreRecalled(n, e, terms, es);
    var op, m, spill := e.op.grant.op, After(Step(n, e).0, es), Overruns(Step(n, e).0, es, e.op.grant.op, map[]);
    var b := AcceptIsRemembered(m, call, Some(Recalled(op, client, terms, spill)));
    if Said(m, call).Accepted? && Said(m, call).op == op {
      AllowedIff(b, call.op.grant.charges, call.op.grant.now);
      hide Under, Allowed, KeepsToTerms;
      AllowedKeepsToTerms(b, call.op.grant, terms, spill);
    }
  }

  predicate AllZero(m: map<Recipient, nat>) { forall r :: r in m ==> m[r] == 0 }

  lemma {:induction false} AllZeroSums(m: map<Recipient, nat>)
    requires AllZero(m)
    ensures Sum(m) == 0
    decreases |m|
  {
    if m != map[] {
      var r :| r in m;
      SumDrop(m, r);
      AllZeroSums(m - {r});
    }
  }

  lemma {:induction false} NoOverrunsSumToNothing(n: Node, es: seq<Event>, op: OpId, seen: map<Recipient, nat>)
    requires NoOverrun(n, es, op) && AllZero(seen)
    ensures AllZero(Overruns(n, es, op, seen))
    decreases |es|
  {
    hide Step, Overrun;
    if es != [] {
      NoOverrunsSumToNothing(Step(n, es[0]).0, es[1..], op, OverrunsAfter(n, es[0], op, seen));
    }
  }

  /** What is pending and what was paid together, in all and for each capped contact, keep to the terms. */
  ghost predicate Affordable(b: Budget, terms: Terms) {
    && PendingTotal(b.pending) + Sum(b.settled) <= terms.total
    && forall r :: r in terms.caps ==> PendingFor(b.pending, r) + SettledFor(b.settled, r) <= terms.caps[r]
  }

  lemma UnderIsAffordable(b: Budget, terms: Terms, over: map<Recipient, nat>)
    requires Conserved(b) && TallyUnder(b.used, b.usedBy, Approved(terms, over)) && AllZero(over)
    ensures Affordable(b, terms)
  {
    hide Sum, PendingTotal, PendingFor, SettledFor, Apart;
    AllZeroSums(over);
    forall r | r in terms.caps ensures PendingFor(b.pending, r) + SettledFor(b.settled, r) <= terms.caps[r] {
      assert BalancedFor(b.usedBy, b.pending, b.settled, r);
    }
  }

  lemma ConservedIn(k: Book, drawn: set<string>, g: SpendGrant)
    requires BookOk(k, drawn, None) && g in k.grants && g.budget.Some?
    ensures Conserved(g.budget.value)
  {
    assert GrantOk(g, drawn, None);
  }

  /**
   If no payment under the grant costs more than was reserved for it, what is pending and what was paid
   never together pass what the owner approved, in memory or on disk, at any point of any run.
   */
  lemma {:induction false} NeverMoreThanApproved(n: Node, e: Event, terms: Terms, es: seq<Event>, g: SpendGrant)
    requires BooksOk(n, None) && LegalRun(n, [e] + es) && Approves(e, terms)
    requires Said(n, e).Fine? && NoOverrun(Step(n, e).0, es, e.op.grant.op)
    ensures var m := After(Step(n, e).0, es);
            (g in m.mem.book.grants || g in m.disk.book.grants) && g.op == e.op.grant.op && g.budget.Some? ==>
              Affordable(g.budget.value, terms)
  {
    hide BookOk, Step, Said, Legal, Affordable, TallyUnder;
    var op, m := e.op.grant.op, After(Step(n, e).0, es);
    var over := Overruns(Step(n, e).0, es, op, map[]);
    assert ([e] + es)[1..] == es && After(n, [e] + es) == m;
    GrantKeepsToItsTerms(n, e, terms, es);
    NoOverrunsSumToNothing(Step(n, e).0, es, op, map[]);
    AlwaysSpared([e] + es, None);
    BudgetsBalanceOverRuns(n, [e] + es, None);
    if (g in m.mem.book.grants || g in m.disk.book.grants) && g.op == op && g.budget.Some? {
      if g in m.mem.book.grants { ConservedIn(m.mem.book, m.drawn, g); } else { ConservedIn(m.disk.book, m.drawn, g); }
      UnderIsAffordable(g.budget.value, terms, over);
    }
  }
}
