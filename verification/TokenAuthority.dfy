/**
 What a token carries. A token handed out is one the node accepts, with every scope it would accept;
 and what the node accepts is spelled out scope by scope.
 */
module TokenAuthority {
  import opened Common
  import opened SpendBudget
  import opened Roster
  import opened GrantBook
  import opened PairingLedger

  // ---- Scopes ----

  /** A grant of this client, written for its current epoch and this identity, with a budget and unexpired. */
  predicate GrantStands(n: Node, r: Client, g: SpendGrant, now: int) {
    && g in n.mem.book.grants && g.client == r.id && g.epoch == r.epoch && g.identity == n.bound
    && g.budget.Some? && now < g.expiresAt <= g.grantedAt + 24 * 3600
  }

  predicate DoorStands(n: Node, r: Client, g: FrontDoorGrant, now: int) {
    && g in n.mem.book.frontDoor && g.client == r.id && g.epoch == r.epoch && g.identity == n.bound
    && !g.revoked && now < g.expiresAt <= g.grantedAt + 24 * 3600
  }

  /** A sidecar has no owner console: only grants the owner's own device signed lend anything there. */
  predicate DeviceSigned(n: Node, g: SpendGrant) {
    && n.deployment.localDevice
    && (g.origin.Receipt? ==> n.deployment.deviceAuthority && g.origin.verifies)
    && (g.origin.Device? ==> n.deployment.ownerKey && g.budget.Some? && g.budget.value.recipientsOnly)
    && !g.origin.Console?
  }

  ghost predicate IsLent(n: Node, r: Client, s: Scope, now: int) {
    exists g :: GrantStands(n, r, g, now) && s in g.scopes
                && (n.deployment.ownerControl || (s == Spend && DeviceSigned(n, g)))
  }

  ghost predicate IsDoorOpen(n: Node, r: Client, now: int) { exists g :: DoorStands(n, r, g, now) }

  /** The one way each scope comes to a pairing: its own record, a standing grant, or a standing front door. */
  ghost predicate Carries(n: Node, r: Client, s: Scope, now: int) {
    && r.scopes != {}
    && (|| (s in r.scopes && (n.deployment.ownerControl || (s != Spend && s != FrontDoor)))
        || IsLent(n, r, s, now)
        || (s == FrontDoor && n.deployment.ownerControl && IsDoorOpen(n, r, now)))
  }

  lemma LentIff(n: Node, r: Client, g: SpendGrant, now: int)
    ensures Lends(n.mem.book, n.bound, r, g, now) <==> GrantStands(n, r, g, now)
    ensures !n.deployment.ownerControl ==> (Permits(n.deployment, g) <==> DeviceSigned(n, g))
  {
  }

  lemma DoorIff(n: Node, r: Client, now: int)
    ensures DoorOpen(n.mem.book, n.bound, r, now) <==> IsDoorOpen(n, r, now)
  {
    if DoorOpen(n.mem.book, n.bound, r, now) {
      var g :| g in n.mem.book.frontDoor && g.client == r.id && FrontDoorLive(g, now)
               && g.epoch == r.epoch && g.identity == n.bound;
      assert DoorStands(n, r, g, now);
    }
  }

  /** The scopes computed for a pairing are exactly those it carries. */
  lemma ScopeIsCarriedIff(n: Node, r: Client, s: Scope, now: int)
    ensures s in Effective(n.mem, n.bound, n.deployment, r, now) <==> Carries(n, r, s, now)
  {
    DoorIff(n, r, now);
    hide DoorOpen, IsDoorOpen, Permits, DeviceSigned, Lends, GrantStands;
    forall g ensures Lends(n.mem.book, n.bound, r, g, now) <==> GrantStands(n, r, g, now)
             ensures !n.deployment.ownerControl ==> (Permits(n.deployment, g) <==> DeviceSigned(n, g)) {
      LentIff(n, r, g, now);
    }
    if IsLent(n, r, s, now) {
      var g :| GrantStands(n, r, g, now) && s in g.scopes
               && (n.deployment.ownerControl || (s == Spend && DeviceSigned(n, g)));
      assert g in n.mem.book.grants by { LentInBook(n, r, g, now); }
    }
  }

  lemma LentInBook(n: Node, r: Client, g: SpendGrant, now: int)
    requires GrantStands(n, r, g, now)
    ensures g in n.mem.book.grants
  {
  }

  /** A request passes exactly if its token names a pairing, its epoch and identity, and claims only what it carries. */
  lemma AcceptsIff(n: Node, t: Token, now: int)
    ensures Accepts(n, t, now) <==>
              && Find(n.mem.roster.clients, t.client).Some?
              && var r := Find(n.mem.roster.clients, t.client).value;
                 && t.epoch == r.epoch && t.identity == r.identity == n.bound
                 && forall s :: s in t.scopes ==> Carries(n, r, s, now)
  {
    if Find(n.mem.roster.clients, t.client).Some? {
      var r := Find(n.mem.roster.clients, t.client).value;
      forall s ensures s in Effective(n.mem, n.bound, n.deployment, r, now) <==> Carries(n, r, s, now) {
        ScopeIsCarriedIff(n, r, s, now);
      }
      hide Effective, Carries;
    }
  }

  // ---- Issuing ----

  /** The pairing may be given a token: it was made for this identity and used, or made, within 180 days. */
  predicate MayIssue(n: Node, id: ClientId, now: int) {
    && Find(n.mem.roster.clients, id).Some?
    && var r := Find(n.mem.roster.clients, id).value;
       r.identity == n.bound && now <= 15_552_000 + match r.lastSeen case Some(t) => t case None => r.createdAt
  }

  /** A token comes out exactly when the pairing may have one and the write that records its use was kept. */
  lemma IssuesIff(n: Node, id: ClientId, now: int, w: Outcome)
    ensures Step(n, Do(IssueToken(id, now), w)).1.Issued? <==> MayIssue(n, id, now) && w.Kept?
  {
    hide Effective, EditOf, Live;
  }

  /** Issuing changes nothing but when the pairing was last used, in memory and, once written, on disk. */
  lemma IssueOnlyTouches(n: Node, id: ClientId, now: int, w: Outcome, x: ClientId)
    ensures var m := Step(n, Do(IssueToken(id, now), w)).0;
            && m.bound == n.bound && m.mem.roster.lastEpoch == n.mem.roster.lastEpoch
            && Find(m.mem.roster.clients, x)
               == (if x == id && MayIssue(n, id, now)
                   then Some(Find(n.mem.roster.clients, x).value.(lastSeen := Some(now)))
                   else Find(n.mem.roster.clients, x))
            && (!w.Lost? && MayIssue(n, id, now) ==> m.disk.roster == m.mem.roster)
  {
    hide Effective, Live;
    FindId(n.mem.roster.clients, id);
    if MayIssue(n, id, now) {
      FindPut(n.mem.roster.clients, Find(n.mem.roster.clients, id).value.(lastSeen := Some(now)), x);
    }
  }

  /**
   A token handed out is this client's, the node accepts it, and no token of this client that the node
   accepts claims more.
   */
  lemma IssuedTokenIsFull(n: Node, id: ClientId, now: int, w: Outcome)
    ensures var a := Step(n, Do(IssueToken(id, now), w)).1;
            a.Issued? ==>
              && a.token.client == id && Accepts(n, a.token, now)
              && forall t: Token :: t.client == id && Accepts(n, t, now) ==>
                   t.epoch == a.token.epoch && t.scopes <= a.token.scopes
  {
    hide Effective, EditOf, Live;
  }
}
