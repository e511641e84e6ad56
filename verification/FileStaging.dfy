/**
 Volatile upload staging with quotas. A send claims a file and holds a guard; the bytes stay counted
 until the guard is dropped. Which owners are live is asked of the pairing service at every step.
 */
module FileStaging {
  import opened Common

  const MAX_FILE_BYTES: nat := 4 * 1024 * 1024
  const MAX_OWNER_BYTES: nat := 8 * 1024 * 1024
  const MAX_TOTAL_BYTES: nat := 16 * 1024 * 1024
  const MAX_FILES: nat := 64
  const TTL: int := 300

  type Owner = string

  datatype Entry = Entry(owner: Owner, size: nat, expires: int, sending: bool)

  type Entries = map<string, Entry>

  /** The staging area and, as a multiset of file ids, the send guards in existence. */
  datatype Staging = Staging(entries: Entries, guards: multiset<string>)

  /** `live`: the owners whose authority stands right now. */
  datatype Event =
    | Sweep(now: int, live: set<Owner>)
    | Insert(id: string, owner: Option<Owner>, size: nat, now: int, live: set<Owner>)
    | Remove(id: string)
    | Claim(id: string, who: Option<Owner>, admin: bool, now: int, live: set<Owner>)
    | DropGuard(id: string)

  datatype Reply = Fine | Refused | Missing | Claimed

  function Swept(m: Entries, now: int, live: set<Owner>): Entries {
    map id | id in m && (m[id].sending || (m[id].expires > now && m[id].owner in live)) :: m[id]
  }

  // ---- Quotas ----

  ghost function Sizes(m: Entries): map<string, nat> { map id | id in m :: m[id].size }

  ghost function SizesOf(m: Entries, owner: Owner): map<string, nat> {
    map id | id in m && m[id].owner == owner :: m[id].size
  }

  ghost function Total(m: Entries): nat { Sum(Sizes(m)) }

  ghost function Own(m: Entries, owner: Owner): nat { Sum(SizesOf(m, owner)) }

  ghost predicate Room(m: Entries, owner: Owner, size: nat) {
    |m| < MAX_FILES && Total(m) + size <= MAX_TOTAL_BYTES && Own(m, owner) + size <= MAX_OWNER_BYTES
  }

  ghost function Step(s: Staging, e: Event): (Staging, Reply) {
    match e
    case Sweep(now, live) => (s.(entries := Swept(s.entries, now, live)), Fine)
    case Insert(id, owner, size, now, live) =>
      var m := Swept(s.entries, now, live);
      if owner.None? || owner.value !in live || size > MAX_FILE_BYTES || !Room(m, owner.value, size)
      then (s.(entries := m), Refused)
      else (s.(entries := m[id := Entry(owner.value, size, now + TTL, false)]), Fine)
    case Remove(id) =>
      if id in s.entries && s.entries[id].sending then (s, Refused)
      else if id in s.entries then (s.(entries := s.entries - {id}), Fine)
      else (s, Missing)
    case Claim(id, who, admin, now, live) =>
      var m := Swept(s.entries, now, live);
      if id !in m then (s.(entries := m), Missing)
      else if m[id].owner !in live || (!admin && who != Some(m[id].owner)) || m[id].sending
      then (s.(entries := m), Refused)
      else (Staging(m[id := m[id].(sending := true)], s.guards + multiset{id}), Claimed)
    case DropGuard(id) => (Staging(s.entries - {id}, s.guards - multiset{id}), Fine)
  }

  ghost function After(s: Staging, es: seq<Event>): Staging
    decreases |es|
  {
    if es == [] then s else After(Step(s, es[0]).0, es[1..])
  }

  ghost predicate WithinQuota(m: Entries) {
    |m| <= MAX_FILES && Total(m) <= MAX_TOTAL_BYTES && forall owner :: Own(m, owner) <= MAX_OWNER_BYTES
  }

  lemma TotalDrop(m: Entries, id: string)
    requires id in m
    ensures Total(m) == Total(m - {id}) + m[id].size
  {
    SumDrop(Sizes(m), id);
    assert Sizes(m - {id}) == Sizes(m) - {id};
  }

  lemma OwnDrop(m: Entries, id: string, owner: Owner)
    requires id in m
    ensures Own(m, owner) == Own(m - {id}, owner) + (if m[id].owner == owner then m[id].size else 0)
  {
    if m[id].owner == owner {
      SumDrop(SizesOf(m, owner), id);
      assert SizesOf(m - {id}, owner) == SizesOf(m, owner) - {id};
    } else {
      assert SizesOf(m - {id}, owner) == SizesOf(m, owner);
    }
  }

  lemma DropWithinQuota(m: Entries, id: string)
    requires WithinQuota(m) && id in m
    ensures WithinQuota(m - {id})
  {
    TotalDrop(m, id);
    assert m.Keys == (m - {id}).Keys + {id};
    forall owner ensures Own(m - {id}, owner) <= MAX_OWNER_BYTES { OwnDrop(m, id, owner); }
  }

  lemma {:induction false} SubmapWithinQuota(m: Entries, n: Entries)
    requires WithinQuota(m) && n.Keys <= m.Keys && forall id :: id in n ==> n[id] == m[id]
    ensures WithinQuota(n)
    decreases |m|
  {
    if n.Keys == m.Keys {
      assert n == m;
    } else {
      var id :| id in m && id !in n;
      DropWithinQuota(m, id);
      assert m.Keys == (m - {id}).Keys + {id};
      SubmapWithinQuota(m - {id}, n);
    }
  }

  /** Adding an entry, or replacing one, adds at most its size. */
  lemma InsertAdds(m: Entries, id: string, e: Entry, owner: Owner)
    ensures var n := m[id := e];
            && |n| <= |m| + 1 && Total(n) <= Total(m) + e.size
            && Own(n, owner) <= Own(m, owner) + (if owner == e.owner then e.size else 0)
  {
    hide Total, Own;
    var n, rest := m[id := e], m - {id};
    assert n - {id} == rest && n.Keys == rest.Keys + {id};
    TotalDrop(n, id);
    OwnDrop(n, id, owner);
    if id in m {
      assert m.Keys == rest.Keys + {id};
      TotalDrop(m, id);
      OwnDrop(m, id, owner);
    } else {
      assert rest == m;
    }
  }

  lemma InsertWithinQuota(m: Entries, id: string, e: Entry)
    requires WithinQuota(m) && Room(m, e.owner, e.size)
    ensures WithinQuota(m[id := e])
  {
    hide Total, Own;
    InsertAdds(m, id, e, e.owner);
    var n := m[id := e];
    forall owner ensures Own(n, owner) <= MAX_OWNER_BYTES {
      assert Own(m, owner) <= MAX_OWNER_BYTES;
      InsertAdds(m, id, e, owner);
    }
  }

  /** Marking an entry as sending moves no bytes. */
  lemma MarkWithinQuota(m: Entries, id: string)
    requires WithinQuota(m) && id in m
    ensures WithinQuota(m[id := m[id].(sending := true)])
  {
    var n := m[id := m[id].(sending := true)];
    assert Sizes(n) == Sizes(m) && n.Keys == m.Keys;
    forall owner ensures Own(n, owner) <= MAX_OWNER_BYTES {
      assert Own(m, owner) <= MAX_OWNER_BYTES && SizesOf(n, owner) == SizesOf(m, owner);
    }
  }

  lemma StepWithinQuota(s: Staging, e: Event)
    requires WithinQuota(s.entries)
    ensures WithinQuota(Step(s, e).0.entries)
  {
    hide WithinQuota, Room, Total, Own;
    match e
    case Sweep(now, live) => SubmapWithinQuota(s.entries, Swept(s.entries, now, live));
    case Insert(id, owner, size, now, live) =>
      var m := Swept(s.entries, now, live);
      SubmapWithinQuota(s.entries, m);
      if owner.Some? && Room(m, owner.value, size) {
        InsertWithinQuota(m, id, Entry(owner.value, size, now + TTL, false));
      }
    case Remove(id) => SubmapWithinQuota(s.entries, s.entries - {id});
    case Claim(id, _, _, now, live) =>
      var m := Swept(s.entries, now, live);
      SubmapWithinQuota(s.entries, m);
      if id in m { MarkWithinQuota(m, id); }
    case DropGuard(id) => SubmapWithinQuota(s.entries, s.entries - {id});
  }

  /** At most 64 files, 16 MiB in all and 8 MiB per owner, over every run and whatever the ids. */
  lemma {:induction false} QuotasHold(s: Staging, es: seq<Event>)
    requires WithinQuota(s.entries)
    ensures var m := After(s, es).entries;
            |m| <= 64 && Total(m) <= 16 * 1024 * 1024 && forall owner :: Own(m, owner) <= 8 * 1024 * 1024
    decreases |es|
  {
    if es != [] {
      hide Step, WithinQuota;
      StepWithinQuota(s, es[0]);
      QuotasHold(Step(s, es[0]).0, es[1..]);
    }
  }

  // ---- Guards ----

  predicate IsSending(m: Entries, id: string) { id in m && m[id].sending }

  /** Each file being sent has exactly one guard, and each guard a file being sent. */
  ghost predicate Paired(s: Staging) { forall id :: s.guards[id] == if IsSending(s.entries, id) then 1 else 0 }

  /** Uploads get new ids; only an existing guard can be dropped. */
  predicate Legal(s: Staging, e: Event) {
    match e
    case Insert(id, _, _, _, _) => !IsSending(s.entries, id)
    case DropGuard(id) => id in s.guards
    case _ => true
  }

  lemma SweepKeepsSending(m: Entries, now: int, live: set<Owner>, id: string)
    ensures IsSending(Swept(m, now, live), id) == IsSending(m, id)
  {
  }

  lemma StepKeepsPaired(s: Staging, e: Event)
    requires Paired(s) && Legal(s, e)
    ensures Paired(Step(s, e).0)
  {
    forall id ensures Step(s, e).0.guards[id] == if IsSending(Step(s, e).0.entries, id) then 1 else 0 {
      assert s.guards[id] == if IsSending(s.entries, id) then 1 else 0;
      if e.Sweep? || e.Insert? || e.Claim? { SweepKeepsSending(s.entries, e.now, e.live, id); }
      hide Room;
    }
  }

  ghost predicate LegalRun(s: Staging, es: seq<Event>)
    decreases |es|
  {
    es == [] || (Legal(s, es[0]) && LegalRun(Step(s, es[0]).0, es[1..]))
  }

  /** Live send guards and files being sent correspond one to one in every reachable state. */
  lemma {:induction false} GuardsMatchSends(s: Staging, es: seq<Event>)
    requires Paired(s) && LegalRun(s, es)
    ensures Paired(After(s, es))
    decreases |es|
  {
    hide Step, Paired, Legal;
    if es != [] {
      StepKeepsPaired(s, es[0]);
      GuardsMatchSends(Step(s, es[0]).0, es[1..]);
    }
  }

  /** An upload keeps the correspondence exactly when its id is not that of a file being sent. */
  lemma UploadKeepsPairingIff(s: Staging, e: Event)
    requires Paired(s) && e.Insert? && Step(s, e).1.Fine?
    ensures Paired(Step(s, e).0) <==> !IsSending(s.entries, e.id)
  {
    hide Room;
    if IsSending(s.entries, e.id) {
      assert s.guards[e.id] == 1;
      assert !IsSending(Step(s, e).0.entries, e.id);
    } else {
      StepKeepsPaired(s, e);
    }
  }

  /** An upload under the id of a file being sent: accepted, and the guard is left without its file. */
  lemma UploadCanOrphanGuard()
    ensures var s := Staging(map["f" := Entry("o", 1, 300, true)], multiset{"f"});
            var e := Insert("f", Some("o"), 1, 0, {"o"});
            Paired(s) && Step(s, e).1.Fine? && !Paired(Step(s, e).0)
  {
    var m: Entries := map["f" := Entry("o", 1, 300, true)];
    var s := Staging(m, multiset{"f"});
    var e := Insert("f", Some("o"), 1, 0, {"o"});
    assert Swept(m, 0, {"o"}) == m;
    assert m - {"f"} == map[];
    TotalDrop(m, "f");
    OwnDrop(m, "f", "o");
    assert Sizes(map[]) == map[] && SizesOf(map[], "o") == map[];
    assert |m| == 1 by { assert m.Keys == {"f"}; }
    assert Room(m, "o", 1);
    UploadKeepsPairingIff(s, e);
  }

  /** A file being sent is neither swept, removed, claimed again nor changed until its guard is dropped. */
  lemma SendingIsPinned(s: Staging, e: Event, id: string)
    requires Legal(s, e) && IsSending(s.entries, id) && e != DropGuard(id)
    ensures var (t, r) := Step(s, e);
            && id in t.entries && t.entries[id] == s.entries[id]
            && (e == Remove(id) ==> r.Refused?) && (e.Claim? && e.id == id ==> r.Refused?)
  {
    hide Room;
  }

  // ---- Who may do what ----

  /** Staged and to be kept: being sent, or neither run out nor left behind by its owner. */
  predicate Stands(s: Staging, id: string, now: int, live: set<Owner>) {
    id in s.entries
    && (s.entries[id].sending || (now < s.entries[id].expires && s.entries[id].owner in live))
  }

  /** Everything that looks at the clock drops exactly what no longer stands. */
  lemma SweepKeepsIff(s: Staging, now: int, live: set<Owner>, id: string)
    ensures id in Swept(s.entries, now, live) <==> Stands(s, id, now, live)
    ensures id in Swept(s.entries, now, live) ==> Swept(s.entries, now, live)[id] == s.entries[id]
  {
  }

  /** A file is claimed exactly by its live owner, or an administrator, and by one send at a time. */
  lemma ClaimsIff(s: Staging, id: string, who: Option<Owner>, admin: bool, now: int, live: set<Owner>)
    ensures var (t, r) := Step(s, Claim(id, who, admin, now, live));
            && (r.Claimed? <==> && Stands(s, id, now, live) && !s.entries[id].sending && s.entries[id].owner in live
                                && (admin || who == Some(s.entries[id].owner)))
            && (r.Claimed? ==> && t.guards == s.guards + multiset{id} && id in t.entries
                               && t.entries[id] == s.entries[id].(sending := true))
            && (!r.Claimed? ==> t.guards == s.guards)
            && (r.Missing? <==> !Stands(s, id, now, live))
  {
  }

  /** A file is removed exactly if it is there and not being sent. */
  lemma RemovesIff(s: Staging, id: string)
    ensures var (t, r) := Step(s, Remove(id));
            && (r.Fine? <==> id in s.entries && !s.entries[id].sending)
            && t.entries == (if r.Fine? then s.entries - {id} else s.entries) && t.guards == s.guards
  {
  }

  /** What stands of the staging area. */
  function Standing(s: Staging, now: int, live: set<Owner>): Entries {
    map id | id in s.entries && Stands(s, id, now, live) :: s.entries[id]
  }

  /** An upload is taken exactly from a live owner, up to 4 MiB, if it fits beside what stands. */
  lemma UploadsIff(s: Staging, id: string, owner: Option<Owner>, size: nat, now: int, live: set<Owner>)
    ensures var (t, r) := Step(s, Insert(id, owner, size, now, live));
            var m := Standing(s, now, live);
            && (r.Fine? <==>
                  && owner.Some? && owner.value in live && size <= 4 * 1024 * 1024 && |m| < 64
                  && Total(m) + size <= 16 * 1024 * 1024 && Own(m, owner.value) + size <= 8 * 1024 * 1024)
            && t.entries == (if r.Fine? then m[id := Entry(owner.value, size, now + 300, false)] else m)
            && t.guards == s.guards
  {
    hide Total, Own;
    assert Swept(s.entries, now, live) == Standing(s, now, live);
  }

  // ---- The staging area itself ----

  /** The two sums `insert` takes over the entries. */
  method Usage(m: Entries, owner: Owner) returns (total: nat, own: nat)
    ensures total == Total(m) && own == Own(m, owner)
  {
    var rest := m;
    total, own := 0, 0;
    while rest != map[]
      invariant total + Total(rest) == Total(m) && own + Own(rest, owner) == Own(m, owner)
      decreases |rest|
    {
      var id :| id in rest;
      TotalDrop(rest, id);
      OwnDrop(rest, id, owner);
      total := total + rest[id].size;
      if rest[id].owner == owner { own := own + rest[id].size; }
      rest := rest - {id};
    }
    assert Sizes(rest) == map[] && SizesOf(rest, owner) == map[];
  }

  class Area {
    var entries: Entries
    ghost var guards: multiset<string>

    ghost function Now(): Staging reads this { Staging(entries, guards) }

    constructor ()
      ensures Now() == Staging(map[], multiset{}) && WithinQuota(entries) && Paired(Now())
    {
      entries, guards := map[], multiset{};
      assert Sizes(map[]) == map[] && forall owner :: SizesOf(map[], owner) == map[];
    }

    method SweepEntries(now: int, live: set<Owner>)
      modifies `entries
      ensures Now() == Step(old(Now()), Sweep(now, live)).0
    {
      entries := Swept(entries, now, live);
    }

    method InsertFile(id: string, owner: Option<Owner>, size: nat, now: int, live: set<Owner>) returns (r: Reply)
      modifies this
      ensures (Now(), r) == Step(old(Now()), Insert(id, owner, size, now, live))
    {
      hide Total, Own;
      SweepEntries(now, live);
      if owner.None? || owner.value !in live || size > MAX_FILE_BYTES { return Refused; }
      var total, own := Usage(entries, owner.value);
      if |entries| >= MAX_FILES || total + size > MAX_TOTAL_BYTES || own + size > MAX_OWNER_BYTES { return Refused; }
      entries := entries[id := Entry(owner.value, size, now + TTL, false)];
      r := Fine;
    }

    method RemoveFile(id: string) returns (r: Reply)
      modifies this
      ensures (Now(), r) == Step(old(Now()), Remove(id))
    {
      if id in entries && entries[id].sending { return Refused; }
      if id !in entries { return Missing; }
      entries := entries - {id};
      r := Fine;
    }

    method ClaimFile(id: string, who: Option<Owner>, admin: bool, now: int, live: set<Owner>) returns (r: Reply)
      modifies this
      ensures (Now(), r) == Step(old(Now()), Claim(id, who, admin, now, live))
    {
      hide Room;
      SweepEntries(now, live);
      if id !in entries { return Missing; }
      if entries[id].owner !in live || (!admin && who != Some(entries[id].owner)) { return Refused; }
      if entries[id].sending { return Refused; }
      entries := entries[id := entries[id].(sending := true)];
      guards := guards + multiset{id};
      r := Claimed;
    }

    method EndSend(id: string)
      modifies this
      ensures Now() == Step(old(Now()), DropGuard(id)).0
    {
      entries := entries - {id};
      guards := guards - multiset{id};
    }
  }
}
