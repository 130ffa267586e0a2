/**
 * The part of the database the creation path writes, and `saveGroupData`
 * (src/groups/create.js:81-101) and `privilegeGroupExists` /
 * `checkGroupExistence` (src/groups/create.js:48-56, 103-105) over it.
 *
 * Sorted sets are maps from member to score (adding a member again replaces
 * its score), sets are sets and hashes are maps, so every write is idempotent.
 * Per-group keys (`group:<name>`, `group:<name>:owners`,
 * `group:<name>:members`) are maps indexed by the group name.
 */
module GroupStore {
  import opened Wrappers
  import opened Platform
  import opened GroupName
  import opened GroupRecord

  /** The owners set of a group; a missing key reads as the empty set. */
  function OwnersOf(s: StoreState, name: string): set<int> {
    if name in s.owners then s.owners[name] else {}
  }

  /** The members index of a group; a missing key reads as the empty sorted set. */
  function MembersOf(s: StoreState, name: string): map<int, int> {
    if name in s.members then s.members[name] else map[]
  }

  /** `!groupData.hidden && !groupData.system`: the record goes into the visible indexes. */
  predicate Listed(g: Group) {
    g.hidden == 0 && g.system == 0
  }

  /** The member written to groups:visible:name, `${name.toLowerCase()}:${name}`. */
  function VisibleNameKey(env: Env, name: string): string {
    env.lower(name) + ":" + name
  }

  /**
   * The store after the writes of `saveGroupData`: the creation-order index
   * and the record always; the owners set and members index when an owner is
   * given; the three visible indexes when the record is neither hidden nor
   * system; the slug map when the name is not a privilege group's. Each field
   * of the store is written by one step only, so the result is given field by
   * field; `Store.SaveGroupData` performs the steps in the source's order.
   */
  function Persisted(env: Env, s: StoreState, g: Group, ownerUid: Option<int>, timestamp: int): (t: StoreState)
    ensures g.name in t.createtime && t.createtime[g.name] == g.createtime
    ensures g.name in t.records && t.records[g.name] == g
    ensures t.createtime.Keys == s.createtime.Keys + {g.name}
    ensures t.records.Keys == s.records.Keys + {g.name}
  {
    var owned := HasOwner(ownerUid);
    var listed := Listed(g);
    StoreState(
      createtime := s.createtime[g.name := g.createtime],
      records := s.records[g.name := g],
      owners := if owned then s.owners[g.name := OwnersOf(s, g.name) + {ownerUid.value}] else s.owners,
      members := if owned then s.members[g.name := MembersOf(s, g.name)[ownerUid.value := timestamp]] else s.members,
      visibleCreatetime := if listed then s.visibleCreatetime[g.name := timestamp] else s.visibleCreatetime,
      visibleMemberCount := if listed then s.visibleMemberCount[g.name := g.memberCount] else s.visibleMemberCount,
      visibleName := if listed then s.visibleName[VisibleNameKey(env, g.name) := 0] else s.visibleName,
      slugs := if !env.isPrivilegeGroup(g.name) then s.slugs[g.slug := g.name] else s.slugs)
  }

  /** `checkGroupExistence` throws exactly when this holds. */
  predicate NameTaken(env: Env, s: StoreState, name: string)
    // a privilege group already in groups:createtime is taken whatever the oracle says
    ensures env.isPrivilegeGroup(name) && name in s.createtime ==> NameTaken(env, s, name)
    // for any other name, privilege groups not yet created included, the collision oracle alone decides
    ensures !(env.isPrivilegeGroup(name) && name in s.createtime) ==>
              (NameTaken(env, s, name) <==> env.userOrGroupExists(s, name))
    ensures env.userOrGroupExists(s, name) ==> NameTaken(env, s, name)
  {
    env.userOrGroupExists(s, name) || (env.isPrivilegeGroup(name) && name in s.createtime)
  }

  /** groups:createtime lists exactly the recorded groups, each scored by its createtime. */
  ghost predicate IndexMatchesRecords(s: StoreState) {
    && s.createtime.Keys == s.records.Keys
    && forall n :: n in s.records ==>
         s.records[n].name == n && s.createtime[n] == s.records[n].createtime
  }

  /**
   * Per-group sets belong to recorded groups, owners are members, and a
   * group's memberCount is the size of its members index.
   */
  ghost predicate MembershipMatches(s: StoreState) {
    && s.owners.Keys <= s.records.Keys
    && s.members.Keys <= s.records.Keys
    && (forall n :: n in s.records ==> MemberCountMatches(s, n))
    && (forall n :: n in s.owners ==> s.owners[n] <= MembersOf(s, n).Keys)
  }

  /** Every key of groups:visible:name is the name key of a group in groups:visible:createtime. */
  ghost predicate NameKeysListed(env: Env, s: StoreState) {
    forall k :: k in s.visibleName ==>
      exists n :: n in s.visibleCreatetime && k == VisibleNameKey(env, n)
  }

  /** The visible indexes hold only listed groups, with their current scores. */
  ghost predicate VisibleAreListed(env: Env, s: StoreState) {
    && NameKeysListed(env, s)
    && (forall n :: n in s.visibleCreatetime ==>
          n in s.records && Listed(s.records[n])
          && s.visibleCreatetime[n] == s.records[n].createtime
          && VisibleNameKey(env, n) in s.visibleName)
    && (forall n :: n in s.visibleMemberCount ==>
          n in s.records && Listed(s.records[n])
          && s.visibleMemberCount[n] == s.records[n].memberCount)
  }

  /** Every slug maps to the ordinary (non-privilege) group that carries it. */
  ghost predicate SlugsPointToGroups(env: Env, s: StoreState) {
    forall sl :: sl in s.slugs ==>
      s.slugs[sl] in s.records && s.records[s.slugs[sl]].slug == sl
      && !env.isPrivilegeGroup(s.slugs[sl])
  }

  /** Every ordinary group owns the slug map entry of its slug. */
  ghost predicate OrdinarySlugsOwned(env: Env, s: StoreState) {
    forall n :: n in s.records && !env.isPrivilegeGroup(n) ==>
      s.records[n].slug in s.slugs && s.slugs[s.records[n].slug] == n
  }

  /** What the creation path keeps true of the store. */
  ghost predicate Consistent(env: Env, s: StoreState) {
    && IndexMatchesRecords(s)
    && MembershipMatches(s)
    && VisibleAreListed(env, s)
    && SlugsPointToGroups(env, s)
    && OrdinarySlugsOwned(env, s)
  }

  /** In a consistent store no two ordinary groups share a slug. */
  lemma OrdinarySlugsDistinct(env: Env, s: StoreState, m: string, n: string)
    requires Consistent(env, s)
    requires m in s.records && n in s.records && m != n
    requires !env.isPrivilegeGroup(m) && !env.isPrivilegeGroup(n)
    ensures s.records[m].slug != s.records[n].slug
  {
    assert s.slugs[s.records[m].slug] == m;
    assert s.slugs[s.records[n].slug] == n;
  }

  /**
   * What `meta.userOrGroupExists` is relied on to see, in every store: every
   * ordinary group already created, and every name whose slug is already in
   * groupslug:groupname. Privilege groups are not in the slug map, which is
   * why the source looks them up separately in groups:createtime.
   */
  ghost predicate OracleCovers(env: Env) {
    forall s: StoreState, n: string ::
      (n in s.records && !env.isPrivilegeGroup(n)) || env.slugify(n) in s.slugs
      ==> env.userOrGroupExists(s, n)
  }

  /** A name that passes the existence check has no record yet, and its slug is unused. */
  lemma UntakenNameIsFresh(env: Env, s: StoreState, name: string)
    requires Consistent(env, s) && OracleCovers(env)
    requires !NameTaken(env, s, name)
    ensures name !in s.records
    ensures env.slugify(name) !in s.slugs
  {
  }

  /** Owners and members index gain exactly the owner iff one is given. */
  lemma PersistOwner(env: Env, s: StoreState, g: Group, ownerUid: Option<int>, timestamp: int)
    ensures var t := Persisted(env, s, g, ownerUid, timestamp);
      if HasOwner(ownerUid) then
        && OwnersOf(t, g.name) == OwnersOf(s, g.name) + {ownerUid.value}
        && MembersOf(t, g.name) == MembersOf(s, g.name)[ownerUid.value := timestamp]
      else
        t.owners == s.owners && t.members == s.members
  {
  }

  /** The three visible indexes receive the group iff it is neither hidden nor system. */
  lemma PersistVisible(env: Env, s: StoreState, g: Group, ownerUid: Option<int>, timestamp: int)
    ensures var t := Persisted(env, s, g, ownerUid, timestamp);
      if g.hidden == 0 && g.system == 0 then
        && g.name in t.visibleCreatetime && t.visibleCreatetime[g.name] == timestamp
        && g.name in t.visibleMemberCount && t.visibleMemberCount[g.name] == g.memberCount
        && VisibleNameKey(env, g.name) in t.visibleName
        && t.visibleName[VisibleNameKey(env, g.name)] == 0
      else
        && t.visibleCreatetime == s.visibleCreatetime
        && t.visibleMemberCount == s.visibleMemberCount
        && t.visibleName == s.visibleName
  {
  }

  /** The slug map is written iff the name is not a privilege group's. */
  lemma PersistSlug(env: Env, s: StoreState, g: Group, ownerUid: Option<int>, timestamp: int)
    ensures var t := Persisted(env, s, g, ownerUid, timestamp);
      if env.isPrivilegeGroup(g.name) then t.slugs == s.slugs
      else g.slug in t.slugs && t.slugs[g.slug] == g.name
           && forall sl :: sl in s.slugs && sl != g.slug ==> sl in t.slugs && t.slugs[sl] == s.slugs[sl]
  {
  }

  /**
   * Nothing outside the written keys changes: the maps keyed by group name
   * keep every other name, groups:visible:name keeps every key but the
   * group's own, and the slug map keeps every slug but the group's.
   */
  lemma PersistFrame(env: Env, s: StoreState, g: Group, ownerUid: Option<int>, timestamp: int, n: string)
    ensures var t := Persisted(env, s, g, ownerUid, timestamp);
      && (n != g.name ==>
            && (n in t.createtime <==> n in s.createtime)
            && (n in s.createtime ==> t.createtime[n] == s.createtime[n])
            && (n in t.records <==> n in s.records)
            && (n in s.records ==> t.records[n] == s.records[n])
            && OwnersOf(t, n) == OwnersOf(s, n)
            && MembersOf(t, n) == MembersOf(s, n)
            && (n in t.visibleCreatetime <==> n in s.visibleCreatetime)
            && (n in s.visibleCreatetime ==> t.visibleCreatetime[n] == s.visibleCreatetime[n])
            && (n in t.visibleMemberCount <==> n in s.visibleMemberCount)
            && (n in s.visibleMemberCount ==> t.visibleMemberCount[n] == s.visibleMemberCount[n]))
      && (n != VisibleNameKey(env, g.name) ==>
            (n in t.visibleName <==> n in s.visibleName)
            && (n in s.visibleName ==> t.visibleName[n] == s.visibleName[n]))
      && (n != g.slug ==> (n in t.slugs <==> n in s.slugs) && (n in s.slugs ==> t.slugs[n] == s.slugs[n]))
  {
  }

  /** Writing a key/value pair a map already holds leaves the map as it was. */
  lemma RewriteIsNoOp<K, V>(m: map<K, V>, k: K, v: V)
    requires k in m && m[k] == v
    ensures m[k := v] == m
  {
  }

  /** Persisting twice with the same arguments leaves the store as persisting once. */
  lemma PersistIdempotent(env: Env, s: StoreState, g: Group, ownerUid: Option<int>, timestamp: int)
    ensures var t := Persisted(env, s, g, ownerUid, timestamp);
      Persisted(env, t, g, ownerUid, timestamp) == t
  {
    var t := Persisted(env, s, g, ownerUid, timestamp);
    // every write puts back a key/value pair that is already there
    RewriteIsNoOp(t.createtime, g.name, g.createtime);
    RewriteIsNoOp(t.records, g.name, g);
    if HasOwner(ownerUid) {
      var uid := ownerUid.value;
      assert OwnersOf(t, g.name) + {uid} == OwnersOf(t, g.name);
      RewriteIsNoOp(t.owners, g.name, OwnersOf(t, g.name));
      RewriteIsNoOp(MembersOf(t, g.name), uid, timestamp);
      RewriteIsNoOp(t.members, g.name, MembersOf(t, g.name));
    }
    if Listed(g) {
      RewriteIsNoOp(t.visibleCreatetime, g.name, timestamp);
      RewriteIsNoOp(t.visibleMemberCount, g.name, g.memberCount);
      RewriteIsNoOp(t.visibleName, VisibleNameKey(env, g.name), 0);
    }
    if !env.isPrivilegeGroup(g.name) {
      RewriteIsNoOp(t.slugs, g.slug, g.name);
    }
  }

  /** Persisting keeps groups:createtime and the records in step. */
  lemma PersistKeepsIndex(env: Env, s: StoreState, g: Group, ownerUid: Option<int>, timestamp: int)
    requires IndexMatchesRecords(s)
    ensures IndexMatchesRecords(Persisted(env, s, g, ownerUid, timestamp))
  {
  }

  /** A group's memberCount is the size of its members index. */
  ghost predicate MemberCountMatches(s: StoreState, n: string)
    requires n in s.records
  {
    s.records[n].memberCount == |MembersOf(s, n)|
  }

  /** After persisting a group with no members index yet, the member count of one name still matches. */
  lemma PersistMemberCountAt(env: Env, s: StoreState, g: Group, ownerUid: Option<int>, timestamp: int, n: string)
    requires g.name !in s.members
    requires g.memberCount == if HasOwner(ownerUid) then 1 else 0
    requires n != g.name ==> n in s.records && MemberCountMatches(s, n)
    ensures n in Persisted(env, s, g, ownerUid, timestamp).records
    ensures MemberCountMatches(Persisted(env, s, g, ownerUid, timestamp), n)
  {
  }

  /** Persisting a new group keeps every memberCount equal to the size of its members index. */
  lemma PersistKeepsMemberCounts(env: Env, s: StoreState, g: Group, ownerUid: Option<int>, timestamp: int)
    requires s.members.Keys <= s.records.Keys
    requires forall n :: n in s.records ==> MemberCountMatches(s, n)
    requires g.name !in s.records
    requires g.memberCount == if HasOwner(ownerUid) then 1 else 0
    ensures var t := Persisted(env, s, g, ownerUid, timestamp);
      forall n :: n in t.records ==> MemberCountMatches(t, n)
  {
    var t := Persisted(env, s, g, ownerUid, timestamp);
    forall n | n in t.records
      ensures MemberCountMatches(t, n)
    {
      PersistMemberCountAt(env, s, g, ownerUid, timestamp, n);
    }
  }

  /** Persisting a group with no owners set yet keeps every owner a member. */
  lemma PersistKeepsOwners(env: Env, s: StoreState, g: Group, ownerUid: Option<int>, timestamp: int)
    requires forall n :: n in s.owners ==> s.owners[n] <= MembersOf(s, n).Keys
    requires g.name !in s.owners
    ensures var t := Persisted(env, s, g, ownerUid, timestamp);
      forall n :: n in t.owners ==> t.owners[n] <= MembersOf(t, n).Keys
  {
  }

  /** Persisting a new group with a matching memberCount keeps `MembershipMatches`. */
  lemma PersistKeepsMembership(env: Env, s: StoreState, g: Group, ownerUid: Option<int>, timestamp: int)
    requires MembershipMatches(s)
    requires g.name !in s.records
    requires g.memberCount == if HasOwner(ownerUid) then 1 else 0
    ensures MembershipMatches(Persisted(env, s, g, ownerUid, timestamp))
  {
    PersistKeepsMemberCounts(env, s, g, ownerUid, timestamp);
    PersistKeepsOwners(env, s, g, ownerUid, timestamp);
  }

  /** Persisting keeps every key of groups:visible:name the name key of a visible group. */
  lemma PersistKeepsNameKeys(env: Env, s: StoreState, g: Group, ownerUid: Option<int>, timestamp: int)
    requires NameKeysListed(env, s)
    ensures NameKeysListed(env, Persisted(env, s, g, ownerUid, timestamp))
  {
    var t := Persisted(env, s, g, ownerUid, timestamp);
    forall k | k in t.visibleName
      ensures exists n :: n in t.visibleCreatetime && k == VisibleNameKey(env, n)
    {
      if Listed(g) && k == VisibleNameKey(env, g.name) {
        assert g.name in t.visibleCreatetime;
      } else {
        var n :| n in s.visibleCreatetime && k == VisibleNameKey(env, n);
        assert n in t.visibleCreatetime;
      }
    }
  }

  /** Persisting a new group whose createtime is the timestamp keeps the visible indexes to listed groups. */
  lemma PersistKeepsVisible(env: Env, s: StoreState, g: Group, ownerUid: Option<int>, timestamp: int)
    requires VisibleAreListed(env, s)
    requires g.name !in s.records
    requires g.createtime == timestamp
    ensures VisibleAreListed(env, Persisted(env, s, g, ownerUid, timestamp))
  {
    PersistKeepsNameKeys(env, s, g, ownerUid, timestamp);
    var t := Persisted(env, s, g, ownerUid, timestamp);
    forall n | n in t.visibleCreatetime
      ensures n in t.records && Listed(t.records[n])
              && t.visibleCreatetime[n] == t.records[n].createtime
              && VisibleNameKey(env, n) in t.visibleName
    {
      if n != g.name {
        assert n in s.visibleCreatetime;
        assert VisibleNameKey(env, n) in s.visibleName;
      }
    }
    forall n | n in t.visibleMemberCount
      ensures n in t.records && Listed(t.records[n])
              && t.visibleMemberCount[n] == t.records[n].memberCount
    {
      if n != g.name { assert n in s.visibleMemberCount; }
    }
  }

  /** Persisting a new group keeps every slug pointing at the ordinary group that carries it. */
  lemma PersistKeepsSlugs(env: Env, s: StoreState, g: Group, ownerUid: Option<int>, timestamp: int)
    requires SlugsPointToGroups(env, s)
    requires g.name !in s.records
    ensures SlugsPointToGroups(env, Persisted(env, s, g, ownerUid, timestamp))
  {
  }

  /** Persisting a new group whose slug, if ordinary, is unused keeps every ordinary group owning its slug. */
  lemma PersistKeepsSlugOwners(env: Env, s: StoreState, g: Group, ownerUid: Option<int>, timestamp: int)
    requires OrdinarySlugsOwned(env, s)
    requires g.name !in s.records
    requires !env.isPrivilegeGroup(g.name) ==> g.slug !in s.slugs
    ensures OrdinarySlugsOwned(env, Persisted(env, s, g, ownerUid, timestamp))
  {
  }

  /**
   * Persisting a group that has no record yet, whose createtime is the
   * timestamp, whose member count matches the owner argument and whose slug
   * (for an ordinary group) is not yet in the slug map keeps the store
   * consistent.
   */
  lemma PersistKeepsConsistent(env: Env, s: StoreState, g: Group, ownerUid: Option<int>, timestamp: int)
    requires Consistent(env, s)
    requires g.name !in s.records
    requires g.createtime == timestamp
    requires g.memberCount == if HasOwner(ownerUid) then 1 else 0
    requires !env.isPrivilegeGroup(g.name) ==> g.slug !in s.slugs
    ensures Consistent(env, Persisted(env, s, g, ownerUid, timestamp))
  {
    PersistKeepsSlugOwners(env, s, g, ownerUid, timestamp);
    PersistKeepsIndex(env, s, g, ownerUid, timestamp);
    PersistKeepsMembership(env, s, g, ownerUid, timestamp);
    PersistKeepsVisible(env, s, g, ownerUid, timestamp);
    PersistKeepsSlugs(env, s, g, ownerUid, timestamp);
  }

  /** The store object the creation path writes to. */
  class Store {
    var createtime: map<string, int>
    var records: map<string, Group>
    var owners: map<string, set<int>>
    var members: map<string, map<int, int>>
    var visibleCreatetime: map<string, int>
    var visibleMemberCount: map<string, int>
    var visibleName: map<string, int>
    var slugs: map<string, string>

    function State(): StoreState
      reads this
    {
      StoreState(createtime, records, owners, members,
                 visibleCreatetime, visibleMemberCount, visibleName, slugs)
    }

    constructor (s: StoreState)
      ensures State() == s
    {
      createtime, records, owners, members := s.createtime, s.records, s.owners, s.members;
      visibleCreatetime, visibleMemberCount, visibleName := s.visibleCreatetime, s.visibleMemberCount, s.visibleName;
      slugs := s.slugs;
    }

    /** `saveGroupData`: the writes one after the other. */
    method SaveGroupData(env: Env, g: Group, ownerUid: Option<int>, timestamp: int)
      modifies this
      ensures State() == Persisted(env, old(State()), g, ownerUid, timestamp)
    {
      createtime := createtime[g.name := g.createtime];
      records := records[g.name := g];
      if HasOwner(ownerUid) {
        owners := owners[g.name := OwnersOf(State(), g.name) + {ownerUid.value}];
        members := members[g.name := MembersOf(State(), g.name)[ownerUid.value := timestamp]];
      }
      if Listed(g) {
        visibleCreatetime := visibleCreatetime[g.name := timestamp];
        visibleMemberCount := visibleMemberCount[g.name := g.memberCount];
        visibleName := visibleName[VisibleNameKey(env, g.name) := 0];
      }
      if !env.isPrivilegeGroup(g.name) {
        slugs := slugs[g.slug := g.name];
      }
    }

    /** `privilegeGroupExists` followed by the throw of `checkGroupExistence`. */
    method CheckGroupExistence(env: Env, name: string) returns (r: Outcome<Error>)
      ensures r == Pass || r == Fail(AlreadyExists)
      ensures r == Fail(AlreadyExists) <==> NameTaken(env, State(), name)
      // a name that gets through has no record, when the oracle sees every ordinary group
      ensures r == Pass && Consistent(env, State()) && OracleCovers(env)
              ==> name !in records && env.slugify(name) !in slugs
    {
      var inUse := env.userOrGroupExists(State(), name);
      var privGroupExists := env.isPrivilegeGroup(name) && name in createtime;
      if inUse || privGroupExists {
        return Fail(AlreadyExists);
      }
      if Consistent(env, State()) && OracleCovers(env) {
        UntakenNameIsFresh(env, State(), name);
      }
      return Pass;
    }

    /** The read-back `Groups.getGroupData(name)`: the stored record, if any. */
    method GetGroupData(name: string) returns (r: Option<Group>)
      ensures r.Some? <==> name in records
      ensures r.Some? ==> r.value == records[name]
    {
      if name in records {
        r := Some(records[name]);
      } else {
        r := None;
      }
    }
  }
}
