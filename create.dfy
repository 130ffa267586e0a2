/**
 * `Groups.create` (src/groups/create.js:9-41): validation, the existence
 * guard, record building, the filter hook, persistence and read-back.
 */
module GroupCreate {
  import opened Wrappers
  import opened Platform
  import opened GroupName
  import opened GroupRecord
  import opened GroupStore

  /**
   * What the filter hook is relied on to leave alone: the name, slug,
   * createtime and memberCount of the record it is handed.
   */
  ghost predicate FilterKeepsIdentity(env: Env) {
    forall g :: && env.createFilter(g).name == g.name
                && env.createFilter(g).slug == g.slug
                && env.createFilter(g).createtime == g.createtime
                && env.createFilter(g).memberCount == g.memberCount
  }

  /**
   * The result of `Groups.create` and the store it leaves behind, for the
   * store `s` it starts from and the clock reading `now`.
   */
  function CreateOutcome(env: Env, s: StoreState, data: CreateData, now: int): (o: (Result<Group, Error>, StoreState))
    // a thrown error leaves the store as it was
    ensures o.0.Failure? ==> o.1 == s
    // the returned record is the one stored under its name
    ensures o.0.Success? ==> o.0.value.name in o.1.records && o.1.records[o.0.value.name] == o.0.value
    // a success always comes with a valid string name
    ensures o.0.Success? ==> ValidateGroupName(env, data.name) == Pass
  {
    match ValidateGroupName(env, data.name)
    case Fail(e) => (Failure(e), s)
    case Pass =>
      var name := data.name.s;
      if NameTaken(env, s, name) then (Failure(AlreadyExists), s)
      else
        var groupData := env.createFilter(BuildGroup(env, data, name, now));
        var t := Persisted(env, s, groupData, data.ownerUid, Timestamp(data, now));
        (Success(t.records[groupData.name]), t)
  }

  /** Which error `create` throws: the validator's, else already-exists for a taken name. */
  lemma CreateErrors(env: Env, s: StoreState, data: CreateData, now: int, e: Error)
    ensures CreateOutcome(env, s, data, now).0 == Failure(e) <==>
              || ValidateGroupName(env, data.name) == Fail(e)
              || (ValidateGroupName(env, data.name) == Pass && NameTaken(env, s, data.name.s)
                  && e == AlreadyExists)
  {
  }

  /**
   * On success `create` persisted the filtered record built from the request,
   * and returns it as read back from `group:<name>`.
   */
  lemma CreateSucceeds(env: Env, s: StoreState, data: CreateData, now: int)
    requires data.name.Str? && AcceptableName(env, data.name.s)
    requires !NameTaken(env, s, data.name.s)
    ensures var g := env.createFilter(BuildGroup(env, data, data.name.s, now));
      CreateOutcome(env, s, data, now)
        == (Success(g), Persisted(env, s, g, data.ownerUid, Timestamp(data, now)))
  {
  }

  /**
   * Starting from a consistent store, `create` leaves it consistent, given an
   * oracle that sees every ordinary group and every used slug, and a filter
   * hook that keeps the record's identity fields. Neither assumption mentions
   * the store, so the invariant carries from one creation to the next.
   */
  lemma CreateKeepsConsistent(env: Env, s: StoreState, data: CreateData, now: int)
    requires Consistent(env, s) && OracleCovers(env) && FilterKeepsIdentity(env)
    ensures Consistent(env, CreateOutcome(env, s, data, now).1)
  {
    if ValidateGroupName(env, data.name) == Pass && !NameTaken(env, s, data.name.s) {
      var name := data.name.s;
      var built := BuildGroup(env, data, name, now);
      var g := env.createFilter(built);
      UntakenNameIsFresh(env, s, name);
      assert g.name == name && g.createtime == Timestamp(data, now) && g.slug == env.slugify(name);
      assert g.memberCount == if HasOwner(data.ownerUid) then 1 else 0;
      PersistKeepsConsistent(env, s, g, data.ownerUid, Timestamp(data, now));
    }
  }

  /**
   * An ordinary group can be created only once: after a successful creation,
   * any further request with the same name fails with already-exists, because
   * the oracle now sees the group.
   */
  lemma OrdinaryGroupCreatedOnce(env: Env, s: StoreState, data: CreateData, now: int,
                                 again: CreateData, later: int)
    requires OracleCovers(env) && FilterKeepsIdentity(env)
    requires data.name.Str? && !env.isPrivilegeGroup(data.name.s)
    requires again.name == data.name
    requires CreateOutcome(env, s, data, now).0.Success?
    ensures var t := CreateOutcome(env, s, data, now).1;
      CreateOutcome(env, t, again, later) == (Failure(AlreadyExists), t)
  {
    var name := data.name.s;
    var g := env.createFilter(BuildGroup(env, data, name, now));
    assert g.name == name;
    var t := CreateOutcome(env, s, data, now).1;
    assert name in t.records;
    assert env.userOrGroupExists(t, name);
  }

  /**
   * A privilege group can be created only once: after a successful creation,
   * any further request with the same name fails with already-exists, because
   * the name is now in groups:createtime.
   */
  lemma PrivilegeGroupCreatedOnce(env: Env, s: StoreState, data: CreateData, now: int,
                                  again: CreateData, later: int)
    requires FilterKeepsIdentity(env)
    requires data.name.Str? && env.isPrivilegeGroup(data.name.s)
    requires again.name == data.name
    requires CreateOutcome(env, s, data, now).0.Success?
    ensures var t := CreateOutcome(env, s, data, now).1;
      CreateOutcome(env, t, again, later) == (Failure(AlreadyExists), t)
  {
    var name := data.name.s;
    var g := env.createFilter(BuildGroup(env, data, name, now));
    assert g.name == name;
    var t := CreateOutcome(env, s, data, now).1;
    assert name in t.createtime;
  }

  /**
   * A request for "book-club" with owner 42 at time 1000, for collaborators
   * that slugify "book-club" to itself, do not count it as a privilege or
   * system group, allow its length, do not know the name yet and leave the
   * record alone in the filter hook.
   */
  lemma BookClubExample(env: Env, s: StoreState)
    requires env.slugify("book-club") == "book-club"
    requires !env.isPrivilegeGroup("book-club") && "book-club" !in env.systemGroups
    requires env.maximumGroupNameLength >= 9
    requires !env.userOrGroupExists(s, "book-club")
    requires forall g :: env.createFilter(g) == g
    ensures var data := CreateData(
              name := Str("book-club"), timestamp := Some(1000), system := Undefined,
              disableJoinRequests := Undefined, disableLeave := Undefined, hidden := Undefined,
              private := Undefined, ownerUid := Some(42), userTitle := None,
              userTitleEnabled := Undefined, description := None);
      var (r, t) := CreateOutcome(env, s, data, 999);
      && r == Success(Group(
             name := "book-club", slug := "book-club", createtime := 1000,
             userTitle := "book-club", userTitleEnabled := 0, description := "",
             memberCount := 1, hidden := 0, system := 0, private := 1,
             disableJoinRequests := 0, disableLeave := 0))
      && 42 in OwnersOf(t, "book-club")
      && 42 in MembersOf(t, "book-club") && MembersOf(t, "book-club")[42] == 1000
      && "book-club" in t.visibleCreatetime && "book-club" in t.visibleMemberCount
      && VisibleNameKey(env, "book-club") in t.visibleName
      && "book-club" in t.slugs && t.slugs["book-club"] == "book-club"
  {
    var data := CreateData(
      name := Str("book-club"), timestamp := Some(1000), system := Undefined,
      disableJoinRequests := Undefined, disableLeave := Undefined, hidden := Undefined,
      private := Undefined, ownerUid := Some(42), userTitle := None,
      userTitleEnabled := Undefined, description := None);
    assert AcceptableName(env, "book-club");
    var g := BuildGroup(env, data, "book-club", 999);
    assert g.private == 1 && g.system == 0 && g.hidden == 0;
  }

  /** `Groups.create`, against a store object. */
  method Create(store: Store, env: Env, data: CreateData, now: int) returns (r: Result<Group, Error>)
    modifies store
    ensures (r, store.State()) == CreateOutcome(env, old(store.State()), data, now)
  {
    var timestamp := Timestamp(data, now);
    var valid := ValidateGroupName(env, data.name);
    if valid.Fail? {
      return Failure(valid.error);
    }
    var name := data.name.s;
    var check := store.CheckGroupExistence(env, name);
    if check.Fail? {
      return Failure(check.error);
    }
    var groupData := CreateGroupData(env, DeriveBuildInput(env, data, name, now));
    // 'filter:group.create' may replace fields of the record before it is saved
    groupData := env.createFilter(groupData);
    store.SaveGroupData(env, groupData, data.ownerUid, timestamp);
    var updated := store.GetGroupData(groupData.name);
    // 'action:group.create' only observes the record
    r := Success(updated.value);
  }
}
