/**
 * Flag derivation (src/groups/create.js:11-17, 43-46, 107-111) and record
 * building (`createGroupData`, src/groups/create.js:65-78).
 *
 * In the source the call site at line 32 passes eight positional arguments
 * while `createGroupData` at lines 61-62 declares seven in another order, and
 * line 58 assigns an undeclared global `mock_data` from variables that are not
 * in scope there. That mismatch is not reproduced: the builder below takes one
 * record with named fields, and each field means what its name says in the
 * object literal at lines 65-78.
 */
module GroupRecord {
  import opened Wrappers
  import opened Platform

  /** The caller's `data` object, as far as the creation path reads it. */
  datatype CreateData = CreateData(
    name: JsValue,
    timestamp: Option<int>,
    system: JsValue,
    disableJoinRequests: JsValue,
    disableLeave: JsValue,
    hidden: JsValue,
    private: JsValue,
    ownerUid: Option<int>,
    userTitle: Option<string>,
    userTitleEnabled: JsValue,
    description: Option<string>)

  /** The named-field input of the builder: derived flags plus the data fields it copies. */
  datatype BuildInput = BuildInput(
    name: string,
    timestamp: int,
    isSystem: bool,
    isHidden: bool,
    isPrivate: bool,
    disableJoinRequests: int,
    disableLeave: int,
    memberCount: int,
    userTitle: Option<string>,
    userTitleEnabled: JsValue,
    description: Option<string>)

  predicate Bit(x: int) { x == 0 || x == 1 }

  /** Every 0/1 field of a record holds 0 or 1. */
  predicate FlagsAreBits(g: Group) {
    && Bit(g.userTitleEnabled) && Bit(g.memberCount) && Bit(g.hidden) && Bit(g.system)
    && Bit(g.private) && Bit(g.disableJoinRequests) && Bit(g.disableLeave)
  }

  /** `if (ownerUid)`: an owner uid of 0 is falsy and counts as no owner; any other uid, negative ones included, is an owner. */
  predicate HasOwner(ownerUid: Option<int>) {
    ownerUid.Some? && ownerUid.value != 0
  }

  /** `data.timestamp || Date.now()`, with the clock reading passed in as `now`. */
  function Timestamp(data: CreateData, now: int): (t: int)
    // the request's timestamp wins unless it is missing or 0
    ensures data.timestamp.Some? && data.timestamp.value != 0 ==> t == data.timestamp.value
    ensures data.timestamp == None || data.timestamp == Some(0) ==> t == now
    ensures t == now || data.timestamp == Some(t)
  {
    if data.timestamp.Some? && data.timestamp.value != 0 then data.timestamp.value else now
  }

  /** `isSystemGroup` */
  predicate IsSystemGroup(env: Env, data: CreateData, name: string)
    // reserved and privilege-group names are system groups whatever the request says
    ensures name in env.systemGroups || env.isPrivilegeGroup(name) ==> IsSystemGroup(env, data, name)
    // for any other name the request decides: `true`, or a value that parses to 1
    ensures name !in env.systemGroups && !env.isPrivilegeGroup(name) ==>
              (IsSystemGroup(env, data, name) <==> data.system == Bool(true) || ParsesToOne(env, data.system))
    // an absent flag leaves an ordinary name a non-system group
    ensures data.system == Undefined && name !in env.systemGroups && !env.isPrivilegeGroup(name)
            ==> !IsSystemGroup(env, data, name)
  {
    || data.system == Bool(true)
    || ParsesToOne(env, data.system)
    || name in env.systemGroups
    || env.isPrivilegeGroup(name)
  }

  /** `getDisableJoinRequests`: forced on for "administrators". */
  function GetDisableJoinRequests(env: Env, name: string, flag: JsValue): (r: int)
    ensures Bit(r)
    ensures name == "administrators" ==> r == 1
    ensures name != "administrators" ==> (r == 1 <==> ParsesToOne(env, flag))
  {
    if name == "administrators" then 1
    else if ParsesToOne(env, flag) then 1 else 0
  }

  /** The flag computations at the top of `Groups.create`, for the validated name. */
  function DeriveBuildInput(env: Env, data: CreateData, name: string, now: int): (b: BuildInput)
    ensures b.name == name && b.timestamp == Timestamp(data, now)
    ensures Bit(b.disableJoinRequests) && Bit(b.disableLeave) && Bit(b.memberCount)
    ensures b.isSystem <==> IsSystemGroup(env, data, name)
    ensures b.isHidden <==> ParsesToOne(env, data.hidden)
    // private by default: only a truthy flag that does not parse to 1 turns it off
    ensures b.isPrivate <==> !Truthy(data.private) || ParsesToOne(env, data.private)
    ensures b.disableLeave == 1 <==> ParsesToOne(env, data.disableLeave)
    ensures b.disableJoinRequests == 1 <==> name == "administrators" || ParsesToOne(env, data.disableJoinRequests)
    ensures b.memberCount == 1 <==> HasOwner(data.ownerUid)
    // the fields copied from the request are passed through untouched
    ensures b.userTitle == data.userTitle && b.userTitleEnabled == data.userTitleEnabled
    ensures b.description == data.description
  {
    BuildInput(
      name := name,
      timestamp := Timestamp(data, now),
      isSystem := IsSystemGroup(env, data, name),
      isHidden := ParsesToOne(env, data.hidden),
      isPrivate := if Truthy(data.private) then ParsesToOne(env, data.private) else true,
      disableJoinRequests := GetDisableJoinRequests(env, name, data.disableJoinRequests),
      disableLeave := if ParsesToOne(env, data.disableLeave) then 1 else 0,
      memberCount := if HasOwner(data.ownerUid) then 1 else 0,
      userTitle := data.userTitle,
      userTitleEnabled := data.userTitleEnabled,
      description := data.description)
  }

  /** `createGroupData`, taking its inputs by name. */
  function CreateGroupData(env: Env, b: BuildInput): (g: Group)
    ensures g.name == b.name && g.slug == env.slugify(b.name) && g.createtime == b.timestamp
    // the derived integer flags are copied; the boolean ones become 0/1
    ensures g.memberCount == b.memberCount
    ensures g.disableJoinRequests == b.disableJoinRequests && g.disableLeave == b.disableLeave
    ensures Bit(g.hidden) && (g.hidden == 1 <==> b.isHidden)
    ensures Bit(g.system) && (g.system == 1 <==> b.isSystem)
    ensures Bit(g.private) && (g.private == 1 <==> b.isPrivate)
    ensures Bit(g.userTitleEnabled) && (g.userTitleEnabled == 1 <==> ParsesToOne(env, b.userTitleEnabled))
    // an absent or empty title falls back to the name, an absent or empty description to ""
    ensures b.userTitle.Some? && b.userTitle.value != "" ==> g.userTitle == b.userTitle.value
    ensures b.userTitle.None? || b.userTitle.value == "" ==> g.userTitle == b.name
    ensures b.description.Some? ==> g.description == b.description.value
    ensures b.description.None? ==> g.description == ""
  {
    Group(
      name := b.name,
      slug := env.slugify(b.name),
      createtime := b.timestamp,
      userTitle := if b.userTitle.Some? && b.userTitle.value != "" then b.userTitle.value else b.name,
      userTitleEnabled := if ParsesToOne(env, b.userTitleEnabled) then 1 else 0,
      description := if b.description.Some? then b.description.value else "",
      memberCount := b.memberCount,
      hidden := if b.isHidden then 1 else 0,
      system := if b.isSystem then 1 else 0,
      private := if b.isPrivate then 1 else 0,
      disableJoinRequests := b.disableJoinRequests,
      disableLeave := b.disableLeave)
  }

  /**
   * The record `Groups.create` builds for a validated name before the filter
   * hook runs, described field by field in terms of the caller's data.
   */
  function BuildGroup(env: Env, data: CreateData, name: string, now: int): (g: Group)
    ensures FlagsAreBits(g)
    ensures g.name == name && g.slug == env.slugify(name)
    ensures g.createtime == Timestamp(data, now)
    ensures data.timestamp == None ==> g.createtime == now
    ensures g.memberCount == 1 <==> HasOwner(data.ownerUid)
    ensures g.hidden == 1 <==> ParsesToOne(env, data.hidden)
    ensures g.system == 1 <==>
              data.system == Bool(true) || ParsesToOne(env, data.system)
              || name in env.systemGroups || env.isPrivilegeGroup(name)
    // private unless a truthy private flag is given that does not parse to 1
    ensures g.private == 1 <==> !Truthy(data.private) || ParsesToOne(env, data.private)
    ensures g.disableJoinRequests == 1 <==>
              name == "administrators" || ParsesToOne(env, data.disableJoinRequests)
    ensures g.disableLeave == 1 <==> ParsesToOne(env, data.disableLeave)
    ensures g.userTitleEnabled == 1 <==> ParsesToOne(env, data.userTitleEnabled)
    ensures g.userTitle == if data.userTitle.Some? && data.userTitle.value != "" then data.userTitle.value else name
    ensures g.description == if data.description.Some? then data.description.value else ""
  {
    CreateGroupData(env, DeriveBuildInput(env, data, name, now))
  }

  /** "administrators" always gets join requests disabled, whatever the request says. */
  lemma AdministratorsDisableJoinRequests(env: Env, data: CreateData, now: int)
    ensures BuildGroup(env, data, "administrators", now).disableJoinRequests == 1
  {
  }

  /**
   * The default for `private`: an absent flag gives a private group, and a flag
   * that is present and truthy gives 1 exactly when it parses to 1. A flag that
   * is present but falsy (the number 0, `false`, "") also gives a private group,
   * because the source tests truthiness before parsing.
   */
  lemma PrivateDefault(env: Env, data: CreateData, name: string, now: int)
    ensures data.private == Undefined ==> BuildGroup(env, data, name, now).private == 1
    ensures Truthy(data.private) ==>
              (BuildGroup(env, data, name, now).private == 1 <==> ParsesToOne(env, data.private))
    ensures data.private == Num(0) ==> BuildGroup(env, data, name, now).private == 1
    ensures data.private == Bool(true) ==> BuildGroup(env, data, name, now).private == 0
  {
  }
}
