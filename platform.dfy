/**
 * The JavaScript values a caller can put into the creation request, and the
 * collaborators of the group-creation code that live outside this model:
 * configuration, the privilege-group classifier, the slugifier, string
 * lower-casing, the name-collision oracle, `parseInt` on strings and the
 * `filter:group.create` hook. Each is an opaque field of `Env`.
 */
module Platform {
  import opened Wrappers

  /**
   * Below this magnitude `parseInt` of a number gives the number back; at and
   * above it JavaScript prints the number in exponent form first
   * (`parseInt(1e21, 10) === 1`).
   */
  const NumberLimit := 1_000_000_000_000_000_000_000

  /** The integral numbers this model admits. */
  type SafeInteger = n: int | -NumberLimit < n < NumberLimit

  /** A JavaScript value as far as this code looks at it (`null` behaves as `undefined`). */
  datatype JsValue = Undefined | Bool(b: bool) | Num(n: SafeInteger) | Str(s: string)

  /** JavaScript truthiness: what `if (v)`, `!v`, `v || w` and `v ? … : …` test. */
  predicate Truthy(v: JsValue) {
    match v
    case Undefined => false
    case Bool(b) => b
    case Num(n) => n != 0
    case Str(s) => s != ""
  }

  /** A persisted group record: the object built by `createGroupData`. */
  datatype Group = Group(
    name: string,
    slug: string,
    createtime: int,
    userTitle: string,
    userTitleEnabled: int,
    description: string,
    memberCount: int,
    hidden: int,
    system: int,
    private: int,
    disableJoinRequests: int,
    disableLeave: int)

  /** The contents of the database keys the creation path reads and writes. */
  datatype StoreState = StoreState(
    createtime: map<string, int>,            // sorted set groups:createtime
    records: map<string, Group>,             // hash group:<name>
    owners: map<string, set<int>>,           // set group:<name>:owners
    members: map<string, map<int, int>>,     // sorted set group:<name>:members
    visibleCreatetime: map<string, int>,     // sorted set groups:visible:createtime
    visibleMemberCount: map<string, int>,    // sorted set groups:visible:memberCount
    visibleName: map<string, int>,           // sorted set groups:visible:name
    slugs: map<string, string>)              // hash groupslug:groupname

  /** The collaborators, each opaque to the model. */
  datatype Env = Env(
    isPrivilegeGroup: string -> bool,          // Groups.isPrivilegeGroup
    slugify: string -> string,                 // ../slugify; may return ""
    lower: string -> string,                   // String.prototype.toLowerCase
    maximumGroupNameLength: int,               // meta.config.maximumGroupNameLength
    systemGroups: seq<string>,                 // Groups.systemGroups
    userOrGroupExists: (StoreState, string) -> bool,  // meta.userOrGroupExists, against the store
    parseIntText: string -> Option<int>,       // parseInt(s, 10); None for NaN
    createFilter: Group -> Group)              // plugins 'filter:group.create'

  /** `parseInt(v, 10)`, with `None` standing for NaN. */
  function ParseInt(env: Env, v: JsValue): Option<int> {
    match v
    case Num(n) => Some(n)
    case Str(s) => env.parseIntText(s)
    case _ => None
  }

  /** `parseInt(v, 10) === 1`, the test every 0/1 flag of the request goes through. */
  predicate ParsesToOne(env: Env, v: JsValue) {
    ParseInt(env, v) == Some(1)
  }
}
