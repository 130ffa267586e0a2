# Group creation in NodeBB, modelled in Dafny

This project models the group-creation path of NodeBB's `src/groups/create.js`.
`Groups.create` first derives the group's timestamp and 0/1 flags from the
request. It then validates the proposed group name, refuses names that are
already in use, and builds the group record. It writes the record and its
secondary indexes to the database and returns the record read back from the
store.

Modules, one per component:

- `Wrappers` (wrappers.dfy): `Option`, `Result` and `Outcome`.
- `Platform` (platform.dfy): request values as JavaScript sees them
  (`JsValue`, `Truthy`, `ParseInt`), the `Group` record, and `Env`, which holds
  the collaborators the code calls but does not define. These are
  `Groups.isPrivilegeGroup`, `slugify`, `toLowerCase`,
  `meta.config.maximumGroupNameLength`, `Groups.systemGroups`,
  `meta.userOrGroupExists` (which is given the store), `parseInt` on strings
  and the `filter:group.create` hook. Each one is an opaque field. The module
  also holds `StoreState`, the contents of the database keys this path uses.
- `GroupName` (validate.dfy): `validateGroupName` and the error kinds.
- `GroupRecord` (record.dfy): the flag computations and `createGroupData`.
- `GroupStore` (store.dfy): the database keys this path writes, as a class
  `Store` with one map per key family of `StoreState`. It contains `saveGroupData`, the existence
  check, the read-back, the pure specification `Persisted` of the writes, and
  the store invariant `Consistent`.
- `GroupCreate` (create.dfy): the specification
  function `CreateOutcome` of `Groups.create`, the `Create` method proved
  against it, and lemmas about whole creations.

`createGroupData` takes one record with named fields (`BuildInput`). The source
calls it at line 32 with eight positional arguments, but its declaration at
lines 61-62 takes seven in another order. Line 58 also assigns an undeclared
global from variables that are not in scope. The model does not reproduce this.
Each field means what its name says in the object literal at lines 65-78.

Two details of the source and how the model treats them:

- Kept as written, `private` (line 16): the flag is tested for truthiness before it is parsed.
  A flag that is absent or present but falsy (the number 0, `false`, `""`)
  gives a private group. A truthy flag gives a private group exactly when it
  parses to 1, so `true` gives a public one (`parseInt(true)` is NaN).
  `PrivateDefault` states these cases.
- Reordered, the flags at lines 11-17: the source computes them before
  validation. They are pure and discarded when validation throws, so the model
  computes them after validation, from the validated name.

## Model

| member | source | states |
|---|---|---|
| `GroupName.ValidateGroupName` | src/groups/create.js:113-133 | Passes exactly for a string that is non-empty, not "guests", has no '/', has a non-empty slug, and is a privilege group or (within the maximum length and without ':'). Every falsy name gives too-short, and only those do. Too-long comes only for an ordinary non-empty name over the maximum. A truthy non-string gives invalid. Already-exists never comes from here. |
| `GroupName.PrivilegeNamesExempt` | src/groups/create.js:122-132 | For a privilege-group name the verdict does not depend on the configured maximum. Such a name passes exactly when it is non-empty, not "guests", has no '/' and has a non-empty slug. |
| `GroupName.Rejections` | src/groups/create.js:113-133 | "" gives too-short. "guests", a name with '/', an ordinary name with ':', and a name whose slug is empty each give invalid once the earlier length check has passed. |
| `GroupRecord.GetDisableJoinRequests` | src/groups/create.js:43-46 | The result is 0 or 1. It is 1 for "administrators" whatever the flag says. Otherwise it is 1 exactly when the flag parses to 1. |
| `GroupRecord.Timestamp` | src/groups/create.js:11 | The request's timestamp is used unless it is missing or 0, in which case the clock reading is; the result is always one of the two. |
| `GroupRecord.IsSystemGroup` | src/groups/create.js:107-111 | Reserved system-group names and privilege-group names are system groups whatever the request says. For any other name, the group is a system group exactly when the flag is `true` or parses to 1; an absent flag gives a non-system group. |
| `GroupRecord.DeriveBuildInput` | src/groups/create.js:11-17 | The builder input carries the validated name and the request's timestamp. disableJoinRequests, disableLeave and memberCount are 0/1. system follows `IsSystemGroup`. hidden and disableLeave hold iff their flag parses to 1. private holds iff the flag is falsy or parses to 1. disableJoinRequests is 1 iff the name is "administrators" or the flag parses to 1. memberCount is 1 iff an owner is given. Title, title flag and description pass through unchanged. |
| `GroupRecord.CreateGroupData` | src/groups/create.js:65-78 | The slug is the slugified name and createtime is the timestamp. The boolean flags become 0/1 and are 1 exactly when the flag is true. userTitleEnabled is 0/1 and is 1 exactly when its flag parses to 1. An absent or empty title falls back to the name. An absent description becomes "". |
| `GroupRecord.BuildGroup` | src/groups/create.js:11-17 | The record built from a request has every flag in {0,1}. system is 1 iff the flag is `true` or parses to 1, or the name is a system or privilege group. private is 1 iff the flag is falsy or parses to 1. hidden, disableLeave and userTitleEnabled are 1 iff their flag parses to 1. memberCount is 1 iff an owner is given. createtime is the request's timestamp, or the clock when it has none. |
| `GroupRecord.AdministratorsDisableJoinRequests` | src/groups/create.js:44 | A group named "administrators" always gets disableJoinRequests = 1. |
| `GroupRecord.PrivateDefault` | src/groups/create.js:16 | An absent private flag gives 1. A truthy flag gives 1 iff it parses to 1. The number 0 gives 1 and `true` gives 0. |
| `GroupStore.Persisted` | src/groups/create.js:81-101 | After persisting, the name is in groups:createtime with score createtime and group:<name> holds the record. These two key sets grow by exactly the name. |
| `GroupStore.PersistOwner` | src/groups/create.js:85-88 | With an owner, the owners set gains exactly that owner and the members index gains exactly that owner with score timestamp. Without one, both are unchanged. |
| `GroupStore.PersistVisible` | src/groups/create.js:90-96 | If hidden = 0 and system = 0, the name is in the createtime and memberCount visible indexes with scores timestamp and memberCount, and `lower(name):name` is in the name index with score 0. Otherwise all three indexes are unchanged. |
| `GroupStore.PersistSlug` | src/groups/create.js:98-100 | A privilege group leaves the slug map unchanged. Any other group maps its slug to its name and keeps every other slug entry. |
| `GroupStore.PersistFrame` | src/groups/create.js:81-101 | The maps keyed by group name keep the presence and value of every other name. groups:visible:name keeps every key except the group's `lower(name):name` key. The slug map keeps every slug except the group's. |
| `GroupStore.PersistIdempotent` | src/groups/create.js:81-101 | Persisting twice with the same arguments gives the same store as persisting once. |
| `GroupStore.PersistKeepsConsistent` | src/groups/create.js:81-101 | Persisting a new group keeps `Consistent` when its createtime is the timestamp, its memberCount matches the owner argument and, for an ordinary group, its slug is unused. `Consistent` covers: createtime index and records agree; per-group sets belong to groups; memberCount is the size of the members index; owners are members; the createtime and memberCount visible indexes list only non-hidden, non-system groups with current scores, and every key of groups:visible:name is the `lower(name):name` key of a group in the visible createtime index; each slug maps to the ordinary group carrying it; every ordinary group owns the slug entry of its slug. |
| `GroupStore.OrdinarySlugsDistinct` | src/groups/create.js:98-100 | In a consistent store, no two ordinary groups have the same slug. |
| `GroupStore.NameTaken` | src/groups/create.js:48-56 | A privilege group already in groups:createtime is taken whatever the oracle says. Any other name, a privilege group not yet in groups:createtime included, is taken exactly when the collision oracle reports it for the current store. |
| `GroupStore.UntakenNameIsFresh` | src/groups/create.js:103-105 | In a consistent store, with an oracle that sees every ordinary group and every used slug, a name that passes the existence check has no record and its slug is not in the slug map. The privilege-group lookup in groups:createtime covers the groups the oracle cannot see. |
| `GroupStore.Store.SaveGroupData` | src/groups/create.js:81-101 | Performs the writes in the source's order and leaves the store equal to `Persisted` of the old store. |
| `GroupStore.Store.CheckGroupExistence` | src/groups/create.js:48-56 | Throws already-exists exactly when the name is in use in the current store or is a privilege group already in groups:createtime, and throws nothing else. In a consistent store, with an oracle that sees every ordinary group and every used slug, a name that passes has no record and an unused slug. |
| `GroupStore.Store.GetGroupData` | src/groups/create.js:38 | Returns the record stored under the name, or nothing if there is none. |
| `GroupCreate.CreateOutcome` | src/groups/create.js:9-41 | A thrown error leaves the store unchanged. A success returns exactly the record stored under its name and implies the name was valid. |
| `GroupCreate.CreateErrors` | src/groups/create.js:19-23 | `create` throws e exactly when validation throws e, or when validation passes, the name is taken and e is already-exists. |
| `GroupCreate.CreateSucceeds` | src/groups/create.js:31-40 | For an acceptable, untaken name, `create` persists the filtered built record with the request's owner and timestamp, and returns that record. |
| `GroupCreate.CreateKeepsConsistent` | src/groups/create.js:9-41 | `create` keeps `Consistent` when the oracle sees every ordinary group and every used slug in any store, and the filter hook keeps name, slug, createtime and memberCount. Neither assumption depends on the store, so the invariant carries from one `create` to the next. |
| `GroupCreate.OrdinaryGroupCreatedOnce` | src/groups/create.js:50-54 | When the oracle sees every ordinary group and the filter hook keeps name, slug, createtime and memberCount, a second request for an ordinary group that was just created throws already-exists and leaves the store unchanged. |
| `GroupCreate.PrivilegeGroupCreatedOnce` | src/groups/create.js:103-105 | When the filter hook keeps name, slug, createtime and memberCount, after a privilege group is created any further request with the same name throws already-exists and leaves the store unchanged. |
| `GroupCreate.BookClubExample` | src/groups/create.js:9-41 | "book-club" with owner 42 at time 1000 returns the record with slug "book-club", memberCount 1, private 1 and all other flags 0, title "book-club" and description "". Owner 42 is in the owners set and in the members index with score 1000. The name is in all three visible indexes and in the slug map. |
| `GroupCreate.Create` | src/groups/create.js:9-41 | Its result and the new store are those of `CreateOutcome` for the old store. |

## Left out

- Collaborators are opaque fields of `Env`: the privilege-group classifier, `slugify`, lower-casing, the configured maximum length, the system-group list, `meta.userOrGroupExists`, `parseInt` on strings and the filter hook. The files that define them are not part of this model. Members that rely on their behaviour say so in a `requires`: `OracleCovers` in `UntakenNameIsFresh`, `CheckGroupExistence` (in its ensures), `CreateKeepsConsistent` and `OrdinaryGroupCreatedOnce`; `FilterKeepsIdentity` in `CreateKeepsConsistent`, `OrdinaryGroupCreatedOnce` and `PrivilegeGroupCreatedOnce`; the privilege classifier in `PrivilegeNamesExempt`; and several collaborators in `BookClubExample`.
- `meta.userOrGroupExists` is an opaque function of the store and the name, because its code is not part of this model. `OracleCovers` states what it is relied on to see: every ordinary group's record and every slug already in groupslug:groupname. The users it also checks are not modelled.
- `Date.now()` is the parameter `now`.
- Request values: `null` behaves as `undefined`. Numbers are integers of magnitude below 10^21; non-integer numbers and larger ones (for which `parseInt` reads the exponent form, so `parseInt(1e21, 10) === 1`) are not modelled. Arrays and other objects (`parseInt([1], 10) === 1`) are not modelled. `ownerUid` is an integer: 0 counts as absent, and every other value, negative ones included, is an owner; string uids are not modelled. `timestamp` is an optional integer in which 0 means absent. `userTitle` and `description` are optional strings.
- Name length is `|s|` over characters. JavaScript counts UTF-16 code units.
- `Promise.all` and `async`/`await`: the two existence lookups run one after the other. Concurrent creators and the check-then-write race are not modelled.
- Database failures (a storage error part-way through `saveGroupData`) are not modelled. Every write succeeds.
- `db.setObject` merging into fields an existing hash already has is not modelled. The record replaces the map entry.
- Key-space collisions between string keys (for example `group:<a>:owners` against the record key of a group named `<a>:owners`) are not modelled. Each key family is its own map.
- The `filter:group.create` hook receives `{ group, data }` and line 35 reads `data.ownerUid` after it, so a plugin could change the owner that gets written. The model's filter changes only the record, never the request, so the owner written is always the request's.
- The `action:group.create` hook is a no-op, because it only observes the record.
- `Groups.getGroupData` adds derived display fields when it reads a record. The model's read-back returns the stored record unchanged.
