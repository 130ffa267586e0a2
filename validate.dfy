/**
 * `Groups.validateGroupName` (src/groups/create.js:113-133): an ordered chain
 * of checks in which the first failing one decides the error thrown.
 */
module GroupName {
  import opened Wrappers
  import opened Platform

  /** The errors the creation path throws. */
  datatype Error =
    | NameTooShort       // [[error:group-name-too-short]]
    | InvalidName        // [[error:invalid-group-name]]
    | NameTooLong        // [[error:group-name-too-long]]
    | AlreadyExists      // [[error:group-already-exists]]

  /**
   * Reference definition of an acceptable name, written as one conjunction
   * rather than as the source's ordered chain.
   */
  predicate AcceptableName(env: Env, s: string) {
    && s != ""
    && s != "guests"
    && '/' !in s
    && env.slugify(s) != ""
    && (env.isPrivilegeGroup(s) || (|s| <= env.maximumGroupNameLength && ':' !in s))
  }

  /** The source's chain of checks, in its order. */
  function ValidateGroupName(env: Env, name: JsValue): (r: Outcome<Error>)
    // accepted exactly when the name is a string meeting every rule
    ensures r == Pass <==> name.Str? && AcceptableName(env, name.s)
    // only validation errors are thrown here
    ensures r != Fail(AlreadyExists)
    // too-short is the error for every falsy name, and only for those
    ensures r == Fail(NameTooShort) <==> !Truthy(name)
    // too-long only for an ordinary name over the configured maximum
    ensures r == Fail(NameTooLong) <==>
              name.Str? && name.s != "" && !env.isPrivilegeGroup(name.s)
              && |name.s| > env.maximumGroupNameLength
    // a truthy value that is not a string is invalid
    ensures Truthy(name) && !name.Str? ==> r == Fail(InvalidName)
  {
    if !Truthy(name) then Fail(NameTooShort)
    else if !name.Str? then Fail(InvalidName)
    else
      var s := name.s;
      if !env.isPrivilegeGroup(s) && |s| > env.maximumGroupNameLength then Fail(NameTooLong)
      else if s == "guests" || (!env.isPrivilegeGroup(s) && ':' in s) then Fail(InvalidName)
      else if '/' in s || env.slugify(s) == "" then Fail(InvalidName)
      else Pass
  }

  /**
   * A privilege-group name is judged without the length limit and the colon
   * ban: changing the configured maximum never changes its verdict, and it is
   * accepted exactly when it is non-empty, not "guests", has no '/' and has a
   * non-empty slug.
   */
  lemma PrivilegeNamesExempt(env: Env, s: string, max: int)
    requires env.isPrivilegeGroup(s)
    ensures ValidateGroupName(env, Str(s))
            == ValidateGroupName(env.(maximumGroupNameLength := max), Str(s))
    ensures ValidateGroupName(env, Str(s)) == Pass <==>
              s != "" && s != "guests" && '/' !in s && env.slugify(s) != ""
  {
  }

  /**
   * The individual rejections: each rule names its error once the checks
   * before it have passed (the length check comes before the others).
   */
  lemma Rejections(env: Env, s: string)
    ensures ValidateGroupName(env, Str("")) == Fail(NameTooShort)
    // "guests" is refused, unless the length check fires first
    ensures env.isPrivilegeGroup("guests") || |"guests"| <= env.maximumGroupNameLength
            ==> ValidateGroupName(env, Str("guests")) == Fail(InvalidName)
    ensures s != "" && '/' in s && (env.isPrivilegeGroup(s) || |s| <= env.maximumGroupNameLength)
            ==> ValidateGroupName(env, Str(s)) == Fail(InvalidName)
    ensures s != "" && ':' in s && !env.isPrivilegeGroup(s) && |s| <= env.maximumGroupNameLength
            ==> ValidateGroupName(env, Str(s)) == Fail(InvalidName)
    ensures s != "" && env.slugify(s) == "" && (env.isPrivilegeGroup(s) || |s| <= env.maximumGroupNameLength)
            ==> ValidateGroupName(env, Str(s)) == Fail(InvalidName)
  {
  }
}
