/** Role-based permission checks of the qq adapter. Role ids are strings;
    a message without member information has no roles. */
module QQPermission {
  import opened Wrappers

  datatype Member = Member(roles: Option<seq<string>>)

  /** Raised when `in` is applied to a member whose `roles` is None. */
  datatype Error = NotIterable

  /** `role in getattr(member, "roles", ())`. */
  function HasRole(member: Option<Member>, role: string): (r: Result<bool, Error>)
    ensures member.None? ==> r == Ok(false)
    ensures member.Some? && member.value.roles.None? ==> r == Err(NotIterable)
    ensures member.Some? && member.value.roles.Some? ==>
      r == Ok(exists i :: 0 <= i < |member.value.roles.value| && member.value.roles.value[i] == role)
  {
    match member
    case None => Ok(false)
    case Some(m) =>
      match m.roles
      case None => Err(NotIterable)
      case Some(rs) => Ok(role in rs)
  }

  /** Channel administrator: role "5". */
  function GuildChannelAdmin(member: Option<Member>): (r: Result<bool, Error>)
    ensures r.Ok? && r.value ==> member.Some? && member.value.roles.Some? && "5" in member.value.roles.value
    ensures member.Some? && member.value.roles.Some? && "5" in member.value.roles.value ==> r == Ok(true)
  {
    HasRole(member, "5")
  }

  /** Guild administrator: role "2". */
  function GuildAdmin(member: Option<Member>): (r: Result<bool, Error>)
    ensures r.Ok? && r.value ==> member.Some? && member.value.roles.Some? && "2" in member.value.roles.value
    ensures member.Some? && member.value.roles.Some? && "2" in member.value.roles.value ==> r == Ok(true)
  {
    HasRole(member, "2")
  }

  /** Guild owner: role "4". */
  function GuildOwner(member: Option<Member>): (r: Result<bool, Error>)
    ensures r.Ok? && r.value ==> member.Some? && member.value.roles.Some? && "4" in member.value.roles.value
    ensures member.Some? && member.value.roles.Some? && "4" in member.value.roles.value ==> r == Ok(true)
  {
    HasRole(member, "4")
  }
}

/** Role-based permission checks of the older qqguild tree. Role ids are
    integers and the member is read without a default. */
module GuildPermission {
  import opened Wrappers

  datatype Member = Member(roles: Option<seq<int>>)

  datatype Error =
    | NoMember     // `event.member` is None
    | NotIterable  // `event.member.roles` is None

  function HasRole(member: Option<Member>, role: int): (r: Result<bool, Error>)
    ensures member.None? <==> r == Err(NoMember)
    ensures member.Some? && member.value.roles.None? <==> r == Err(NotIterable)
    ensures r.Ok? <==> member.Some? && member.value.roles.Some?
    ensures r.Ok? ==> (r.value <==> role in member.value.roles.value)
  {
    match member
    case None => Err(NoMember)
    case Some(m) =>
      match m.roles
      case None => Err(NotIterable)
      case Some(rs) => Ok(role in rs)
  }

  /** Guild administrator: role 2. */
  function GuildAdmin(member: Option<Member>): (r: Result<bool, Error>)
    ensures r == Ok(true) <==> member.Some? && member.value.roles.Some? && 2 in member.value.roles.value
  {
    HasRole(member, 2)
  }

  /** Guild owner: role 4. */
  function GuildOwner(member: Option<Member>): (r: Result<bool, Error>)
    ensures r == Ok(true) <==> member.Some? && member.value.roles.Some? && 4 in member.value.roles.value
  {
    HasRole(member, 4)
  }
}
