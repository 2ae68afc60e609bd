/**
 * Access control for records: a role grants each scope (entity type) a level per
 * action — no, own, team, all or yes — or denies or grants the scope outright; a scope
 * the role does not mention is open, unless the installation runs in strict mode. The
 * role also says whom a user may assign records to. Record services refuse what the
 * levels do not allow.
 */
module Acl {
  import opened Outcomes

  datatype Level = No | Own | Team | All | Yes

  datatype Action = Create | Read | Edit | Delete

  /** How much a level allows: no < own < team < all = yes. */
  function Rank(l: Level): nat
  {
    match l
    case No => 0
    case Own => 1
    case Team => 2
    case All => 3
    case Yes => 3
  }

  /** A role's entry for a scope: `false`, `true`, or a level per action. */
  datatype ScopeRule = Denied | Granted | Levels(create: Level, read: Level, edit: Level, delete: Level)

  datatype AssignmentPermission = AssignNo | AssignTeam | AssignAll

  datatype Role = Role(scopes: map<string, ScopeRule>, assignment: AssignmentPermission)

  datatype User = User(id: string, teams: set<string>, isAdmin: bool)

  datatype Record = Record(id: string, assignedUserId: Option<string>, teams: set<string>)

  function LevelIn(rule: ScopeRule, action: Action): Level
  {
    match rule
    case Denied => No
    case Granted => All
    case Levels(c, r, e, d) =>
      match action
      case Create => c
      case Read => r
      case Edit => e
      case Delete => d
  }

  /** The level a role gives for an action on a scope; an unmentioned scope is open unless in strict mode. */
  function LevelOf(role: Role, strict: bool, scope: string, action: Action): (r: Level)
    ensures scope in role.scopes ==> r == LevelIn(role.scopes[scope], action)
  {
    if scope in role.scopes then LevelIn(role.scopes[scope], action)
    else if strict then No
    else All
  }

  /** A user owns a record assigned to them; a user record is owned by that user. */
  predicate IsOwner(user: User, scope: string, record: Record)
  {
    if scope == "User" then record.id == user.id else record.assignedUserId == Some(user.id)
  }

  predicate InTeam(user: User, record: Record)
  {
    user.teams * record.teams != {}
  }

  /** What a level allows on one record. */
  predicate Permits(level: Level, owner: bool, inTeam: bool)
  {
    match level
    case No => false
    case Own => owner
    case Team => owner || inTeam
    case All => true
    case Yes => true
  }

  predicate CanCreate(role: Role, strict: bool, user: User, scope: string)
  {
    user.isAdmin || LevelOf(role, strict, scope, Create) != No
  }

  predicate CanAccess(role: Role, strict: bool, user: User, scope: string, record: Record, action: Action)
  {
    user.isAdmin || Permits(LevelOf(role, strict, scope, action), IsOwner(user, scope, record), InTeam(user, record))
  }

  /**
   * Assigning a new record: with permission `no` only to oneself, with `team` only to a
   * user sharing one of one's teams (`assigneeTeams` are the assignee's teams), and with
   * `no` or `team` only teams one is in.
   */
  predicate AssignmentPermitted(role: Role, user: User, assignee: string, assigneeTeams: set<string>, teams: set<string>)
  {
    user.isAdmin ||
    match role.assignment
    case AssignAll => true
    case AssignTeam => assigneeTeams * user.teams != {} && teams <= user.teams
    case AssignNo => assignee == user.id && teams <= user.teams
  }

  /** createEntity for a record with an assigned user. */
  function CreateEntity(role: Role, strict: bool, user: User, scope: string, record: Record,
                        assigneeTeams: set<string>): (r: Result<Record>)
    requires record.assignedUserId.Some?
    ensures r.Ok? <==> CanCreate(role, strict, user, scope)
                       && AssignmentPermitted(role, user, record.assignedUserId.value, assigneeTeams, record.teams)
    ensures r.Ok? ==> r.value == record
  {
    if !CanCreate(role, strict, user, scope) then Fail(Forbidden("create"))
    else if !AssignmentPermitted(role, user, record.assignedUserId.value, assigneeTeams, record.teams) then
      Fail(Forbidden("assignment"))
    else Ok(record)
  }

  /** getEntity. */
  function GetEntity(role: Role, strict: bool, user: User, scope: string, record: Record): (r: Result<Record>)
    ensures r.Ok? <==> CanAccess(role, strict, user, scope, record, Read)
    ensures r.Ok? ==> r.value == record
  {
    if CanAccess(role, strict, user, scope, record, Read) then Ok(record) else Fail(Forbidden("read"))
  }

  /** Attributes of a scope only an administrator may change. */
  function AdminOnly(scope: string): set<string>
  {
    if scope == "User" then {"type", "teamsIds"} else {}
  }

  /** updateEntity: refused without edit access; a non-administrator's admin-only attributes are dropped. */
  function UpdateEntity(role: Role, strict: bool, user: User, scope: string, record: Record,
                        input: map<string, string>): (r: Result<map<string, string>>)
    ensures r.Ok? <==> CanAccess(role, strict, user, scope, record, Edit)
    ensures r.Ok? ==> forall k :: k in r.value <==> k in input && (user.isAdmin || k !in AdminOnly(scope))
    ensures r.Ok? ==> forall k :: k in r.value ==> r.value[k] == input[k]
  {
    if !CanAccess(role, strict, user, scope, record, Edit) then Fail(Forbidden("edit"))
    else Ok(map k | k in input && (user.isAdmin || k !in AdminOnly(scope)) :: input[k])
  }

  /**
   * find: refused when the user cannot read the scope at all or when the search filters
   * on an internal attribute of the scope (`internal` comes from the entity definitions).
   */
  function Find(role: Role, strict: bool, user: User, scope: string, whereAttributes: seq<string>,
                internal: map<string, set<string>>): (r: Result<seq<string>>)
    ensures r.Ok? <==> (user.isAdmin || LevelOf(role, strict, scope, Read) != No)
                       && (scope !in internal || forall i :: 0 <= i < |whereAttributes| ==> whereAttributes[i] !in internal[scope])
    ensures r.Ok? ==> r.value == whereAttributes
    ensures r.Fail? ==> r.error.Forbidden?
  {
    if !user.isAdmin && LevelOf(role, strict, scope, Read) == No then Fail(Forbidden("read"))
    else if scope in internal && exists i :: 0 <= i < |whereAttributes| && whereAttributes[i] in internal[scope] then
      Fail(Forbidden("internal attribute"))
    else Ok(whereAttributes)
  }

  // ---------------------------------------------------------------------------
  // Properties of the decision rules

  /** A scope set to `false`, or with create `no`, cannot be created in by a non-administrator. */
  lemma CreateDeniedByRole(role: Role, strict: bool, user: User, scope: string, record: Record,
                           assigneeTeams: set<string>)
    requires !user.isAdmin && record.assignedUserId.Some? && scope in role.scopes
    requires role.scopes[scope] == Denied || (role.scopes[scope].Levels? && role.scopes[scope].create == No)
    ensures CreateEntity(role, strict, user, scope, record, assigneeTeams) == Fail(Forbidden("create"))
  {
  }

  /** Strict mode closes exactly the scopes the role does not mention. */
  lemma StrictModeClosesUnlisted(role: Role, user: User, scope: string, record: Record, action: Action)
    requires !user.isAdmin
    ensures scope !in role.scopes ==>
              (CanAccess(role, true, user, scope, record, action) == false
               && CanAccess(role, false, user, scope, record, action) == true
               && !CanCreate(role, true, user, scope) && CanCreate(role, false, user, scope))
    ensures scope in role.scopes ==>
              CanAccess(role, true, user, scope, record, action) == CanAccess(role, false, user, scope, record, action)
              && CanCreate(role, true, user, scope) == CanCreate(role, false, user, scope)
  {
  }

  /** Level `own` allows exactly the records the user owns. */
  lemma OwnLevelIsOwnership(role: Role, strict: bool, user: User, scope: string, record: Record, action: Action)
    requires !user.isAdmin && LevelOf(role, strict, scope, action) == Own
    ensures CanAccess(role, strict, user, scope, record, action) <==> IsOwner(user, scope, record)
  {
  }

  /** Level `team` allows exactly the records the user owns or shares a team with. */
  lemma TeamLevelIsSharedTeam(role: Role, strict: bool, user: User, scope: string, record: Record, action: Action)
    requires !user.isAdmin && LevelOf(role, strict, scope, action) == Team
    ensures CanAccess(role, strict, user, scope, record, action)
            <==> IsOwner(user, scope, record) || exists t :: t in user.teams && t in record.teams
  {
    if exists t :: t in user.teams && t in record.teams {
      var t :| t in user.teams && t in record.teams;
      assert t in user.teams * record.teams;
    }
  }

  /** A higher level never allows less. */
  lemma PermitsMonotone(low: Level, high: Level, owner: bool, inTeam: bool)
    requires Rank(low) <= Rank(high)
    ensures Permits(low, owner, inTeam) ==> Permits(high, owner, inTeam)
  {
  }

  /** Edit `own` refuses a record that read `team` shows, when the user does not own it. */
  lemma EditOwnDespiteTeamRead(role: Role, strict: bool, user: User, scope: string, record: Record)
    requires !user.isAdmin && scope in role.scopes && role.scopes[scope].Levels?
    requires role.scopes[scope].read == Team && role.scopes[scope].edit == Own
    requires !IsOwner(user, scope, record) && InTeam(user, record)
    ensures GetEntity(role, strict, user, scope, record).Ok?
    ensures UpdateEntity(role, strict, user, scope, record, map[]) == Fail(Forbidden("edit"))
  {
  }

  /** With team assignment permission, a team the user is not in cannot be assigned; the user's own teams can. */
  lemma TeamAssignment(role: Role, strict: bool, user: User, scope: string, record: Record, assigneeTeams: set<string>)
    requires !user.isAdmin && role.assignment == AssignTeam && record.assignedUserId.Some?
    requires CanCreate(role, strict, user, scope) && assigneeTeams * user.teams != {}
    ensures CreateEntity(role, strict, user, scope, record, assigneeTeams).Ok? <==> record.teams <= user.teams
  {
  }

  /**
   * A user with user edit `own` may update their own user record but not another's, and
   * their `type` and `teamsIds` are not applied; with edit `no` they may not update even
   * their own.
   */
  lemma UserSelfEdit(role: Role, strict: bool, user: User, self: Record, other: Record, input: map<string, string>)
    requires !user.isAdmin && "User" in role.scopes && role.scopes["User"].Levels?
    requires self.id == user.id && other.id != user.id
    ensures role.scopes["User"].edit == Own ==>
              UpdateEntity(role, strict, user, "User", self, input).Ok?
              && "type" !in UpdateEntity(role, strict, user, "User", self, input).value
              && "teamsIds" !in UpdateEntity(role, strict, user, "User", self, input).value
              && ("title" in input ==> UpdateEntity(role, strict, user, "User", self, input).value["title"] == input["title"])
              && UpdateEntity(role, strict, user, "User", other, input).Fail?
    ensures role.scopes["User"].edit == No ==> UpdateEntity(role, strict, user, "User", self, input).Fail?
  {
  }

  /** A search that filters on an internal attribute, such as a user's password, is refused. */
  lemma InternalAttributeSearchRefused(role: Role, strict: bool, user: User, scope: string,
                                       whereAttributes: seq<string>, internal: map<string, set<string>>, i: nat)
    requires scope in internal && i < |whereAttributes| && whereAttributes[i] in internal[scope]
    ensures Find(role, strict, user, scope, whereAttributes, internal).Fail?
  {
  }

  // ---------------------------------------------------------------------------
  // The role of the access-control test

  const TestUser := User("testUserId", {"testTeamId"}, false)

  const TestRole := Role(
    map[
      "Account" := Denied,
      "Lead" := Levels(No, Own, Own, No),
      "Meeting" := Levels(Yes, Team, Own, Own)
    ],
    AssignTeam)

  /** Creating accounts and leads is refused; in strict mode so is creating cases, while meetings may be created. */
  lemma TestCreate(strict: bool, record: Record)
    requires record.assignedUserId == Some("testUserId")
    ensures CreateEntity(TestRole, strict, TestUser, "Account", record, {"testTeamId"}).Fail?
    ensures CreateEntity(TestRole, strict, TestUser, "Lead", record, {"testTeamId"}).Fail?
    ensures CreateEntity(TestRole, true, TestUser, "Case", record, {"testTeamId"}).Fail?
    ensures record.teams == {"testTeamId"} ==>
              CreateEntity(TestRole, true, TestUser, "Meeting", record, {"testTeamId"}).Ok?
    ensures record.teams == {} ==>
              CreateEntity(TestRole, true, TestUser, "Meeting", record, {"testTeamId"}).Ok?
    ensures record.teams == {"testOtherTeamId"} ==>
              CreateEntity(TestRole, strict, TestUser, "Meeting", record, {"testTeamId"}).Fail?
  {
    assert "testTeamId" in {"testTeamId"} * TestUser.teams;
  }

  /** Leads are readable when assigned to the user; meetings when in the user's team; meetings the user does not own are not editable. */
  lemma TestRead(strict: bool)
    ensures GetEntity(TestRole, strict, TestUser, "Lead", Record("testLeadId", None, {})).Fail?
    ensures GetEntity(TestRole, strict, TestUser, "Lead", Record("testLeadId", Some("testUserId"), {})).Ok?
    ensures GetEntity(TestRole, strict, TestUser, "Meeting", Record("testMeetingId", None, {"testOtherTeamId"})).Fail?
    ensures GetEntity(TestRole, strict, TestUser, "Meeting", Record("testMeetingId", None, {"testTeamId"})).Ok?
    ensures UpdateEntity(TestRole, strict, TestUser, "Meeting", Record("testMeetingId", None, {"testTeamId"}), map[]).Fail?
  {
    assert "testTeamId" in TestUser.teams * {"testTeamId"};
    assert TestUser.teams * {"testOtherTeamId"} == {};
  }
}
