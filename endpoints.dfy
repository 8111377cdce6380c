/** The HTTP handlers of the backend (backend/main.py). Each handler is an ordered list of
    guard checks, modelled as a function returning a `Verdict`; the handler methods compose
    that verdict with the store operation it protects. The authenticated caller is a
    parameter (token decoding is not part of this model). */
module Endpoints {
  import opened Domain
  import opened Crud
  import opened Recency

  /** An HTTP answer: a body, or an error status with its `detail` text. */
  datatype Response<T> = Ok(value: T) | Fail(status: int, detail: string)

  /** What a handler's guard checks decide. */
  datatype Verdict = Allow | Deny(status: int, detail: string)

  /** `POST /token`: a bearer token for an authenticated user, 401 otherwise. The token text
      comes from the token-signing module and is a parameter here. */
  function LoginForAccessToken(authenticated: Option<User>, signed: string): (r: Response<Token>)
    ensures r.Fail? <==> authenticated.None?
    ensures r.Fail? ==> r == Fail(401, "Incorrect username or password")
    ensures r.Ok? ==> r.value.accessToken == signed && r.value.tokenType == BearerType
  {
    if authenticated.None? then Fail(401, "Incorrect username or password")
    else Ok(Token(signed, BearerType))
  }

  /** `POST /users/`: an email that is already registered is refused with 400. The lookup
      uses the address as the request schema normalised it. */
  function CreateUserGuard(users: seq<User>, input: UserCreate): (v: Verdict)
    ensures v.Deny? <==> exists u :: u in users && u.email == NormalizeEmail(input.email)
    ensures v.Deny? ==> v == Deny(400, "Email already registered")
  {
    if FindUserByEmail(users, NormalizeEmail(input.email)).Some? then Deny(400, "Email already registered") else Allow
  }

  /** Once an address is registered, registering it again is refused, whatever the case of
      its domain. */
  lemma RegisteredAddressRefused(users: seq<User>, registered: User, input: UserCreate, again: UserCreate)
    requires registered in users && registered.email == NormalizeEmail(input.email)
    requires NormalizeEmail(again.email) == NormalizeEmail(input.email)
    ensures CreateUserGuard(users, again) == Deny(400, "Email already registered")
  {
  }

  method CreateUser(store: Store, input: UserCreate, now: int) returns (r: Response<User>)
    requires store.Valid()
    modifies store
    ensures store.Valid()
    ensures r.Fail? <==> exists u :: u in old(store.users) && u.email == NormalizeEmail(input.email)
    ensures r.Fail? ==> Deny(r.status, r.detail) == CreateUserGuard(old(store.users), input) && unchanged(store)
    ensures r.Ok? ==> store.users == old(store.users) + [r.value]
    ensures r.Ok? ==>
      && r.value.email == NormalizeEmail(input.email) && r.value.name == input.name
      && r.value.role == input.role && r.value.managerId == input.managerId && r.value.createdAt == now
    ensures store.feedback == old(store.feedback)
  {
    var v := CreateUserGuard(store.users, input);
    if v.Deny? {
      return Fail(v.status, v.detail);
    }
    var u := store.CreateUser(input.(email := NormalizeEmail(input.email)), now);
    r := Ok(u);
  }

  /** The role check shared by `GET /users/` and `GET /teams/my-team`. */
  function ManagerOnly(caller: User, detail: string): (v: Verdict)
    ensures v.Allow? <==> caller.role == Manager
    ensures v.Deny? ==> v.status == 403 && v.detail == detail
  {
    if caller.role != Manager then Deny(403, detail) else Allow
  }

  /** `GET /users/`: a page of users, for managers only (the query defaults are skip 0 and
      limit 100). */
  function ReadUsers(users: seq<User>, caller: User, skip: nat, limit: nat): (r: Response<seq<User>>)
    ensures caller.role != Manager ==> r == Fail(403, "Not authorized")
    ensures caller.role == Manager ==> r.Ok? && |r.value| == Min(limit, if skip <= |users| then |users| - skip else 0)
    ensures r.Ok? ==> forall i :: 0 <= i < |r.value| ==> skip + i < |users| && r.value[i] == users[skip + i]
  {
    match ManagerOnly(caller, "Not authorized")
    case Deny(status, detail) => Fail(status, detail)
    case Allow => Ok(UsersPage(users, skip, limit))
  }

  /** `GET /teams/my-team`: exactly the caller's team, for managers only. */
  function MyTeam(users: seq<User>, caller: User): (r: Response<seq<User>>)
    ensures caller.role != Manager ==> r == Fail(403, "Not authorized")
    ensures caller.role == Manager ==> r.Ok?
    ensures r.Ok? ==> forall u :: u in r.value <==> u in users && u.managerId == Some(caller.id)
  {
    match ManagerOnly(caller, "Not authorized")
    case Deny(status, detail) => Fail(status, detail)
    case Allow => Ok(TeamMembers(users, caller.id))
  }

  /** `POST /feedback/`: first the caller must be a manager, then the employee must exist
      and report to the caller; both failures are 403. */
  function CreateFeedbackGuard(users: seq<User>, caller: User, input: FeedbackCreate): (v: Verdict)
    ensures caller.role != Manager ==> v == Deny(403, "Only managers can create feedback")
    ensures caller.role == Manager ==>
      (v.Allow? <==> FindUser(users, input.employeeId).Some? && FindUser(users, input.employeeId).value.managerId == Some(caller.id))
    ensures caller.role == Manager && v.Deny? ==> v == Deny(403, "Employee not in your team")
  {
    if caller.role != Manager then Deny(403, "Only managers can create feedback")
    else
      var employee := FindUser(users, input.employeeId);
      if employee.None? || employee.value.managerId != Some(caller.id) then Deny(403, "Employee not in your team")
      else Allow
  }

  method CreateFeedback(store: Store, caller: User, input: FeedbackCreate, createdAt: int, updatedAt: int)
    returns (r: Response<Feedback>)
    requires store.Valid()
    modifies store
    ensures store.Valid()
    ensures r.Fail? <==> CreateFeedbackGuard(old(store.users), caller, input).Deny?
    ensures r.Fail? ==> Deny(r.status, r.detail) == CreateFeedbackGuard(old(store.users), caller, input) && unchanged(store)
    ensures r.Ok? ==> r.value.managerId == caller.id && r.value.employeeId == input.employeeId
    ensures r.Ok? ==> !r.value.acknowledged && store.feedback == old(store.feedback) + [r.value]
    ensures r.Ok? ==>
      && r.value.strengths == input.strengths && r.value.areasToImprove == input.areasToImprove
      && r.value.sentiment == input.sentiment && r.value.acknowledgedAt == None
      && r.value.createdAt == createdAt && r.value.updatedAt == updatedAt
    ensures store.users == old(store.users)
  {
    var v := CreateFeedbackGuard(store.users, caller, input);
    if v.Deny? {
      return Fail(v.status, v.detail);
    }
    var f := store.CreateFeedback(input, caller.id, createdAt, updatedAt);
    r := Ok(f);
  }

  /** `GET /feedback/`: a manager sees the feedback they wrote, anyone else what they received. */
  function ReadFeedback(fs: seq<Feedback>, caller: User): (r: seq<Feedback>)
    ensures caller.role == Manager ==> forall f :: f in r <==> f in fs && f.managerId == caller.id
    ensures caller.role != Manager ==> forall f :: f in r <==> f in fs && f.employeeId == caller.id
  {
    if caller.role == Manager then FeedbackByManager(fs, caller.id) else FeedbackByEmployee(fs, caller.id)
  }

  /** `PUT /feedback/{id}`: an unknown id is 404 before anything else; then only the manager
      who wrote the record may change it, anyone else gets 403. */
  function UpdateFeedbackGuard(fs: seq<Feedback>, caller: User, id: int): (v: Verdict)
    ensures FindFeedback(fs, id).None? ==> v == Deny(404, "Feedback not found")
    ensures FindFeedback(fs, id).Some? ==>
      (v.Allow? <==> caller.role == Manager && FindFeedback(fs, id).value.managerId == caller.id)
    ensures FindFeedback(fs, id).Some? && v.Deny? ==> v == Deny(403, "Not authorized to update this feedback")
  {
    var found := FindFeedback(fs, id);
    if found.None? then Deny(404, "Feedback not found")
    else if caller.role != Manager || found.value.managerId != caller.id then
      Deny(403, "Not authorized to update this feedback")
    else Allow
  }

  method UpdateFeedback(store: Store, caller: User, id: int, upd: FeedbackUpdate, now: int) returns (r: Response<Feedback>)
    requires store.Valid()
    modifies store
    ensures store.Valid()
    ensures r.Fail? <==> UpdateFeedbackGuard(old(store.feedback), caller, id).Deny?
    ensures r.Fail? ==> Deny(r.status, r.detail) == UpdateFeedbackGuard(old(store.feedback), caller, id) && unchanged(store)
    ensures r.Ok? ==> r.value == Patched(FindFeedback(old(store.feedback), id).value, upd, now)
    ensures r.Ok? ==> RewrittenById(old(store.feedback), store.feedback, id, f => Patched(f, upd, now))
    ensures store.users == old(store.users)
  {
    var v := UpdateFeedbackGuard(store.feedback, caller, id);
    if v.Deny? {
      return Fail(v.status, v.detail);
    }
    var updated := store.UpdateFeedback(id, upd, now);
    assert updated.Some?;
    r := Ok(updated.value);
  }

  /** `POST /feedback/{id}/acknowledge`: an unknown id is 404; then only the recipient may
      acknowledge (there is no role check), anyone else gets 403. */
  function AcknowledgeGuard(fs: seq<Feedback>, caller: User, id: int): (v: Verdict)
    ensures FindFeedback(fs, id).None? ==> v == Deny(404, "Feedback not found")
    ensures FindFeedback(fs, id).Some? ==> (v.Allow? <==> FindFeedback(fs, id).value.employeeId == caller.id)
    ensures FindFeedback(fs, id).Some? && v.Deny? ==> v == Deny(403, "Not authorized to acknowledge this feedback")
  {
    var found := FindFeedback(fs, id);
    if found.None? then Deny(404, "Feedback not found")
    else if found.value.employeeId != caller.id then Deny(403, "Not authorized to acknowledge this feedback")
    else Allow
  }

  method AcknowledgeFeedback(store: Store, caller: User, id: int, now: int) returns (r: Response<Feedback>)
    requires store.Valid()
    modifies store
    ensures store.Valid()
    ensures r.Fail? <==> AcknowledgeGuard(old(store.feedback), caller, id).Deny?
    ensures r.Fail? ==> Deny(r.status, r.detail) == AcknowledgeGuard(old(store.feedback), caller, id) && unchanged(store)
    ensures r.Ok? ==> r.value == Acknowledged(FindFeedback(old(store.feedback), id).value, now)
    ensures r.Ok? ==> RewrittenById(old(store.feedback), store.feedback, id, f => Acknowledged(f, now))
    ensures store.users == old(store.users)
  {
    var v := AcknowledgeGuard(store.feedback, caller, id);
    if v.Deny? {
      return Fail(v.status, v.detail);
    }
    var acknowledged := store.AcknowledgeFeedback(id, now);
    assert acknowledged.Some?;
    r := Ok(acknowledged.value);
  }

  /** `GET /dashboard/manager`: the caller's own dashboard, for managers only. */
  method GetManagerDashboard(store: Store, caller: User) returns (r: Response<ManagerDashboard>)
    ensures caller.role != Manager ==> r == Fail(403, "Manager access required")
    ensures caller.role == Manager ==> r == Ok(ManagerDashboardOf(store.users, store.feedback, caller.id))
  {
    var v := ManagerOnly(caller, "Manager access required");
    if v.Deny? {
      return Fail(v.status, v.detail);
    }
    var d := store.GetManagerDashboard(caller.id);
    r := Ok(d);
  }

  /** `GET /dashboard/employee`: no role check; always the caller's own received feedback. */
  method GetEmployeeDashboard(store: Store, caller: User) returns (d: EmployeeDashboard)
    ensures d == EmployeeDashboardOf(store.feedback, caller.id)
  {
    d := store.GetEmployeeDashboard(caller.id);
  }

  /** Nothing stops a manager from having a manager. Feedback such a manager receives
      counts on their employee dashboard, but `GET /feedback/` never lists it for them,
      because it lists a manager's authored feedback only. */
  lemma ManagerRecipientCannotListReceived(fs: seq<Feedback>, lead: User, f: Feedback)
    requires lead.role == Manager && f in fs && f.employeeId == lead.id && f.managerId != lead.id
    ensures EmployeeDashboardOf(fs, lead.id).totalFeedbackReceived >= 1
    ensures f !in ReadFeedback(fs, lead)
  {
    assert f in FeedbackByEmployee(fs, lead.id);
  }

  /** Such feedback can be created: a manager may write feedback for a manager on their
      team. */
  lemma ManagerRecipientExample()
    ensures var boss := User(1, "boss@example.com", "Boss", Manager, None, 0);
      var lead := User(2, "lead@example.com", "Lead", Manager, Some(1), 0);
      CreateFeedbackGuard([boss, lead], boss, FeedbackCreate(2, "Clear planning", "Delegation", Positive)) == Allow
  {
    var boss := User(1, "boss@example.com", "Boss", Manager, None, 0);
    var lead := User(2, "lead@example.com", "Lead", Manager, Some(1), 0);
    assert FindUser([boss, lead], 2) == Some(lead) by {
      assert [boss, lead][1] == lead;
    }
  }

  // ------------------------------------------------ the role test as written

  /** A Python value as the role checks compare it: a member of a plain `enum.Enum` class,
      or a `str`. */
  datatype PyValue = EnumMember(enumClass: string, name: string) | Str(text: string)

  /** Python's `==` on these values. A member of a plain `enum.Enum` (one that does not
      also derive from `str`) equals only itself, never a string. */
  predicate PyEquals(a: PyValue, b: PyValue)
  {
    match (a, b)
    case (EnumMember(c, n), EnumMember(d, m)) => c == d && n == m
    case (Str(x), Str(y)) => x == y
    case _ => false
  }

  /** `current_user.role` of a user loaded from the database: the column is
      `Enum(UserRole)`, and `UserRole` in backend/models.py is a plain `enum.Enum`. */
  function StoredRole(r: Role): (v: PyValue)
    ensures v.EnumMember? && v.enumClass == "UserRole"
  {
    match r
    case Manager => EnumMember("UserRole", "MANAGER")
    case Employee => EnumMember("UserRole", "EMPLOYEE")
  }

  /** `current_user.role == "manager"` as written, for whatever value `role` holds. */
  predicate IsManagerAsWritten(role: PyValue)
  {
    PyEquals(role, Str(RoleName(Manager)))
  }

  /** The value a user loaded from the database carries is never equal to the string. */
  lemma StoredRoleNeverEqualsString(r: Role)
    ensures !IsManagerAsWritten(StoredRole(r))
  {
  }

  /** The manager-only check of `read_users`, `get_my_team` and `get_manager_dashboard` as
      written: `role != "manager"` refuses with 403. */
  function ManagerOnlyAsWritten(role: PyValue, detail: string): (v: Verdict)
    ensures v.Allow? <==> role == Str("manager")
    ensures v.Deny? ==> v == Deny(403, detail)
  {
    if !IsManagerAsWritten(role) then Deny(403, detail) else Allow
  }

  /** The checks of `create_feedback` as written, `role` being `current_user.role`. */
  function CreateFeedbackGuardAsWritten(users: seq<User>, caller: User, role: PyValue, input: FeedbackCreate): (v: Verdict)
    ensures !IsManagerAsWritten(role) ==> v == Deny(403, "Only managers can create feedback")
    ensures IsManagerAsWritten(role) ==>
      (v.Allow? <==> FindUser(users, input.employeeId).Some? && FindUser(users, input.employeeId).value.managerId == Some(caller.id))
  {
    if !IsManagerAsWritten(role) then Deny(403, "Only managers can create feedback")
    else
      var employee := FindUser(users, input.employeeId);
      if employee.None? || employee.value.managerId != Some(caller.id) then Deny(403, "Employee not in your team")
      else Allow
  }

  /** `read_feedback` as written, `role` being `current_user.role`. */
  function ReadFeedbackAsWritten(fs: seq<Feedback>, caller: User, role: PyValue): (r: seq<Feedback>)
    ensures IsManagerAsWritten(role) ==> forall f :: f in r <==> f in fs && f.managerId == caller.id
    ensures !IsManagerAsWritten(role) ==> forall f :: f in r <==> f in fs && f.employeeId == caller.id
  {
    if IsManagerAsWritten(role) then FeedbackByManager(fs, caller.id) else FeedbackByEmployee(fs, caller.id)
  }

  /** The checks of `update_feedback` as written, `role` being `current_user.role`. */
  function UpdateFeedbackGuardAsWritten(fs: seq<Feedback>, caller: User, role: PyValue, id: int): (v: Verdict)
    ensures FindFeedback(fs, id).None? ==> v == Deny(404, "Feedback not found")
    ensures FindFeedback(fs, id).Some? ==>
      (v.Allow? <==> IsManagerAsWritten(role) && FindFeedback(fs, id).value.managerId == caller.id)
  {
    var found := FindFeedback(fs, id);
    if found.None? then Deny(404, "Feedback not found")
    else if !IsManagerAsWritten(role) || found.value.managerId != caller.id then
      Deny(403, "Not authorized to update this feedback")
    else Allow
  }

  /** Were the role a string, as it is in the request and response schemas, the checks as
      written would be exactly the intended ones. */
  lemma AsWrittenAgreesOnStringRoles(users: seq<User>, fs: seq<Feedback>, caller: User, input: FeedbackCreate, id: int, detail: string)
    ensures var role := Str(RoleName(caller.role));
      && ManagerOnlyAsWritten(role, detail) == ManagerOnly(caller, detail)
      && CreateFeedbackGuardAsWritten(users, caller, role, input) == CreateFeedbackGuard(users, caller, input)
      && ReadFeedbackAsWritten(fs, caller, role) == ReadFeedback(fs, caller)
      && UpdateFeedbackGuardAsWritten(fs, caller, role, id) == UpdateFeedbackGuard(fs, caller, id)
  {
  }

  /** With the role a user loaded from the database actually carries, every manager-only
      check refuses, `read_feedback` always lists received feedback, and no known record can
      be updated by anyone. */
  lemma AsWrittenRefusesStoredManagers(users: seq<User>, fs: seq<Feedback>, caller: User, input: FeedbackCreate, id: int, detail: string)
    ensures var role := StoredRole(caller.role);
      && ManagerOnlyAsWritten(role, detail) == Deny(403, detail)
      && CreateFeedbackGuardAsWritten(users, caller, role, input) == Deny(403, "Only managers can create feedback")
      && ReadFeedbackAsWritten(fs, caller, role) == FeedbackByEmployee(fs, caller.id)
      && (FindFeedback(fs, id).Some? ==>
            UpdateFeedbackGuardAsWritten(fs, caller, role, id) == Deny(403, "Not authorized to update this feedback"))
  {
    StoredRoleNeverEqualsString(caller.role);
  }

  /** The seeded manager of backend/create_demo_data.py, with a team member and a record
      they wrote: the intended checks let them through, the checks as written do not. */
  lemma SeededManagerRefusedAsWritten()
    ensures var manager := User(1, "manager@example.com", "John Manager", Manager, None, 0);
      var alice := User(2, "alice@example.com", "Alice Johnson", Employee, Some(1), 0);
      var given := Feedback(1, 1, 2, "Clear and timely", "Delegate more", Positive, 0, 0, false, None);
      var input := FeedbackCreate(2, "Clear and timely", "Delegate more", Positive);
      var role := StoredRole(manager.role);
      && ManagerOnly(manager, "Not authorized") == Allow
      && ManagerOnlyAsWritten(role, "Not authorized") == Deny(403, "Not authorized")
      && CreateFeedbackGuard([manager, alice], manager, input) == Allow
      && CreateFeedbackGuardAsWritten([manager, alice], manager, role, input) == Deny(403, "Only managers can create feedback")
      && UpdateFeedbackGuard([given], manager, 1) == Allow
      && UpdateFeedbackGuardAsWritten([given], manager, role, 1) == Deny(403, "Not authorized to update this feedback")
      && given in ReadFeedback([given], manager)
      && given !in ReadFeedbackAsWritten([given], manager, role)
  {
    var manager := User(1, "manager@example.com", "John Manager", Manager, None, 0);
    var alice := User(2, "alice@example.com", "Alice Johnson", Employee, Some(1), 0);
    var given := Feedback(1, 1, 2, "Clear and timely", "Delegate more", Positive, 0, 0, false, None);
    assert FindUser([manager, alice], 2) == Some(alice) by {
      assert [manager, alice][1] == alice;
    }
    assert FindFeedback([given], 1) == Some(given) by {
      assert [given][0] == given;
    }
  }
}
