/**
 Project membership over every history of requests, each of which is one transaction. The invitation's membership
 check may have read an older state: only the unique constraint is trusted.
 */
module Membership {
  import opened Wrappers

  datatype Role = Viewer | Editor | Admin

  datatype Member = Member(project: nat, user: nat, role: Role)

  /** `projects` gives each project's owner; `users` the registered users by e-mail address. */
  datatype State = State(users: map<string, nat>, projects: map<nat, nat>, members: seq<Member>)

  datatype ApiError = NotFound | Conflict

  datatype Request =
    | Register(email: string, user: nat)
    | CreateProject(project: nat, owner: nat)
    | Invite(project: nat, email: string, role: Role, seen: bool)
    | UpdateRole(project: nat, user: nat, role: Role)
    | RemoveMember(project: nat, user: nat)
    | DeleteProject(project: nat)

  predicate IsMember(members: seq<Member>, project: nat, user: nat) {
    exists i | 0 <= i < |members| :: members[i].project == project && members[i].user == user
  }

  function Find(members: seq<Member>, project: nat, user: nat): (r: Option<nat>)
    ensures r.Some? <==> IsMember(members, project, user)
    ensures r.Some? ==> r.value < |members| && members[r.value].project == project && members[r.value].user == user
  {
    if members == [] then None
    else if members[0].project == project && members[0].user == user then Some(0)
    else
      match Find(members[1..], project, user)
      case None =>
        assert forall i | 0 < i < |members| :: members[i] == members[1..][i - 1];
        None
      case Some(i) => Some(i + 1)
  }

  /** The query of `_ensure_not_last_admin`. */
  predicate OtherAdmin(members: seq<Member>, project: nat, excluding: nat) {
    exists i | 0 <= i < |members| ::
      members[i].project == project && members[i].role == Admin && members[i].user != excluding
  }

  function Without(members: seq<Member>, project: nat): seq<Member> {
    if members == [] then []
    else (if members[0].project == project then [] else [members[0]]) + Without(members[1..], project)
  }

  function Drop(members: seq<Member>, i: nat): seq<Member>
    requires i < |members|
  {
    members[..i] + members[i + 1..]
  }

  /** New ids are UUIDs, so they are new. */
  predicate Enabled(s: State, r: Request) {
    match r
    case Register(_, user) => user !in s.users.Values
    case CreateProject(project, owner) => project !in s.projects
    case _ => true
  }

  function Next(s: State, r: Request): (State, Option<ApiError>) {
    match r
    case Register(email, user) =>
      if email in s.users then (s, Some(Conflict)) else (s.(users := s.users[email := user]), None)
    case CreateProject(project, owner) =>
      (s.(projects := s.projects[project := owner], members := s.members + [Member(project, owner, Admin)]), None)
    case Invite(project, email, role, seen) =>
      if email !in s.users then (s, Some(NotFound))
      else if seen || project !in s.projects || IsMember(s.members, project, s.users[email]) then (s, Some(Conflict))
      else (s.(members := s.members + [Member(project, s.users[email], role)]), None)
    case UpdateRole(project, user, role) =>
      (match Find(s.members, project, user)
       case None => (s, Some(NotFound))
       case Some(i) =>
         if s.members[i].role == Admin && role != Admin && !OtherAdmin(s.members, project, user)
         then (s, Some(Conflict))
         else (s.(members := s.members[i := s.members[i].(role := role)]), None))
    case RemoveMember(project, user) =>
      (match Find(s.members, project, user)
       case None => (s, Some(NotFound))
       case Some(i) =>
         if project in s.projects && s.projects[project] == user then (s, Some(Conflict))
         else if s.members[i].role == Admin && !OtherAdmin(s.members, project, user) then (s, Some(Conflict))
         else (s.(members := Drop(s.members, i)), None))
    case DeleteProject(project) =>
      if project !in s.projects then (s, Some(NotFound))
      else (s.(projects := s.projects - {project}, members := Without(s.members, project)), None)
  }

  const INIT := State(map[], map[], [])

  function Exec(s: State, requests: seq<Request>): Option<State>
    decreases |requests|
  {
    if requests == [] then Some(s)
    else if Enabled(s, requests[0]) then Exec(Next(s, requests[0]).0, requests[1..])
    else None
  }

  // ---- the invariant ----

  predicate HasAdmin(members: seq<Member>, project: nat) {
    exists i | 0 <= i < |members| :: members[i].project == project && members[i].role == Admin
  }

  ghost predicate NoDuplicates(members: seq<Member>) {
    forall i, j | 0 <= i < j < |members| ::
      members[i].project != members[j].project || members[i].user != members[j].user
  }

  ghost predicate Inv(s: State) {
    && NoDuplicates(s.members)
    && (forall i | 0 <= i < |s.members| :: s.members[i].project in s.projects)
    && (forall p | p in s.projects :: HasAdmin(s.members, p) && IsMember(s.members, p, s.projects[p]))
  }

  lemma AddKeeps(s: State, t: State, m: Member)
    requires Inv(s) && t.members == s.members + [m] && m.project in t.projects
    requires !IsMember(s.members, m.project, m.user)
    requires t.projects == s.projects
          || (t.projects == s.projects[m.project := m.user] && m.role == Admin && m.project !in s.projects)
    ensures Inv(t)
  {
    forall p | p in t.projects ensures HasAdmin(t.members, p) && IsMember(t.members, p, t.projects[p]) {
      if p in s.projects {
        var i :| 0 <= i < |s.members| && s.members[i].project == p && s.members[i].role == Admin;
        var j :| 0 <= j < |s.members| && s.members[j].project == p && s.members[j].user == s.projects[p];
        assert t.members[i] == s.members[i] && t.members[j] == s.members[j];
      } else {
        assert t.members[|s.members|] == m;
      }
    }
  }

  lemma UpdateKeeps(s: State, i: nat, role: Role)
    requires Inv(s) && i < |s.members|
    requires s.members[i].role == Admin && role != Admin ==> OtherAdmin(s.members, s.members[i].project, s.members[i].user)
    ensures Inv(s.(members := s.members[i := s.members[i].(role := role)]))
  {
    var members := s.members[i := s.members[i].(role := role)];
    forall p | p in s.projects ensures HasAdmin(members, p) && IsMember(members, p, s.projects[p]) {
      hide NoDuplicates, OtherAdmin;
      var j :| 0 <= j < |s.members| && s.members[j].project == p && s.members[j].user == s.projects[p];
      assert members[j].project == p && members[j].user == s.projects[p];
      AdminAfterUpdate(s.members, i, role, p);
    }
  }

  lemma AdminAfterUpdate(members: seq<Member>, i: nat, role: Role, p: nat)
    requires i < |members| && HasAdmin(members, p)
    requires members[i].role == Admin && role != Admin ==> OtherAdmin(members, members[i].project, members[i].user)
    ensures HasAdmin(members[i := members[i].(role := role)], p)
  {
    var after := members[i := members[i].(role := role)];
    var a :| 0 <= a < |members| && members[a].project == p && members[a].role == Admin;
    if a == i && role != Admin {
      a :| 0 <= a < |members| && members[a].project == p && members[a].role == Admin && members[a].user != members[i].user;
    }
    assert after[a].project == p && after[a].role == Admin;
  }

  lemma StillThere(members: seq<Member>, i: nat, j: nat) returns (k: nat)
    requires i < |members| && j < |members| && j != i
    ensures k < |Drop(members, i)| && Drop(members, i)[k] == members[j]
  {
    k := if j < i then j else j - 1;
  }

  lemma DropOne(members: seq<Member>, i: nat)
    requires i < |members| && NoDuplicates(members)
    ensures NoDuplicates(Drop(members, i))
    ensures forall k | 0 <= k < |Drop(members, i)| ::
              Drop(members, i)[k] in members
              && (Drop(members, i)[k].project != members[i].project || Drop(members, i)[k].user != members[i].user)
  {
  }

  lemma RemoveKeeps(s: State, i: nat)
    requires Inv(s) && i < |s.members|
    requires s.projects[s.members[i].project] != s.members[i].user
    requires s.members[i].role == Admin ==> OtherAdmin(s.members, s.members[i].project, s.members[i].user)
    ensures Inv(s.(members := Drop(s.members, i)))
  {
    var members := Drop(s.members, i);
    DropOne(s.members, i);
    hide Drop, NoDuplicates;
    forall p | p in s.projects ensures HasAdmin(members, p) && IsMember(members, p, s.projects[p]) {
      StillOwned(s, i, p);
    }
  }

  lemma StillOwned(s: State, i: nat, p: nat)
    requires Inv(s) && i < |s.members| && p in s.projects
    requires s.projects[s.members[i].project] != s.members[i].user
    requires s.members[i].role == Admin ==> OtherAdmin(s.members, s.members[i].project, s.members[i].user)
    ensures HasAdmin(Drop(s.members, i), p) && IsMember(Drop(s.members, i), p, s.projects[p])
  {
    hide Drop, NoDuplicates;
    var j :| 0 <= j < |s.members| && s.members[j].project == p && s.members[j].user == s.projects[p];
    var k := StillThere(s.members, i, j);
    var a :| 0 <= a < |s.members| && s.members[a].project == p && s.members[a].role == Admin;
    if a == i {
      a :| 0 <= a < |s.members| && s.members[a].project == p && s.members[a].role == Admin
        && s.members[a].user != s.members[i].user;
    }
    k := StillThere(s.members, i, a);
  }

  lemma {:induction false} WithoutHolds(members: seq<Member>, project: nat, m: Member)
    ensures m in Without(members, project) <==> m in members && m.project != project
  {
    if members != [] {
      WithoutHolds(members[1..], project, m);
      assert members == [members[0]] + members[1..];
    }
  }

  lemma {:induction false} WithoutNoDuplicates(members: seq<Member>, project: nat)
    requires NoDuplicates(members)
    ensures NoDuplicates(Without(members, project))
  {
    if members != [] {
      var rest := Without(members[1..], project);
      WithoutNoDuplicates(members[1..], project);
      forall i | 0 <= i < |rest| ensures rest[i].project != members[0].project || rest[i].user != members[0].user {
        WithoutHolds(members[1..], project, rest[i]);
        var j :| 0 <= j < |members[1..]| && members[1..][j] == rest[i];
        assert members[j + 1] == rest[i];
      }
    }
  }

  lemma OtherProjectKept(s: State, project: nat, p: nat)
    requires Inv(s) && p in s.projects && p != project
    ensures HasAdmin(Without(s.members, project), p) && IsMember(Without(s.members, project), p, s.projects[p])
  {
    hide Without, NoDuplicates;
    var j :| 0 <= j < |s.members| && s.members[j].project == p && s.members[j].user == s.projects[p];
    var a :| 0 <= a < |s.members| && s.members[a].project == p && s.members[a].role == Admin;
    WithoutHolds(s.members, project, s.members[j]);
    WithoutHolds(s.members, project, s.members[a]);
  }

  lemma DeleteKeeps(s: State, project: nat)
    requires Inv(s)
    ensures Inv(s.(projects := s.projects - {project}, members := Without(s.members, project)))
  {
    var members := Without(s.members, project);
    WithoutNoDuplicates(s.members, project);
    hide Without, NoDuplicates, HasAdmin, IsMember;
    forall i | 0 <= i < |members| ensures members[i].project in s.projects - {project} {
      WithoutHolds(s.members, project, members[i]);
    }
    forall p | p in s.projects && p != project ensures HasAdmin(members, p) && IsMember(members, p, s.projects[p]) {
      OtherProjectKept(s, project, p);
    }
  }

  lemma NextKeeps(s: State, r: Request)
    requires Inv(s) && Enabled(s, r)
    ensures Inv(Next(s, r).0)
  {
    match r
    case Register(_, _) =>
    case CreateProject(project, owner) =>
      AddKeeps(s, Next(s, r).0, Member(project, owner, Admin));
    case Invite(project, email, role, _) =>
      if Next(s, r).1.None? { AddKeeps(s, Next(s, r).0, Member(project, s.users[email], role)); }
    case UpdateRole(project, user, role) =>
      if Next(s, r).1.None? { UpdateKeeps(s, Find(s.members, project, user).value, role); }
    case RemoveMember(project, user) =>
      if Next(s, r).1.None? { RemoveKeeps(s, Find(s.members, project, user).value); }
    case DeleteProject(project) =>
      DeleteKeeps(s, project);
  }

  lemma {:induction false} ExecKeeps(s: State, requests: seq<Request>)
    requires Inv(s) && Exec(s, requests).Some?
    ensures Inv(Exec(s, requests).value)
    decreases |requests|
  {
    hide Inv, Next;
    if requests != [] {
      NextKeeps(s, requests[0]);
      ExecKeeps(Next(s, requests[0]).0, requests[1..]);
    }
  }

  /**
   Over every history: each existing project has an admin, its owner is a member, and no user is in it twice;
   members of deleted projects are gone.
   */
  lemma EveryProjectHasAnAdmin(requests: seq<Request>, project: nat)
    requires Exec(INIT, requests).Some?
    ensures var s := Exec(INIT, requests).value;
            && (project in s.projects ==>
                  HasAdmin(s.members, project) && IsMember(s.members, project, s.projects[project]))
            && (project !in s.projects ==> forall user: nat :: !IsMember(s.members, project, user))
            && NoDuplicates(s.members)
  {
    hide Exec;
    ExecKeeps(INIT, requests);
  }

  // ---- the guards refuse exactly what would break it ----

  /** Demoting a member is refused if and only if without the refusal the project would have no admin left. */
  lemma DemotionRefusedExactly(s: State, project: nat, user: nat, role: Role)
    requires Inv(s) && IsMember(s.members, project, user)
    ensures var i := Find(s.members, project, user).value;
            Next(s, UpdateRole(project, user, role)).1 == Some(Conflict)
            <==> !HasAdmin(s.members[i := s.members[i].(role := role)], project)
  {
    var i := Find(s.members, project, user).value;
    var after := s.members[i := s.members[i].(role := role)];
    assert s.members[i].project in s.projects;
    RefusedDemotion(s, project, user, role);
    hide Find, IsMember, HasAdmin, OtherAdmin, NoDuplicates, Next;
    if s.members[i].role == Admin && role != Admin && !OtherAdmin(s.members, project, user) {
      LastAdminDemoted(s.members, i, role);
    } else {
      AdminAfterUpdate(s.members, i, role, project);
    }
  }

  lemma RefusedDemotion(s: State, project: nat, user: nat, role: Role)
    requires IsMember(s.members, project, user)
    ensures var i := Find(s.members, project, user).value;
            Next(s, UpdateRole(project, user, role)).1 == Some(Conflict) <==>
              s.members[i].role == Admin && role != Admin && !OtherAdmin(s.members, project, user)
  {
    hide IsMember, OtherAdmin;
  }

  lemma LastAdminDemoted(members: seq<Member>, i: nat, role: Role)
    requires i < |members| && NoDuplicates(members) && role != Admin
    requires !OtherAdmin(members, members[i].project, members[i].user)
    ensures !HasAdmin(members[i := members[i].(role := role)], members[i].project)
  {
    var after := members[i := members[i].(role := role)];
    forall a | 0 <= a < |after| ensures !(after[a].project == members[i].project && after[a].role == Admin) {
      if a != i { assert after[a] == members[a]; }
    }
  }

  /** Removing a member is refused if and only if it would lose the owner's membership or the last admin. */
  lemma RemovalRefusedExactly(s: State, project: nat, user: nat)
    requires Inv(s) && IsMember(s.members, project, user)
    ensures var after := Drop(s.members, Find(s.members, project, user).value);
            project in s.projects
            && (Next(s, RemoveMember(project, user)).1 == Some(Conflict)
                <==> !HasAdmin(after, project) || !IsMember(after, project, s.projects[project]))
  {
    var i := Find(s.members, project, user).value;
    var after := Drop(s.members, i);
    assert s.members[i].project in s.projects;
    RefusedRemoval(s, project, user);
    hide Drop, NoDuplicates, Find, HasAdmin, IsMember, OtherAdmin, Next;
    if s.projects[project] == user {
      OwnerGone(s.members, i);
    } else if s.members[i].role == Admin && !OtherAdmin(s.members, project, user) {
      LastAdminGone(s.members, i);
    } else {
      StillOwned(s, i, project);
    }
  }

  lemma RefusedRemoval(s: State, project: nat, user: nat)
    requires IsMember(s.members, project, user) && project in s.projects
    ensures var i := Find(s.members, project, user).value;
            Next(s, RemoveMember(project, user)).1 == Some(Conflict) <==>
              s.projects[project] == user || (s.members[i].role == Admin && !OtherAdmin(s.members, project, user))
  {
    hide Drop, IsMember, OtherAdmin;
  }

  lemma OwnerGone(members: seq<Member>, i: nat)
    requires i < |members| && NoDuplicates(members)
    ensures !IsMember(Drop(members, i), members[i].project, members[i].user)
  {
    DropOne(members, i);
    hide Drop, NoDuplicates;
  }

  lemma LastAdminGone(members: seq<Member>, i: nat)
    requires i < |members| && NoDuplicates(members) && !OtherAdmin(members, members[i].project, members[i].user)
    ensures !HasAdmin(Drop(members, i), members[i].project)
  {
    DropOne(members, i);
    var after := Drop(members, i);
    hide Drop, NoDuplicates;
    forall k | 0 <= k < |after| ensures !(after[k].project == members[i].project && after[k].role == Admin) {
      var j :| 0 <= j < |members| && members[j] == after[k];
    }
  }

  // ---- what a request does to the roles ----

  ghost predicate HasRole(s: State, project: nat, user: nat, role: Role) {
    Member(project, user, role) in s.members
  }

  /** The role of a user in a project, if the user is a member. */
  ghost function RoleIn(s: State, project: nat, user: nat): Option<Role> {
    if exists role :: HasRole(s, project, user, role) then
      var role :| HasRole(s, project, user, role); Some(role)
    else None
  }

  lemma RoleIs(s: State, project: nat, user: nat, role: Role)
    requires NoDuplicates(s.members)
    ensures RoleIn(s, project, user) == Some(role) <==> HasRole(s, project, user, role)
  {
    if HasRole(s, project, user, role) {
      forall other | HasRole(s, project, user, other) ensures other == role {
        var i :| 0 <= i < |s.members| && s.members[i] == Member(project, user, role);
        var j :| 0 <= j < |s.members| && s.members[j] == Member(project, user, other);
      }
    }
  }

  lemma RoleNone(s: State, project: nat, user: nat)
    ensures RoleIn(s, project, user).None? <==> !IsMember(s.members, project, user)
  {
    if i :| 0 <= i < |s.members| && s.members[i].project == project && s.members[i].user == user {
      assert HasRole(s, project, user, s.members[i].role);
    }
    if role :| HasRole(s, project, user, role) {
      var i :| 0 <= i < |s.members| && s.members[i] == Member(project, user, role);
    }
  }

  lemma RoleFound(s: State, project: nat, user: nat)
    requires NoDuplicates(s.members) && Find(s.members, project, user).Some?
    ensures var m := s.members[Find(s.members, project, user).value];
            m == Member(project, user, m.role) && RoleIn(s, project, user) == Some(m.role)
  {
    var m := s.members[Find(s.members, project, user).value];
    assert HasRole(s, project, user, m.role);
    RoleIs(s, project, user, m.role);
  }

  /** Two tables with the same roles for a pair look the same there. */
  lemma SameRole(s: State, t: State, project: nat, user: nat)
    requires NoDuplicates(s.members) && NoDuplicates(t.members)
    requires forall role :: HasRole(s, project, user, role) <==> HasRole(t, project, user, role)
    ensures RoleIn(t, project, user) == RoleIn(s, project, user)
  {
    if role :| HasRole(s, project, user, role) {
      RoleIs(s, project, user, role);
      RoleIs(t, project, user, role);
    }
  }

  /** The role of every user in every project after a request that is accepted. */
  ghost function RoleAfter(s: State, r: Request, project: nat, user: nat): Option<Role> {
    match r
    case CreateProject(p, owner) =>
      if p != project then RoleIn(s, project, user) else if user == owner then Some(Admin) else None
    case Invite(p, email, role, _) =>
      if p == project && email in s.users && s.users[email] == user then Some(role) else RoleIn(s, project, user)
    case UpdateRole(p, u, role) => if p == project && u == user then Some(role) else RoleIn(s, project, user)
    case RemoveMember(p, u) => if p == project && u == user then None else RoleIn(s, project, user)
    case DeleteProject(p) => if p == project then None else RoleIn(s, project, user)
    case Register(_, _) => RoleIn(s, project, user)
  }

  /** Some other member of the project is an admin. */
  ghost predicate AdminBeside(s: State, project: nat, user: nat) {
    exists other | other != user :: HasRole(s, project, other, Admin)
  }

  /** Why a request is refused, if it is. */
  ghost function Refusal(s: State, r: Request): Option<ApiError> {
    match r
    case Register(email, _) => if email in s.users then Some(Conflict) else None
    case CreateProject(_, _) => None
    case Invite(p, email, _, seen) =>
      if email !in s.users then Some(NotFound)
      else if seen || p !in s.projects || RoleIn(s, p, s.users[email]).Some? then Some(Conflict)
      else None
    case UpdateRole(p, u, role) =>
      if RoleIn(s, p, u).None? then Some(NotFound)
      else if RoleIn(s, p, u) == Some(Admin) && role != Admin && !AdminBeside(s, p, u) then Some(Conflict)
      else None
    case RemoveMember(p, u) =>
      if RoleIn(s, p, u).None? then Some(NotFound)
      else if (p in s.projects && s.projects[p] == u) || (RoleIn(s, p, u) == Some(Admin) && !AdminBeside(s, p, u)) then Some(Conflict)
      else None
    case DeleteProject(p) => if p in s.projects then None else Some(NotFound)
  }

  lemma OtherAdminIs(s: State, project: nat, user: nat)
    ensures OtherAdmin(s.members, project, user) <==> AdminBeside(s, project, user)
  {
    if i :| 0 <= i < |s.members| && s.members[i].project == project && s.members[i].role == Admin && s.members[i].user != user {
      assert HasRole(s, project, s.members[i].user, Admin);
    }
    if other :| other != user && HasRole(s, project, other, Admin) {
      var i :| 0 <= i < |s.members| && s.members[i] == Member(project, other, Admin);
    }
  }

  lemma UpdatedHas(s: State, i: nat, role: Role, project: nat, user: nat, x: Role)
    requires NoDuplicates(s.members) && i < |s.members|
    ensures var m, t := s.members[i], s.(members := s.members[i := s.members[i].(role := role)]);
            HasRole(t, project, user, x) <==>
              if m.project == project && m.user == user then x == role else HasRole(s, project, user, x)
  {
    var m, after := s.members[i], s.members[i := s.members[i].(role := role)];
    assert after[i] == m.(role := role);
    if Member(project, user, x) in s.members {
      var j :| 0 <= j < |s.members| && s.members[j] == Member(project, user, x);
      if j != i { assert after[j] == s.members[j]; }
    }
  }

  lemma DroppedHas(s: State, i: nat, project: nat, user: nat, x: Role)
    requires NoDuplicates(s.members) && i < |s.members|
    ensures var m, t := s.members[i], s.(members := Drop(s.members, i));
            HasRole(t, project, user, x) <==>
              if m.project == project && m.user == user then false else HasRole(s, project, user, x)
  {
    DropOne(s.members, i);
    if Member(project, user, x) in s.members {
      var j :| 0 <= j < |s.members| && s.members[j] == Member(project, user, x);
      if j != i { var k := StillThere(s.members, i, j); }
    }
  }

  /** A request is refused exactly for these reasons, and then changes nothing. */
  lemma RefusedExactly(s: State, r: Request)
    requires Inv(s) && Enabled(s, r)
    ensures Next(s, r).1 == Refusal(s, r)
    ensures Refusal(s, r).Some? ==> Next(s, r).0 == s
  {
    hide Drop, Without;
    match r
    case Invite(p, email, _, _) => if email in s.users { RoleNone(s, p, s.users[email]); }
    case UpdateRole(p, u, _) => RefusedMember(s, p, u);
    case RemoveMember(p, u) => RefusedMember(s, p, u);
    case _ =>
  }

  lemma RefusedMember(s: State, p: nat, u: nat)
    requires Inv(s)
    ensures var found := Find(s.members, p, u);
            && (found.Some? <==> RoleIn(s, p, u).Some?)
            && (found.Some? ==> RoleIn(s, p, u) == Some(s.members[found.value].role) && p in s.projects)
    ensures OtherAdmin(s.members, p, u) <==> AdminBeside(s, p, u)
  {
    RoleNone(s, p, u);
    OtherAdminIs(s, p, u);
    if Find(s.members, p, u).Some? { RoleFound(s, p, u); }
  }

  /** What an accepted request does: the roles change as asked, for the pair or the project asked, and nowhere else. */
  lemma AcceptedDoes(s: State, r: Request, project: nat, user: nat)
    requires Inv(s) && Enabled(s, r) && Next(s, r).1.None?
    ensures RoleIn(Next(s, r).0, project, user) == RoleAfter(s, r, project, user)
    ensures var t, made := Next(s, r).0, r.CreateProject? && r.project == project;
            && (project in t.projects <==> (project in s.projects && r != DeleteProject(project)) || made)
            && (project in t.projects ==> t.projects[project] == if made then r.owner else s.projects[project])
            && t.users == if r.Register? then s.users[r.email := r.user] else s.users
  {
    NextKeeps(s, r);
    var t := Next(s, r).0;
    match r
    case Register(_, _) => SameRole(s, t, project, user);
    case CreateProject(p, owner) => CreatedRoles(s, t, Member(p, owner, Admin), project, user);
    case Invite(p, email, role, _) => AddedRoles(s, t, Member(p, s.users[email], role), project, user);
    case UpdateRole(p, u, role) => UpdatedRoles(s, t, Find(s.members, p, u).value, role, project, user);
    case RemoveMember(p, u) => DroppedRoles(s, t, Find(s.members, p, u).value, project, user);
    case DeleteProject(p) => DeletedRoles(s, t, p, project, user);
  }

  lemma AddedRoles(s: State, t: State, m: Member, project: nat, user: nat)
    requires NoDuplicates(s.members) && NoDuplicates(t.members) && t.members == s.members + [m]
    ensures RoleIn(t, project, user) ==
              if m.project == project && m.user == user then Some(m.role) else RoleIn(s, project, user)
  {
    if m.project == project && m.user == user {
      assert t.members[|s.members|] == m;
      RoleIs(t, project, user, m.role);
    } else {
      SameRole(s, t, project, user);
    }
  }

  lemma CreatedRoles(s: State, t: State, m: Member, project: nat, user: nat)
    requires Inv(s) && NoDuplicates(t.members) && t.members == s.members + [m] && m.project !in s.projects
    ensures RoleIn(t, project, user) ==
              if m.project != project then RoleIn(s, project, user) else if user == m.user then Some(m.role) else None
  {
    AddedRoles(s, t, m, project, user);
    if m.project == project { RoleNone(s, project, user); }
  }

  lemma UpdatedRoles(s: State, t: State, i: nat, role: Role, project: nat, user: nat)
    requires NoDuplicates(s.members) && NoDuplicates(t.members) && i < |s.members|
    requires t == s.(members := s.members[i := s.members[i].(role := role)])
    ensures RoleIn(t, project, user) ==
              if s.members[i].project == project && s.members[i].user == user then Some(role)
              else RoleIn(s, project, user)
  {
    forall x ensures HasRole(t, project, user, x) <==>
                       if s.members[i].project == project && s.members[i].user == user then x == role
                       else HasRole(s, project, user, x)
    {
      UpdatedHas(s, i, role, project, user, x);
    }
    if s.members[i].project == project && s.members[i].user == user {
      RoleIs(t, project, user, role);
    } else {
      SameRole(s, t, project, user);
    }
  }

  lemma DroppedRoles(s: State, t: State, i: nat, project: nat, user: nat)
    requires NoDuplicates(s.members) && NoDuplicates(t.members) && i < |s.members|
    requires t == s.(members := Drop(s.members, i))
    ensures RoleIn(t, project, user) ==
              if s.members[i].project == project && s.members[i].user == user then None else RoleIn(s, project, user)
  {
    forall x ensures HasRole(t, project, user, x) <==>
                       if s.members[i].project == project && s.members[i].user == user then false
                       else HasRole(s, project, user, x)
    {
      DroppedHas(s, i, project, user, x);
    }
    if !(s.members[i].project == project && s.members[i].user == user) { SameRole(s, t, project, user); }
  }

  lemma DeletedRoles(s: State, t: State, p: nat, project: nat, user: nat)
    requires NoDuplicates(s.members) && NoDuplicates(t.members) && t.members == Without(s.members, p)
    ensures RoleIn(t, project, user) == if p == project then None else RoleIn(s, project, user)
  {
    forall x ensures HasRole(t, project, user, x) <==> p != project && HasRole(s, project, user, x) {
      WithoutHolds(s.members, p, Member(project, user, x));
    }
    if p != project { SameRole(s, t, project, user); }
  }

  /** The answer to a request, told by the roles: refused for its reason and without effect, or carried out. */
  ghost predicate Answers(s: State, t: State, r: Request, error: Option<ApiError>) {
    && error == Refusal(s, r)
    && if error.Some? then t == s else forall p, u :: RoleIn(t, p, u) == RoleAfter(s, r, p, u)
  }

  lemma Answered(s: State, r: Request)
    requires Inv(s) && Enabled(s, r)
    ensures Inv(Next(s, r).0) && Answers(s, Next(s, r).0, r, Next(s, r).1)
  {
    NextKeeps(s, r);
    RefusedExactly(s, r);
    hide Inv, Next, Refusal;
    if Next(s, r).1.None? {
      forall p, u ensures RoleIn(Next(s, r).0, p, u) == RoleAfter(s, r, p, u) { AcceptedDoes(s, r, p, u); }
    }
  }

  // ---- the service ----

  class ProjectStore {
    var users: map<string, nat>
    var projects: map<nat, nat>
    var members: seq<Member>

    function View(): State
      reads this
    {
      State(users, projects, members)
    }

    constructor ()
      ensures View() == INIT && Inv(View())
    {
      users, projects, members := map[], map[], [];
    }

    method Create(project: nat, owner: nat)
      requires Inv(View()) && Enabled(View(), CreateProject(project, owner))
      modifies this`projects, this`members
      ensures View() == Next(old(View()), CreateProject(project, owner)).0 && Inv(View())
    {
      NextKeeps(View(), CreateProject(project, owner));
      projects := projects[project := owner];
      members := members + [Member(project, owner, Admin)];
    }

    method InviteProjectMember(project: nat, email: string, role: Role, seen: bool) returns (error: Option<ApiError>)
      requires Inv(View())
      modifies this`members
      ensures (View(), error) == Next(old(View()), Invite(project, email, role, seen)) && Inv(View())
      ensures Answers(old(View()), View(), Invite(project, email, role, seen), error)
    {
      Answered(View(), Invite(project, email, role, seen));
      hide Inv, Answers;
      if email !in users {
        return Some(NotFound);
      }
      if seen {
        return Some(Conflict);
      }
      if project !in projects || IsMember(members, project, users[email]) {
        return Some(Conflict);
      }
      members := members + [Member(project, users[email], role)];
      error := None;
    }

    method UpdateProjectMemberRole(project: nat, user: nat, role: Role) returns (error: Option<ApiError>)
      requires Inv(View())
      modifies this`members
      ensures (View(), error) == Next(old(View()), UpdateRole(project, user, role)) && Inv(View())
      ensures Answers(old(View()), View(), UpdateRole(project, user, role), error)
    {
      Answered(View(), UpdateRole(project, user, role));
      hide Inv, Answers;
      var found := Find(members, project, user);
      if found.None? {
        return Some(NotFound);
      }
      var member := members[found.value];
      if member.role == Admin && role != Admin {
        if !OtherAdmin(members, project, user) {
          return Some(Conflict);
        }
      }
      members := members[found.value := member.(role := role)];
      error := None;
    }

    method RemoveProjectMember(project: nat, user: nat) returns (error: Option<ApiError>)
      requires Inv(View())
      modifies this`members
      ensures (View(), error) == Next(old(View()), RemoveMember(project, user)) && Inv(View())
      ensures Answers(old(View()), View(), RemoveMember(project, user), error)
    {
      Answered(View(), RemoveMember(project, user));
      hide Inv, Answers;
      var found := Find(members, project, user);
      if found.None? {
        return Some(NotFound);
      }
      if project in projects && projects[project] == user {
        return Some(Conflict);
      }
      if members[found.value].role == Admin && !OtherAdmin(members, project, user) {
        return Some(Conflict);
      }
      members := Drop(members, found.value);
      error := None;
    }

    method Delete(project: nat) returns (error: Option<ApiError>)
      requires Inv(View())
      modifies this`projects, this`members
      ensures (View(), error) == Next(old(View()), DeleteProject(project)) && Inv(View())
      ensures Answers(old(View()), View(), DeleteProject(project), error)
    {
      Answered(View(), DeleteProject(project));
      hide Inv, Answers;
      if project !in projects {
        return Some(NotFound);
      }
      projects := projects - {project};
      members := Without(members, project);
      error := None;
    }
  }
}
