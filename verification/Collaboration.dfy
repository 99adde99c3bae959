/** Teams, members and invitations (internal/domain/collaboration/domain.go,
    roles.go). Each operation is one step; a transaction takes effect as a whole or
    not at all, as told by `ok`. A deleted team is hidden from the queries for teams
    (internal/adapter/outbound/postgres/collaboration.go), its members and
    invitations are not. */
module Collaboration {
  import opened Options
  import opened Slugs

  type TeamId = nat
  type UserId = nat
  type InvitationId = nat
  type Time = int

  datatype Role = Owner | Admin | Member | Guest | Other(name: string)

  datatype Details = Details(name: string, description: string, visibility: string)

  /** The fields that an update gives. */
  datatype Changes = Changes(name: Option<string>, description: Option<string>, visibility: Option<string>)

  datatype Team = Team(owner: UserId, details: Details, slug: string, memberLimit: int, active: bool)

  datatype InvitationStatus = Pending | Accepted | Rejected | Revoked | Expired

  datatype Invitation = Invitation(
    team: TeamId, inviter: UserId, email: string, invitee: Option<UserId>, role: Role,
    token: string, status: InvitationStatus, expires: Time)

  /** `removed` counts the members that were removed from a team or left it. */
  datatype World = World(
    teams: map<TeamId, Team>,
    members: map<TeamId, map<UserId, Role>>,
    invitations: map<InvitationId, Invitation>,
    removed: map<TeamId, nat>)

  /** Lower-casing and trimming of strings, and the configuration. */
  datatype Config = Config(
    lower: string -> string, trim: string -> string, memberLimit: int, expiry: Time)
  {
    function Normalize(email: string): string {
      lower(trim(email))
    }

    /** Validate replaces limits that are not positive. */
    function MemberLimit(): (limit: int)
      ensures limit > 0
    {
      if memberLimit <= 0 then 5 else memberLimit
    }
  }

  datatype Error =
    | TeamNotFound | SlugAlreadyExists | MemberNotFound | AlreadyMember | MemberLimitExceeded
    | CannotChangeOwner | CannotRemoveOwner | OnlyOwnerCanDelete | OnlyOwnerCanTransfer
    | InsufficientPermission | InvalidRole
    | InvitationNotFound | InvitationExpired | InvitationAlreadyProcessed | InvitationAlreadyPending
    | InvitationNotForYou | CannotRevokeProcessed | StoreError

  datatype Outcome = Done | Refused(error: Error)

  // ---------- roles ----------

  datatype Permission = View | Invite | RemoveMember | UpdateRole | UpdateTeam | DeleteTeam

  predicate RoleCanAssign(r: Role, target: Role) {
    if r == Owner then target != Owner
    else r == Admin && target in {Admin, Member, Guest}
  }

  predicate RoleHasPermission(r: Role, p: Permission) {
    match p
    case View => true
    case DeleteTeam => r == Owner
    case _ => r == Owner || r == Admin
  }

  predicate IsValidInviteRole(r: Role) {
    r in [Admin, Member, Guest]
  }

  // ---------- queries ----------

  function MembersOf(w: World, t: TeamId): map<UserId, Role> {
    if t in w.members then w.members[t] else map[]
  }

  predicate IsMember(w: World, t: TeamId, u: UserId) {
    u in MembersOf(w, t)
  }

  /** The role of `u`, if the query finds it. */
  function RoleOf(w: World, t: TeamId, u: UserId): Option<Role> {
    if IsMember(w, t, u) then Some(MembersOf(w, t)[u]) else None
  }

  predicate Has(w: World, t: TeamId, u: UserId, p: Permission) {
    RoleOf(w, t, u).Some? && RoleHasPermission(RoleOf(w, t, u).value, p)
  }

  predicate ActiveTeam(w: World, t: TeamId) {
    t in w.teams && w.teams[t].active
  }

  predicate SlugTaken(w: World, owner: UserId, slug: string) {
    exists t :: t in w.teams && w.teams[t].active && w.teams[t].owner == owner && w.teams[t].slug == slug
  }

  predicate PendingFor(w: World, t: TeamId, email: string) {
    exists i :: i in w.invitations && w.invitations[i].team == t && w.invitations[i].email == email
      && w.invitations[i].status == Pending
  }

  predicate TokenUsed(w: World, token: string) {
    exists i :: i in w.invitations && w.invitations[i].token == token
  }

  // ---------- changes of the tables ----------

  function SetMember(w: World, t: TeamId, u: UserId, r: Role): World {
    w.(members := w.members[t := MembersOf(w, t)[u := r]])
  }

  function RemoveFrom(w: World, t: TeamId, u: UserId): World {
    w.(members := w.members[t := MembersOf(w, t) - {u}],
       removed := w.removed[t := (if t in w.removed then w.removed[t] else 0) + 1])
  }

  function SetStatus(w: World, i: InvitationId, s: InvitationStatus): World
    requires i in w.invitations
  {
    w.(invitations := w.invitations[i := w.invitations[i].(status := s)])
  }

  function CancelPending(w: World, t: TeamId): World {
    w.(invitations := map i | i in w.invitations ::
         if w.invitations[i].team == t && w.invitations[i].status == Pending
         then w.invitations[i].(status := Revoked)
         else w.invitations[i])
  }

  // ---------- the operations as functions ----------

  function NewTeam(cfg: Config, owner: UserId, d: Details): Team {
    Team(owner, if d.visibility == "" then d.(visibility := "private") else d, TeamSlug(cfg.lower(d.name)),
         cfg.MemberLimit(), true)
  }

  function CreateTeamSpec(w: World, cfg: Config, id: TeamId, owner: UserId, d: Details, ok: bool): (World, Outcome) {
    if SlugTaken(w, owner, TeamSlug(cfg.lower(d.name))) then (w, Refused(SlugAlreadyExists))
    else if !ok then (w, Refused(StoreError))
    else (SetMember(w.(teams := w.teams[id := NewTeam(cfg, owner, d)]), id, owner, Owner), Done)
  }

  function Or(change: Option<string>, current: string): string {
    if change.Some? then change.value else current
  }

  function Changed(cfg: Config, team: Team, ch: Changes): Team {
    team.(
      details := Details(Or(ch.name, team.details.name), Or(ch.description, team.details.description),
                         Or(ch.visibility, team.details.visibility)),
      slug := if ch.name.Some? then TeamSlug(cfg.lower(ch.name.value)) else team.slug)
  }

  function UpdateTeamSpec(w: World, cfg: Config, t: TeamId, requester: UserId, ch: Changes, ok: bool)
    : (World, Outcome)
  {
    if !Has(w, t, requester, UpdateTeam) then (w, Refused(InsufficientPermission))
    else if !ActiveTeam(w, t) then (w, Refused(TeamNotFound))
    else if !ok then (w, Refused(StoreError))
    else (w.(teams := w.teams[t := Changed(cfg, w.teams[t], ch)]), Done)
  }

  function DeleteTeamSpec(w: World, t: TeamId, requester: UserId, ok: bool): (World, Outcome) {
    if RoleOf(w, t, requester).None? then (w, Refused(InsufficientPermission))
    else if !Has(w, t, requester, DeleteTeam) then (w, Refused(OnlyOwnerCanDelete))
    else if !ok then (w, Refused(StoreError))
    else
      var w1 := CancelPending(w, t);
      (if t in w.teams then w1.(teams := w.teams[t := w.teams[t].(active := false)]) else w1, Done)
  }

  function UpdateRoleSpec(w: World, t: TeamId, target: UserId, requester: UserId, role: Role, ok: bool)
    : (World, Outcome)
  {
    if !Has(w, t, requester, UpdateRole) then (w, Refused(InsufficientPermission))
    else if !IsMember(w, t, target) then (w, Refused(MemberNotFound))
    else if RoleOf(w, t, target).value == Owner then (w, Refused(CannotChangeOwner))
    else if role == Owner then (w, Refused(OnlyOwnerCanTransfer))
    else if !RoleCanAssign(RoleOf(w, t, requester).value, role) then (w, Refused(InsufficientPermission))
    else if !ok then (w, Refused(StoreError))
    else (SetMember(w, t, target, role), Done)
  }

  function RemoveMemberSpec(w: World, t: TeamId, target: UserId, requester: UserId, ok: bool): (World, Outcome) {
    if !IsMember(w, t, target) then (w, Refused(MemberNotFound))
    else if RoleOf(w, t, target).value == Owner then (w, Refused(CannotRemoveOwner))
    else if target != requester && !Has(w, t, requester, RemoveMember) then (w, Refused(InsufficientPermission))
    else if !ok then (w, Refused(StoreError))
    else (RemoveFrom(w, t, target), Done)
  }

  function LeaveTeamSpec(w: World, t: TeamId, user: UserId, ok: bool): (World, Outcome) {
    RemoveMemberSpec(w, t, user, user, ok)
  }

  datatype Send = Send(
    team: TeamId, inviter: UserId, email: string, role: Role,
    user: Option<UserId>,     // whom the user lookup finds under the normalised email
    lookupOk: bool, id: InvitationId, token: string, now: Time, ok: bool)

  function SendRefusal(w: World, cfg: Config, s: Send): Option<Error> {
    if !Has(w, s.team, s.inviter, Invite) then Some(InsufficientPermission)
    else if !IsValidInviteRole(s.role) then Some(InvalidRole)
    else if !RoleCanAssign(RoleOf(w, s.team, s.inviter).value, s.role) then Some(InsufficientPermission)
    else if !ActiveTeam(w, s.team) then Some(TeamNotFound)
    else if |MembersOf(w, s.team)| >= w.teams[s.team].memberLimit then Some(MemberLimitExceeded)
    else if !s.lookupOk then Some(StoreError)
    else if s.user.Some? && IsMember(w, s.team, s.user.value) then Some(AlreadyMember)
    else if PendingFor(w, s.team, cfg.Normalize(s.email)) then Some(InvitationAlreadyPending)
    else if !s.ok || TokenUsed(w, s.token) then Some(StoreError)
    else None
  }

  function SendSpec(w: World, cfg: Config, s: Send): (World, Outcome) {
    var refusal := SendRefusal(w, cfg, s);
    if refusal.Some? then (w, Refused(refusal.value))
    else
      var invitation := Invitation(s.team, s.inviter, cfg.Normalize(s.email), s.user, s.role, s.token,
                                   Pending, s.now + cfg.expiry);
      (w.(invitations := w.invitations[s.id := invitation]), Done)
  }

  /** `found` is the answer of the query by token. */
  ghost predicate AnswersToken(w: World, token: string, found: Option<InvitationId>) {
    match found
    case Some(i) => i in w.invitations && w.invitations[i].token == token
    case None => !TokenUsed(w, token)
  }

  predicate MeantFor(cfg: Config, i: Invitation, email: string) {
    cfg.lower(i.email) == cfg.lower(email)
  }

  /** `markOk`: the write that marks an invitation as expired, whose failure is
      ignored, succeeds. */
  function AcceptSpec(w: World, cfg: Config, found: Option<InvitationId>, user: UserId, email: string, now: Time,
                      markOk: bool, ok: bool): (World, Outcome)
    requires found.Some? ==> found.value in w.invitations
  {
    if found.None? then (w, Refused(InvitationNotFound))
    else
      var i := w.invitations[found.value];
      if !MeantFor(cfg, i, email) then (w, Refused(InvitationNotForYou))
      else if i.status != Pending then (w, Refused(InvitationAlreadyProcessed))
      else if now > i.expires then
        (if markOk then SetStatus(w, found.value, Expired) else w, Refused(InvitationExpired))
      else if !ActiveTeam(w, i.team) then (w, Refused(TeamNotFound))
      else if |MembersOf(w, i.team)| >= w.teams[i.team].memberLimit then (w, Refused(MemberLimitExceeded))
      else if IsMember(w, i.team, user) || !ok then (w, Refused(StoreError))
      else (SetStatus(SetMember(w, i.team, user, i.role), found.value, Accepted), Done)
  }

  function RejectSpec(w: World, cfg: Config, found: Option<InvitationId>, email: string, ok: bool): (World, Outcome)
    requires found.Some? ==> found.value in w.invitations
  {
    if found.None? then (w, Refused(InvitationNotFound))
    else if !MeantFor(cfg, w.invitations[found.value], email) then (w, Refused(InvitationNotForYou))
    else if w.invitations[found.value].status != Pending then (w, Refused(InvitationAlreadyProcessed))
    else if !ok then (w, Refused(StoreError))
    else (SetStatus(w, found.value, Rejected), Done)
  }

  function RevokeSpec(w: World, id: InvitationId, requester: UserId, ok: bool): (World, Outcome) {
    if id !in w.invitations then (w, Refused(InvitationNotFound))
    else if !Has(w, w.invitations[id].team, requester, Invite) then (w, Refused(InsufficientPermission))
    else if w.invitations[id].status != Pending then (w, Refused(CannotRevokeProcessed))
    else if !ok then (w, Refused(StoreError))
    else (SetStatus(w, id, Revoked), Done)
  }
}
