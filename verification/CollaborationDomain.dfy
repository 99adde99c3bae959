/** The team, member and invitation operations on stores that are updated in place. */
module CollaborationDomain {
  import opened Options
  import opened Slugs
  import opened Collaboration
  import T = CollaborationTheorems
  import F = CollaborationFates
  import R = CollaborationRuns

  class Domain {
    var teams: map<TeamId, Team>
    var members: map<TeamId, map<UserId, Role>>
    var invitations: map<InvitationId, Invitation>
    ghost var removed: map<TeamId, nat>
    const cfg: Config

    ghost function View(): World
      reads this
    {
      World(teams, members, invitations, removed)
    }

    constructor (cfg: Config)
      ensures View() == World(map[], map[], map[], map[]) && this.cfg == cfg
    {
      teams, members, invitations, removed, this.cfg := map[], map[], map[], map[], cfg;
    }

    /** memberDB.Find */
    method FindMember(t: TeamId, u: UserId) returns (role: Option<Role>)
      ensures role == RoleOf(View(), t, u)
    {
      role := None;
      if t in members && u in members[t] {
        role := Some(members[t][u]);
      }
    }

    method CountMembers(t: TeamId) returns (n: nat)
      ensures n == |MembersOf(View(), t)|
    {
      n := if t in members then |members[t]| else 0;
    }

    method AddMember(t: TeamId, u: UserId, role: Role)
      modifies this`members
      ensures View() == SetMember(old(View()), t, u, role)
    {
      members := members[t := (if t in members then members[t] else map[])[u := role]];
    }

    /** memberDB.Remove */
    method DropMember(t: TeamId, u: UserId)
      modifies this`members, this`removed
      ensures View() == RemoveFrom(old(View()), t, u)
    {
      members := members[t := (if t in members then members[t] else map[]) - {u}];
      removed := removed[t := (if t in removed then removed[t] else 0) + 1];
    }

    method UpdateStatus(i: InvitationId, s: InvitationStatus)
      requires i in invitations
      modifies this`invitations
      ensures View() == SetStatus(old(View()), i, s)
    {
      invitations := invitations[i := invitations[i].(status := s)];
    }

    method CreateTeam(id: TeamId, owner: UserId, input: Details, ok: bool) returns (r: Outcome)
      modifies this
      ensures (View(), r) == CreateTeamSpec(old(View()), cfg, id, owner, input, ok)
      ensures r == Done <==> T.NoSuchSlug(old(View()), owner, TeamSlug(cfg.lower(input.name))) && ok
    {
      var slug := TeamSlug(cfg.lower(input.name));
      if exists t :: t in teams && teams[t].active && teams[t].owner == owner && teams[t].slug == slug {
        return Refused(SlugAlreadyExists);
      }
      var visibility := input.visibility;
      if visibility == "" {
        visibility := "private";
      }
      if !ok {
        return Refused(StoreError);
      }
      teams := teams[id := Team(owner, input.(visibility := visibility), slug, cfg.MemberLimit(), true)];
      AddMember(id, owner, Owner);
      r := Done;
    }

    method UpdateTeam(t: TeamId, requester: UserId, input: Changes, ok: bool) returns (r: Outcome)
      modifies this
      ensures (View(), r) == UpdateTeamSpec(old(View()), cfg, t, requester, input, ok)
      ensures r == Done <==> T.Manages(old(View()), t, requester) && t in old(teams) && old(teams)[t].active && ok
    {
      var role := FindMember(t, requester);
      if role.None? || !RoleHasPermission(role.value, Permission.UpdateTeam) {
        return Refused(InsufficientPermission);
      }
      if t !in teams || !teams[t].active {
        return Refused(TeamNotFound);
      }
      var team := teams[t];
      if input.name.Some? {
        team := team.(details := team.details.(name := input.name.value),
                      slug := TeamSlug(cfg.lower(input.name.value)));
      }
      if input.description.Some? {
        team := team.(details := team.details.(description := input.description.value));
      }
      if input.visibility.Some? {
        team := team.(details := team.details.(visibility := input.visibility.value));
      }
      if !ok {
        return Refused(StoreError);
      }
      teams := teams[t := team];
      r := Done;
    }

    method DeleteTeam(t: TeamId, requester: UserId, ok: bool) returns (r: Outcome)
      modifies this
      ensures (View(), r) == DeleteTeamSpec(old(View()), t, requester, ok)
      ensures r == Done <==> T.MemberAs(old(View()), t, requester, Owner) && ok
      ensures r == Done ==>
        && (t in teams ==> !teams[t].active)
        && (forall i :: i in invitations && invitations[i].team == t ==> invitations[i].status != Pending)
    {
      var role := FindMember(t, requester);
      if role.None? {
        return Refused(InsufficientPermission);
      }
      if !RoleHasPermission(role.value, Permission.DeleteTeam) {
        return Refused(OnlyOwnerCanDelete);
      }
      if !ok {
        return Refused(StoreError);
      }
      invitations := map i | i in invitations ::
        if invitations[i].team == t && invitations[i].status == Pending
        then invitations[i].(status := Revoked)
        else invitations[i];
      if t in teams {
        teams := teams[t := teams[t].(active := false)];
      }
      r := Done;
    }

    method UpdateMemberRole(t: TeamId, target: UserId, requester: UserId, newRole: Role, ok: bool)
      returns (r: Outcome)
      modifies this
      ensures (View(), r) == UpdateRoleSpec(old(View()), t, target, requester, newRole, ok)
      ensures r == Done <==>
        && IsMember(old(View()), t, target) && !T.MemberAs(old(View()), t, target, Owner) && newRole != Owner && ok
        && (T.MemberAs(old(View()), t, requester, Owner)
            || (T.MemberAs(old(View()), t, requester, Admin) && newRole in {Admin, Member, Guest}))
      ensures r == Done ==> T.MemberAs(View(), t, target, newRole)
    {
      var own := FindMember(t, requester);
      if own.None? || !RoleHasPermission(own.value, UpdateRole) {
        return Refused(InsufficientPermission);
      }
      var role := FindMember(t, target);
      if role.None? {
        return Refused(MemberNotFound);
      }
      if role.value == Owner {
        return Refused(CannotChangeOwner);
      }
      if newRole == Owner {
        return Refused(OnlyOwnerCanTransfer);
      }
      if !RoleCanAssign(own.value, newRole) {
        return Refused(InsufficientPermission);
      }
      if !ok {
        return Refused(StoreError);
      }
      AddMember(t, target, newRole);
      r := Done;
    }

    method RemoveMember(t: TeamId, target: UserId, requester: UserId, ok: bool) returns (r: Outcome)
      modifies this
      ensures (View(), r) == RemoveMemberSpec(old(View()), t, target, requester, ok)
      ensures r == Done <==>
        && IsMember(old(View()), t, target) && !T.MemberAs(old(View()), t, target, Owner) && ok
        && (target == requester || T.Manages(old(View()), t, requester))
      ensures r == Done ==> !IsMember(View(), t, target)
    {
      var role := FindMember(t, target);
      if role.None? {
        return Refused(MemberNotFound);
      }
      if role.value == Owner {
        return Refused(CannotRemoveOwner);
      }
      if target != requester {
        var own := FindMember(t, requester);
        if own.None? || !RoleHasPermission(own.value, Permission.RemoveMember) {
          return Refused(InsufficientPermission);
        }
      }
      if !ok {
        return Refused(StoreError);
      }
      DropMember(t, target);
      r := Done;
    }

    method LeaveTeam(t: TeamId, user: UserId, ok: bool) returns (r: Outcome)
      modifies this
      ensures (View(), r) == LeaveTeamSpec(old(View()), t, user, ok)
      ensures r == Done <==> IsMember(old(View()), t, user) && !T.MemberAs(old(View()), t, user, Owner) && ok
      ensures r == Done ==> !IsMember(View(), t, user)
    {
      var role := FindMember(t, user);
      if role.None? {
        return Refused(MemberNotFound);
      }
      if role.value == Owner {
        return Refused(CannotRemoveOwner);
      }
      if !ok {
        return Refused(StoreError);
      }
      DropMember(t, user);
      r := Done;
    }

    /** The checks before anything about the invitee is looked up. */
    method CheckInviter(t: TeamId, inviter: UserId, role: Role) returns (refusal: Option<Error>)
      ensures refusal.Some? <==>
        !Has(View(), t, inviter, Invite) || !IsValidInviteRole(role)
        || !RoleCanAssign(RoleOf(View(), t, inviter).value, role) || !ActiveTeam(View(), t)
        || |MembersOf(View(), t)| >= teams[t].memberLimit
      ensures refusal.Some? ==>
        refusal.value ==
          if !Has(View(), t, inviter, Invite) then InsufficientPermission
          else if !IsValidInviteRole(role) then InvalidRole
          else if !RoleCanAssign(RoleOf(View(), t, inviter).value, role) then InsufficientPermission
          else if !ActiveTeam(View(), t) then TeamNotFound
          else MemberLimitExceeded
    {
      var own := FindMember(t, inviter);
      if own.None? || !RoleHasPermission(own.value, Invite) {
        return Some(InsufficientPermission);
      }
      if !IsValidInviteRole(role) {
        return Some(InvalidRole);
      }
      if !RoleCanAssign(own.value, role) {
        return Some(InsufficientPermission);
      }
      if t !in teams || !teams[t].active {
        return Some(TeamNotFound);
      }
      var count := CountMembers(t);
      if count >= teams[t].memberLimit {
        return Some(MemberLimitExceeded);
      }
      refusal := None;
    }

    method SendInvitation(s: Send) returns (r: Outcome)
      modifies this
      ensures (View(), r) == SendSpec(old(View()), cfg, s)
      ensures r == Done <==> F.Sends(old(View()), cfg, R.SendInvitation(s), s.id)
    {
      var refusal := CheckInviter(s.team, s.inviter, s.role);
      if refusal.Some? {
        return Refused(refusal.value);
      }
      var email := cfg.lower(cfg.trim(s.email));
      if !s.lookupOk {
        return Refused(StoreError);
      }
      if s.user.Some? {
        var role := FindMember(s.team, s.user.value);
        if role.Some? {
          return Refused(AlreadyMember);
        }
      }
      if exists i :: i in invitations && invitations[i].team == s.team && invitations[i].email == email
          && invitations[i].status == Pending {
        return Refused(InvitationAlreadyPending);
      }
      if !s.ok || exists i :: i in invitations && invitations[i].token == s.token {
        return Refused(StoreError);
      }
      invitations := invitations[s.id :=
        Invitation(s.team, s.inviter, email, s.user, s.role, s.token, Pending, s.now + cfg.expiry)];
      r := Done;
    }

    method AcceptInvitation(found: Option<InvitationId>, user: UserId, email: string, now: Time,
                            markOk: bool, ok: bool) returns (r: Outcome)
      requires found.Some? ==> found.value in invitations
      modifies this
      ensures (View(), r) == AcceptSpec(old(View()), cfg, found, user, email, now, markOk, ok)
      ensures r == Refused(InvitationNotFound) <==> found.None?
      ensures r == Done <==>
        && found.Some? && F.ForCaller(old(View()), cfg, found.value, email)
        && now <= old(invitations)[found.value].expires && T.HasRoom(old(View()), old(invitations)[found.value].team)
        && !IsMember(old(View()), old(invitations)[found.value].team, user) && ok
      ensures r == Refused(InvitationExpired) <==>
        found.Some? && F.ForCaller(old(View()), cfg, found.value, email) && now > old(invitations)[found.value].expires
    {
      if found.None? {
        return Refused(InvitationNotFound);
      }
      var i := invitations[found.value];
      if cfg.lower(i.email) != cfg.lower(email) {
        return Refused(InvitationNotForYou);
      }
      if i.status != Pending {
        return Refused(InvitationAlreadyProcessed);
      }
      if now > i.expires {
        if markOk {
          UpdateStatus(found.value, Expired);
        }
        return Refused(InvitationExpired);
      }
      if i.team !in teams || !teams[i.team].active {
        return Refused(TeamNotFound);
      }
      var count := CountMembers(i.team);
      if count >= teams[i.team].memberLimit {
        return Refused(MemberLimitExceeded);
      }
      var already := FindMember(i.team, user);
      if already.Some? || !ok {
        return Refused(StoreError);
      }
      AddMember(i.team, user, i.role);
      UpdateStatus(found.value, Accepted);
      r := Done;
    }

    method RejectInvitation(found: Option<InvitationId>, email: string, ok: bool) returns (r: Outcome)
      requires found.Some? ==> found.value in invitations
      modifies this
      ensures (View(), r) == RejectSpec(old(View()), cfg, found, email, ok)
      ensures r == Done <==> found.Some? && F.ForCaller(old(View()), cfg, found.value, email) && ok
    {
      if found.None? {
        return Refused(InvitationNotFound);
      }
      if cfg.lower(invitations[found.value].email) != cfg.lower(email) {
        return Refused(InvitationNotForYou);
      }
      if invitations[found.value].status != Pending {
        return Refused(InvitationAlreadyProcessed);
      }
      if !ok {
        return Refused(StoreError);
      }
      UpdateStatus(found.value, Rejected);
      r := Done;
    }

    method RevokeInvitation(id: InvitationId, requester: UserId, ok: bool) returns (r: Outcome)
      modifies this
      ensures (View(), r) == RevokeSpec(old(View()), id, requester, ok)
      ensures r == Done <==>
        && id in old(invitations) && old(invitations)[id].status == Pending
        && T.Manages(old(View()), old(invitations)[id].team, requester) && ok
    {
      if id !in invitations {
        return Refused(InvitationNotFound);
      }
      var role := FindMember(invitations[id].team, requester);
      if role.None? || !RoleHasPermission(role.value, Invite) {
        return Refused(InsufficientPermission);
      }
      if invitations[id].status != Pending {
        return Refused(CannotRevokeProcessed);
      }
      if !ok {
        return Refused(StoreError);
      }
      UpdateStatus(id, Revoked);
      r := Done;
    }
  }
}
