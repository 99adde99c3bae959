/** Teams and invitations over whole runs. */
module CollaborationRuns {
  import opened Options
  import opened Slugs
  import opened Collaboration

  datatype Event =
    | Create(id: TeamId, owner: UserId, input: Details, ok: bool)
    | Update(team: TeamId, requester: UserId, changes: Changes, ok: bool)
    | Delete(team: TeamId, requester: UserId, ok: bool)
    | ChangeRole(team: TeamId, target: UserId, requester: UserId, role: Role, ok: bool)
    | Remove(team: TeamId, target: UserId, requester: UserId, ok: bool)
    | Leave(team: TeamId, user: UserId, ok: bool)
    | SendInvitation(send: Send)
    | Accept(token: string, found: Option<InvitationId>, user: UserId, email: string, now: Time,
             markOk: bool, ok: bool)
    | Reject(token: string, found: Option<InvitationId>, email: string, ok: bool)
    | Revoke(invitation: InvitationId, requester: UserId, ok: bool)

  /** New IDs are fresh, and the query by token answers truthfully. */
  ghost predicate Enabled(w: World, e: Event) {
    match e
    case Create(id, _, _, _) => id !in w.teams
    case SendInvitation(s) => s.id !in w.invitations
    case Accept(token, found, _, _, _, _, _) => AnswersToken(w, token, found)
    case Reject(token, found, _, _) => AnswersToken(w, token, found)
    case _ => true
  }

  ghost function Next(w: World, cfg: Config, e: Event): World
    requires Enabled(w, e)
  {
    match e
    case Create(id, owner, input, ok) => CreateTeamSpec(w, cfg, id, owner, input, ok).0
    case Update(t, requester, changes, ok) => UpdateTeamSpec(w, cfg, t, requester, changes, ok).0
    case Delete(t, requester, ok) => DeleteTeamSpec(w, t, requester, ok).0
    case ChangeRole(t, target, requester, role, ok) => UpdateRoleSpec(w, t, target, requester, role, ok).0
    case Remove(t, target, requester, ok) => RemoveMemberSpec(w, t, target, requester, ok).0
    case Leave(t, user, ok) => LeaveTeamSpec(w, t, user, ok).0
    case SendInvitation(s) => SendSpec(w, cfg, s).0
    case Accept(_, found, user, email, now, markOk, ok) => AcceptSpec(w, cfg, found, user, email, now, markOk, ok).0
    case Reject(_, found, email, ok) => RejectSpec(w, cfg, found, email, ok).0
    case Revoke(i, requester, ok) => RevokeSpec(w, i, requester, ok).0
  }

  ghost predicate Legal(w: World, cfg: Config, es: seq<Event>)
    decreases |es|
  {
    es == [] || (Enabled(w, es[0]) && Legal(Next(w, cfg, es[0]), cfg, es[1..]))
  }

  ghost function Run(w: World, cfg: Config, es: seq<Event>): World
    requires Legal(w, cfg, es)
    decreases |es|
  {
    if es == [] then w else Run(Next(w, cfg, es[0]), cfg, es[1..])
  }

  /** The state after `k` events. */
  ghost function StateAt(w: World, cfg: Config, es: seq<Event>, k: nat): (s: World)
    requires Legal(w, cfg, es) && k <= |es|
    ensures k < |es| ==> Enabled(s, es[k])
    decreases k
  {
    if k == 0 then w else StateAt(Next(w, cfg, es[0]), cfg, es[1..], k - 1)
  }

  lemma StateShifted(w: World, cfg: Config, es: seq<Event>, k: nat)
    requires Legal(w, cfg, es) && k < |es|
    ensures StateAt(w, cfg, es, k + 1) == StateAt(Next(w, cfg, es[0]), cfg, es[1..], k)
    ensures k < |es| - 1 ==> es[k + 1] == es[1..][k]
  {
  }

  const EMPTY := World(map[], map[], map[], map[])

  // ---------- the invariant ----------

  /** One member is the owner, namely the team's OwnerID. */
  ghost predicate OneOwner(team: Team, members: map<UserId, Role>) {
    forall u: UserId :: (u in members && members[u] == Owner) <==> u == team.owner
  }

  ghost predicate TeamOk(w: World, t: TeamId)
    requires t in w.teams
  {
    OneOwner(w.teams[t], MembersOf(w, t)) && |MembersOf(w, t)| <= w.teams[t].memberLimit
  }

  ghost predicate TeamsInv(w: World) {
    && (forall t :: t in w.teams ==> TeamOk(w, t))
    && (forall t :: t in w.members || t in w.removed ==> t in w.teams)
  }

  function AcceptedOf(w: World, t: TeamId): set<InvitationId> {
    set i | i in w.invitations && w.invitations[i].team == t && w.invitations[i].status == Accepted
  }

  function RemovedFrom(w: World, t: TeamId): nat {
    if t in w.removed then w.removed[t] else 0
  }

  predicate CountOk(w: World, t: TeamId) {
    |MembersOf(w, t)| + RemovedFrom(w, t) == 1 + |AcceptedOf(w, t)|
  }

  ghost predicate CountsInv(w: World) {
    forall t :: t in w.teams ==> CountOk(w, t)
  }

  predicate InvitationOk(w: World, i: Invitation) {
    i.team in w.teams && IsValidInviteRole(i.role) && (i.status == Pending ==> w.teams[i.team].active)
  }

  ghost predicate InvitationsInv(w: World) {
    forall i :: i in w.invitations ==> InvitationOk(w, w.invitations[i])
  }

  ghost predicate TokensInv(w: World) {
    forall i, j :: i in w.invitations && j in w.invitations && w.invitations[i].token == w.invitations[j].token ==>
      i == j
  }

  /** A pending invitation of `t` to `email`. */
  predicate Waiting(w: World, i: InvitationId, t: TeamId, email: string) {
    && i in w.invitations && w.invitations[i].team == t && w.invitations[i].email == email
    && w.invitations[i].status == Pending
  }

  ghost predicate PendingInv(w: World) {
    forall i, j, t, email :: Waiting(w, i, t, email) && Waiting(w, j, t, email) ==> i == j
  }

  ghost predicate Inv(w: World) {
    TeamsInv(w) && CountsInv(w) && InvitationsInv(w) && TokensInv(w) && PendingInv(w)
  }

  // ---------- changes of one team ----------

  /** Other teams keep their rows, members and removals. */
  ghost predicate OnlyTeam(w: World, w': World, t: TeamId) {
    && t in w'.teams
    && forall s :: s != t ==>
         && (s in w'.teams <==> s in w.teams)
         && (s in w.teams ==> w'.teams[s] == w.teams[s])
         && (s in w'.members ==> s in w.members)
         && (s in w'.removed ==> s in w.removed)
         && MembersOf(w', s) == MembersOf(w, s)
         && RemovedFrom(w', s) == RemovedFrom(w, s)
  }

  lemma TeamsChange(w: World, w': World, t: TeamId)
    requires TeamsInv(w) && OnlyTeam(w, w', t) && TeamOk(w', t)
    ensures TeamsInv(w')
  {
    forall s | s in w'.teams ensures TeamOk(w', s) {
      assert s != t ==> TeamOk(w, s);
    }
  }

  lemma CountsChange(w: World, w': World, t: TeamId)
    requires CountsInv(w) && OnlyTeam(w, w', t) && CountOk(w', t)
    requires forall s :: s != t ==> AcceptedOf(w', s) == AcceptedOf(w, s)
    ensures CountsInv(w')
  {
    forall s | s in w'.teams ensures CountOk(w', s) {
      assert s != t ==> CountOk(w, s);
    }
  }

  /** Nothing about invitations changes if neither they nor the teams do. */
  lemma SameInvitations(w: World, w': World)
    requires w'.invitations == w.invitations
    requires forall t :: t in w.teams ==> t in w'.teams && w'.teams[t].active == w.teams[t].active
    requires InvitationsInv(w) && TokensInv(w) && PendingInv(w)
    ensures InvitationsInv(w') && TokensInv(w') && PendingInv(w')
    ensures forall t :: AcceptedOf(w', t) == AcceptedOf(w, t)
  {
    forall i | i in w'.invitations ensures InvitationOk(w', w'.invitations[i]) {
      assert InvitationOk(w, w.invitations[i]);
    }
    forall i, j, t, email | Waiting(w', i, t, email) && Waiting(w', j, t, email) ensures i == j {
      assert Waiting(w, i, t, email) && Waiting(w, j, t, email);
    }
  }

  lemma SizeOfKeys<K, V>(m: map<K, V>)
    ensures |m| == |m.Keys|
  {
  }

  lemma SizeOfUpdate<K, V>(m: map<K, V>, k: K, v: V)
    ensures |m[k := v]| == |m| + if k in m then 0 else 1
  {
    assert m[k := v].Keys == m.Keys + {k};
    SizeOfKeys(m);
    SizeOfKeys(m[k := v]);
    if k in m { assert m.Keys + {k} == m.Keys; }
  }

  lemma SizeOfRemoval<K, V>(m: map<K, V>, k: K)
    requires k in m
    ensures |m - {k}| == |m| - 1
  {
    assert (m - {k}).Keys == m.Keys - {k};
    SizeOfKeys(m);
    SizeOfKeys(m - {k});
  }

  lemma MemberHasTeam(w: World, t: TeamId, u: UserId)
    requires TeamsInv(w) && IsMember(w, t, u)
    ensures t in w.teams && (RoleOf(w, t, u) == Some(Owner) <==> u == w.teams[t].owner)
  {
    assert t in w.members && TeamOk(w, t);
  }

  lemma SetMemberAlone(w: World, t: TeamId, u: UserId, r: Role)
    requires t in w.teams
    ensures OnlyTeam(w, SetMember(w, t, u, r), t) && MembersOf(SetMember(w, t, u, r), t) == MembersOf(w, t)[u := r]
  {
  }

  lemma RemoveFromAlone(w: World, t: TeamId, u: UserId)
    requires t in w.teams
    ensures var w' := RemoveFrom(w, t, u); OnlyTeam(w, w', t) && MembersOf(w', t) == MembersOf(w, t) - {u}
  {
  }

  lemma SetMemberOk(w: World, t: TeamId, u: UserId, r: Role)
    requires TeamsInv(w) && t in w.teams && r != Owner && u != w.teams[t].owner
    requires u in MembersOf(w, t) || |MembersOf(w, t)| < w.teams[t].memberLimit
    ensures var w' := SetMember(w, t, u, r);
      && OnlyTeam(w, w', t) && TeamOk(w', t)
      && |MembersOf(w', t)| == |MembersOf(w, t)| + if u in MembersOf(w, t) then 0 else 1
  {
    assert TeamOk(w, t);
    SetMemberAlone(w, t, u, r);
    SizeOfUpdate(MembersOf(w, t), u, r);
  }

  lemma ChangeRoleInv(w: World, t: TeamId, target: UserId, requester: UserId, role: Role, ok: bool)
    requires Inv(w)
    ensures Inv(UpdateRoleSpec(w, t, target, requester, role, ok).0)
  {
    if UpdateRoleSpec(w, t, target, requester, role, ok).1 == Done {
      var w' := SetMember(w, t, target, role);
      MemberHasTeam(w, t, target);
      SetMemberOk(w, t, target, role);
      TeamsChange(w, w', t);
      SameInvitations(w, w');
      assert CountOk(w, t);
      CountsChange(w, w', t);
    }
  }

  lemma RemoveFromOk(w: World, t: TeamId, u: UserId)
    requires TeamsInv(w) && CountOk(w, t) && t in w.teams && u in MembersOf(w, t) && u != w.teams[t].owner
    ensures var w' := RemoveFrom(w, t, u);
      && OnlyTeam(w, w', t) && TeamOk(w', t) && AcceptedOf(w', t) == AcceptedOf(w, t) && CountOk(w', t)
  {
    assert TeamOk(w, t);
    RemoveFromAlone(w, t, u);
    SizeOfRemoval(MembersOf(w, t), u);
  }

  lemma RemovedInv(w: World, t: TeamId, u: UserId)
    requires Inv(w) && t in w.teams && u in MembersOf(w, t) && u != w.teams[t].owner
    ensures Inv(RemoveFrom(w, t, u))
  {
    var w' := RemoveFrom(w, t, u);
    assert CountOk(w, t);
    RemoveFromOk(w, t, u);
    TeamsChange(w, w', t);
    SameInvitations(w, w');
    CountsChange(w, w', t);
  }

  lemma RemoveInv(w: World, t: TeamId, target: UserId, requester: UserId, ok: bool)
    requires Inv(w)
    ensures Inv(RemoveMemberSpec(w, t, target, requester, ok).0)
  {
    if RemoveMemberSpec(w, t, target, requester, ok).1 == Done {
      MemberHasTeam(w, t, target);
      RemovedInv(w, t, target);
    }
  }

  lemma CreatedAlone(w: World, id: TeamId, team: Team)
    ensures OnlyTeam(w, SetMember(w.(teams := w.teams[id := team]), id, team.owner, Owner), id)
  {
  }

  lemma CreatedTeam(w: World, id: TeamId, team: Team)
    requires TeamsInv(w) && id !in w.teams && team.memberLimit > 0
    ensures var w' := SetMember(w.(teams := w.teams[id := team]), id, team.owner, Owner);
      MembersOf(w', id) == map[team.owner := Owner] && TeamOk(w', id)
  {
    assert id !in w.members;
    var none: map<UserId, Role> := map[];
    SizeOfUpdate(none, team.owner, Owner);
  }

  lemma CreatedOk(w: World, id: TeamId, team: Team)
    requires TeamsInv(w) && InvitationsInv(w) && id !in w.teams && team.memberLimit > 0
    ensures var w' := SetMember(w.(teams := w.teams[id := team]), id, team.owner, Owner);
      OnlyTeam(w, w', id) && TeamOk(w', id) && AcceptedOf(w', id) == AcceptedOf(w, id) && CountOk(w', id)
  {
    CreatedAlone(w, id, team);
    CreatedTeam(w, id, team);
    assert id !in w.removed;
    assert AcceptedOf(w, id) == {};
  }

  lemma CreatedInv(w: World, id: TeamId, team: Team)
    requires Inv(w) && id !in w.teams && team.memberLimit > 0
    ensures Inv(SetMember(w.(teams := w.teams[id := team]), id, team.owner, Owner))
  {
    var w' := SetMember(w.(teams := w.teams[id := team]), id, team.owner, Owner);
    CreatedOk(w, id, team);
    TeamsChange(w, w', id);
    SameInvitations(w, w');
    CountsChange(w, w', id);
  }

  lemma CreateInv(w: World, cfg: Config, id: TeamId, owner: UserId, d: Details, ok: bool)
    requires Inv(w) && id !in w.teams
    ensures Inv(CreateTeamSpec(w, cfg, id, owner, d, ok).0)
  {
    CreatedInv(w, id, NewTeam(cfg, owner, d));
  }

  predicate SameMembership(team: Team, team': Team) {
    team'.owner == team.owner && team'.memberLimit == team.memberLimit
  }

  lemma RowTeams(w: World, t: TeamId, team: Team)
    requires TeamsInv(w) && t in w.teams && SameMembership(w.teams[t], team)
    ensures var w' := w.(teams := w.teams[t := team]); OnlyTeam(w, w', t) && TeamsInv(w')
  {
    var w' := w.(teams := w.teams[t := team]);
    assert TeamOk(w, t);
    TeamsChange(w, w', t);
  }

  /** A team's row gets other details and another slug, or becomes inactive. */
  lemma RowOk(w: World, t: TeamId, team: Team)
    requires TeamsInv(w) && CountsInv(w) && t in w.teams && SameMembership(w.teams[t], team)
    ensures var w' := w.(teams := w.teams[t := team]); TeamsInv(w') && CountsInv(w')
  {
    var w' := w.(teams := w.teams[t := team]);
    RowTeams(w, t, team);
    assert CountOk(w, t);
    CountsChange(w, w', t);
  }

  lemma UpdateInv(w: World, cfg: Config, t: TeamId, requester: UserId, ch: Changes, ok: bool)
    requires Inv(w)
    ensures Inv(UpdateTeamSpec(w, cfg, t, requester, ch, ok).0)
  {
    if UpdateTeamSpec(w, cfg, t, requester, ch, ok).1 == Done {
      var team := Changed(cfg, w.teams[t], ch);
      RowOk(w, t, team);
      SameInvitations(w, w.(teams := w.teams[t := team]));
    }
  }

  lemma CancelKeepsTeams(w: World, t: TeamId)
    requires TeamsInv(w) && CountsInv(w)
    ensures TeamsInv(CancelPending(w, t)) && CountsInv(CancelPending(w, t))
  {
    var w' := CancelPending(w, t);
    forall s | s in w'.teams ensures TeamOk(w', s) && CountOk(w', s) {
      assert TeamOk(w, s) && CountOk(w, s);
      assert AcceptedOf(w', s) == AcceptedOf(w, s);
    }
  }

  lemma DeletedInvitations(w: World, t: TeamId)
    requires InvitationsInv(w) && TokensInv(w) && PendingInv(w) && t in w.teams
    ensures var w1 := CancelPending(w, t); var w' := w1.(teams := w.teams[t := w.teams[t].(active := false)]);
      InvitationsInv(w') && TokensInv(w') && PendingInv(w')
  {
    var w1 := CancelPending(w, t);
    var w' := w1.(teams := w.teams[t := w.teams[t].(active := false)]);
    forall i | i in w'.invitations ensures InvitationOk(w', w'.invitations[i]) {
      assert InvitationOk(w, w.invitations[i]);
    }
    forall i, j, s, email | Waiting(w', i, s, email) && Waiting(w', j, s, email) ensures i == j {
      assert Waiting(w, i, s, email) && Waiting(w, j, s, email);
    }
  }

  lemma DeleteInv(w: World, t: TeamId, requester: UserId, ok: bool)
    requires Inv(w)
    ensures Inv(DeleteTeamSpec(w, t, requester, ok).0)
  {
    if DeleteTeamSpec(w, t, requester, ok).1 == Done {
      MemberHasTeam(w, t, requester);
      CancelKeepsTeams(w, t);
      RowOk(CancelPending(w, t), t, w.teams[t].(active := false));
      DeletedInvitations(w, t);
    }
  }

  // ---------- changes of invitations ----------

  /** The tables of teams and members are left alone. */
  lemma SameTeams(w: World, w': World)
    requires TeamsInv(w) && w'.teams == w.teams && w'.members == w.members && w'.removed == w.removed
    ensures TeamsInv(w')
  {
    forall t | t in w'.teams ensures TeamOk(w', t) {
      assert TeamOk(w, t);
    }
  }

  lemma SameCounts(w: World, w': World)
    requires CountsInv(w) && w'.teams == w.teams && w'.members == w.members && w'.removed == w.removed
    requires forall t :: AcceptedOf(w', t) == AcceptedOf(w, t)
    ensures CountsInv(w')
  {
    forall t | t in w'.teams ensures CountOk(w', t) {
      assert CountOk(w, t);
    }
  }

  lemma NewInvitation(w: World, id: InvitationId, n: Invitation)
    requires id !in w.invitations && n.status == Pending && InvitationOk(w, n)
    requires InvitationsInv(w) && TokensInv(w) && PendingInv(w)
    requires !TokenUsed(w, n.token) && !PendingFor(w, n.team, n.email)
    ensures var w' := w.(invitations := w.invitations[id := n]);
      && InvitationsInv(w') && TokensInv(w') && PendingInv(w')
      && forall t :: AcceptedOf(w', t) == AcceptedOf(w, t)
  {
    var w' := w.(invitations := w.invitations[id := n]);
    forall i | i in w'.invitations ensures InvitationOk(w', w'.invitations[i]) {
      assert i != id ==> InvitationOk(w, w.invitations[i]);
    }
    forall i, j, t, email | Waiting(w', i, t, email) && Waiting(w', j, t, email) ensures i == j {
      assert i != id ==> Waiting(w, i, t, email);
      assert j != id ==> Waiting(w, j, t, email);
    }
  }

  function Sent(cfg: Config, s: Send): Invitation {
    Invitation(s.team, s.inviter, cfg.Normalize(s.email), s.user, s.role, s.token, Pending, s.now + cfg.expiry)
  }

  lemma SendOk(w: World, cfg: Config, s: Send)
    requires SendRefusal(w, cfg, s).None?
    ensures var n := Sent(cfg, s);
      && InvitationOk(w, n) && !TokenUsed(w, n.token) && !PendingFor(w, n.team, n.email)
      && SendSpec(w, cfg, s).0 == w.(invitations := w.invitations[s.id := n])
  {
  }

  lemma AddInvitationInv(w: World, id: InvitationId, n: Invitation)
    requires Inv(w) && id !in w.invitations && n.status == Pending && InvitationOk(w, n)
    requires !TokenUsed(w, n.token) && !PendingFor(w, n.team, n.email)
    ensures Inv(w.(invitations := w.invitations[id := n]))
  {
    var w' := w.(invitations := w.invitations[id := n]);
    NewInvitation(w, id, n);
    SameTeams(w, w');
    SameCounts(w, w');
  }

  lemma SendInv(w: World, cfg: Config, s: Send)
    requires Inv(w) && s.id !in w.invitations
    ensures Inv(SendSpec(w, cfg, s).0)
  {
    if SendRefusal(w, cfg, s).None? {
      SendOk(w, cfg, s);
      AddInvitationInv(w, s.id, Sent(cfg, s));
    } else {
      assert SendSpec(w, cfg, s).0 == w;
    }
  }

  /** A pending invitation gets another status. */
  lemma SetStatusInv(w: World, i: InvitationId, s: InvitationStatus)
    requires InvitationsInv(w) && TokensInv(w) && PendingInv(w) && s != Pending
    requires i in w.invitations && w.invitations[i].status == Pending
    ensures var w' := SetStatus(w, i, s); InvitationsInv(w') && TokensInv(w') && PendingInv(w')
  {
    var w' := SetStatus(w, i, s);
    forall j | j in w'.invitations ensures InvitationOk(w', w'.invitations[j]) {
      assert InvitationOk(w, w.invitations[j]);
    }
    forall j, k, t, email | Waiting(w', j, t, email) && Waiting(w', k, t, email) ensures j == k {
      assert Waiting(w, j, t, email) && Waiting(w, k, t, email);
    }
  }

  lemma ClosedAccepted(w: World, i: InvitationId, s: InvitationStatus)
    requires i in w.invitations && w.invitations[i].status == Pending && s != Accepted
    ensures forall t :: AcceptedOf(SetStatus(w, i, s), t) == AcceptedOf(w, t)
  {
  }

  lemma CloseInv(w: World, i: InvitationId, s: InvitationStatus)
    requires Inv(w) && i in w.invitations && w.invitations[i].status == Pending && s != Pending && s != Accepted
    ensures Inv(SetStatus(w, i, s))
  {
    var w' := SetStatus(w, i, s);
    SetStatusInv(w, i, s);
    SameTeams(w, w');
    ClosedAccepted(w, i, s);
    SameCounts(w, w');
  }

  lemma AcceptedGrows(w: World, w': World, i: InvitationId)
    requires i in w.invitations && w.invitations[i].status == Pending
    requires w'.invitations == SetStatus(w, i, Accepted).invitations
    ensures forall t :: t != w.invitations[i].team ==> AcceptedOf(w', t) == AcceptedOf(w, t)
    ensures |AcceptedOf(w', w.invitations[i].team)| == |AcceptedOf(w, w.invitations[i].team)| + 1
  {
    var t := w.invitations[i].team;
    assert AcceptedOf(w', t) == AcceptedOf(w, t) + {i} && i !in AcceptedOf(w, t);
  }

  function Joined(w: World, i: InvitationId, u: UserId): World
    requires i in w.invitations
  {
    SetStatus(SetMember(w, w.invitations[i].team, u, w.invitations[i].role), i, Accepted)
  }

  predicate CanJoin(w: World, i: InvitationId, u: UserId) {
    && i in w.invitations && w.invitations[i].status == Pending
    && var t := w.invitations[i].team;
       t in w.teams && !IsMember(w, t, u) && |MembersOf(w, t)| < w.teams[t].memberLimit
  }

  lemma JoinTeams(w: World, i: InvitationId, u: UserId)
    requires TeamsInv(w) && InvitationsInv(w) && CanJoin(w, i, u)
    ensures var t := w.invitations[i].team; var w' := Joined(w, i, u);
      TeamsInv(w') && OnlyTeam(w, w', t) && |MembersOf(w', t)| == |MembersOf(w, t)| + 1
  {
    var t, role := w.invitations[i].team, w.invitations[i].role;
    assert InvitationOk(w, w.invitations[i]) && TeamOk(w, t);
    SetMemberOk(w, t, u, role);
    TeamsChange(w, SetMember(w, t, u, role), t);
    SameTeams(SetMember(w, t, u, role), Joined(w, i, u));
  }

  lemma JoinCounts(w: World, i: InvitationId, u: UserId)
    requires TeamsInv(w) && InvitationsInv(w) && CountsInv(w) && CanJoin(w, i, u)
    ensures CountsInv(Joined(w, i, u))
  {
    var t, w' := w.invitations[i].team, Joined(w, i, u);
    assert CountOk(w, t);
    JoinTeams(w, i, u);
    AcceptedGrows(w, w', i);
    CountsChange(w, w', t);
  }

  lemma JoinInv(w: World, i: InvitationId, u: UserId)
    requires Inv(w) && CanJoin(w, i, u)
    ensures Inv(Joined(w, i, u))
  {
    var w1 := SetMember(w, w.invitations[i].team, u, w.invitations[i].role);
    JoinTeams(w, i, u);
    JoinCounts(w, i, u);
    SameInvitations(w, w1);
    SetStatusInv(w1, i, Accepted);
  }

  lemma AcceptCases(w: World, cfg: Config, found: Option<InvitationId>, user: UserId, email: string, now: Time,
                    markOk: bool, ok: bool)
    requires found.Some? ==> found.value in w.invitations
    ensures var w' := AcceptSpec(w, cfg, found, user, email, now, markOk, ok).0;
      || w' == w
      || (found.Some? && w.invitations[found.value].status == Pending && w' == SetStatus(w, found.value, Expired))
      || (found.Some? && CanJoin(w, found.value, user) && w' == Joined(w, found.value, user))
  {
  }

  lemma AcceptInv(w: World, cfg: Config, found: Option<InvitationId>, user: UserId, email: string, now: Time,
                  markOk: bool, ok: bool)
    requires Inv(w) && (found.Some? ==> found.value in w.invitations)
    ensures Inv(AcceptSpec(w, cfg, found, user, email, now, markOk, ok).0)
  {
    AcceptCases(w, cfg, found, user, email, now, markOk, ok);
    if found.Some? && w.invitations[found.value].status == Pending {
      CloseInv(w, found.value, Expired);
      if CanJoin(w, found.value, user) {
        JoinInv(w, found.value, user);
      }
    }
  }

  lemma RejectInv(w: World, cfg: Config, found: Option<InvitationId>, email: string, ok: bool)
    requires Inv(w) && (found.Some? ==> found.value in w.invitations)
    ensures Inv(RejectSpec(w, cfg, found, email, ok).0)
  {
    if RejectSpec(w, cfg, found, email, ok).1 == Done {
      CloseInv(w, found.value, Rejected);
    } else {
      assert RejectSpec(w, cfg, found, email, ok).0 == w;
    }
  }

  lemma RevokeInv(w: World, i: InvitationId, requester: UserId, ok: bool)
    requires Inv(w)
    ensures Inv(RevokeSpec(w, i, requester, ok).0)
  {
    if RevokeSpec(w, i, requester, ok).1 == Done {
      CloseInv(w, i, Revoked);
    } else {
      assert RevokeSpec(w, i, requester, ok).0 == w;
    }
  }

  lemma InvStep(w: World, cfg: Config, e: Event)
    requires Inv(w) && Enabled(w, e)
    ensures Inv(Next(w, cfg, e))
  {
    match e
    case Create(id, owner, input, ok) => CreateInv(w, cfg, id, owner, input, ok);
    case Update(t, requester, changes, ok) => UpdateInv(w, cfg, t, requester, changes, ok);
    case Delete(t, requester, ok) => DeleteInv(w, t, requester, ok);
    case ChangeRole(t, target, requester, role, ok) => ChangeRoleInv(w, t, target, requester, role, ok);
    case Remove(t, target, requester, ok) => RemoveInv(w, t, target, requester, ok);
    case Leave(t, user, ok) => RemoveInv(w, t, user, user, ok);
    case SendInvitation(s) => SendInv(w, cfg, s);
    case Accept(_, found, user, email, now, markOk, ok) => AcceptInv(w, cfg, found, user, email, now, markOk, ok);
    case Reject(_, found, email, ok) => RejectInv(w, cfg, found, email, ok);
    case Revoke(i, requester, ok) => RevokeInv(w, i, requester, ok);
  }

  lemma {:induction false} InvRun(w: World, cfg: Config, es: seq<Event>)
    requires Inv(w) && Legal(w, cfg, es)
    ensures Inv(Run(w, cfg, es))
    decreases |es|
  {
    if es != [] {
      InvStep(w, cfg, es[0]);
      InvRun(Next(w, cfg, es[0]), cfg, es[1..]);
    }
  }
  lemma StateFirst(w: World, cfg: Config, es: seq<Event>)
    requires Legal(w, cfg, es) && es != []
    ensures StateAt(w, cfg, es, 0) == w && StateAt(w, cfg, es, 1) == Next(w, cfg, es[0])
  {
    StateShifted(w, cfg, es, 0);
  }

  lemma {:induction false} StateNext(w: World, cfg: Config, es: seq<Event>, k: nat)
    requires Legal(w, cfg, es) && k < |es|
    ensures StateAt(w, cfg, es, k + 1) == Next(StateAt(w, cfg, es, k), cfg, es[k])
    decreases k
  {
    if k == 0 {
      StateFirst(w, cfg, es);
    } else {
      StateNext(Next(w, cfg, es[0]), cfg, es[1..], k - 1);
      StateShifted(w, cfg, es, k);
      StateShifted(w, cfg, es, k - 1);
    }
  }

  lemma {:induction false} InvAt(w: World, cfg: Config, es: seq<Event>, k: nat)
    requires Inv(w) && Legal(w, cfg, es) && k <= |es|
    ensures Inv(StateAt(w, cfg, es, k))
    decreases k
  {
    if k > 0 {
      InvStep(w, cfg, es[0]);
      InvAt(Next(w, cfg, es[0]), cfg, es[1..], k - 1);
    }
  }
}
