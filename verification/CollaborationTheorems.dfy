/** What the invariant of teams and invitations means over whole runs. */
module CollaborationTheorems {
  import opened Options
  import opened Slugs
  import opened Collaboration
  import opened CollaborationRuns

  /** In every reachable state each team has exactly one member with the owner role,
      who is its OwnerID; it has no more members than its limit; and its members are
      its owner, plus one for each accepted invitation, minus one for each removal. */
  lemma TeamInvariant(cfg: Config, es: seq<Event>)
    requires Legal(EMPTY, cfg, es)
    ensures var w := Run(EMPTY, cfg, es);
      forall t :: t in w.teams ==>
        && RoleOf(w, t, w.teams[t].owner) == Some(Owner)
        && (forall u :: RoleOf(w, t, u) == Some(Owner) ==> u == w.teams[t].owner)
        && 1 <= |MembersOf(w, t)| <= w.teams[t].memberLimit
        && |MembersOf(w, t)| == 1 + |AcceptedOf(w, t)| - RemovedFrom(w, t)
  {
    assert Inv(EMPTY);
    InvRun(EMPTY, cfg, es);
    var w := Run(EMPTY, cfg, es);
    forall t | t in w.teams
      ensures RoleOf(w, t, w.teams[t].owner) == Some(Owner) && |MembersOf(w, t)| >= 1
      ensures forall u :: RoleOf(w, t, u) == Some(Owner) ==> u == w.teams[t].owner
      ensures TeamOk(w, t) && CountOk(w, t)
    {
      assert TeamOk(w, t) && CountOk(w, t);
      assert w.teams[t].owner in MembersOf(w, t);
    }
  }

  /** In every reachable state no invitation carries the owner role, a deleted team has
      no pending invitation, and a team has at most one pending invitation for all
      spellings of an email address that normalise alike. */
  lemma InvitationInvariant(cfg: Config, es: seq<Event>, i: InvitationId, j: InvitationId, t: TeamId,
                            email: string, email': string)
    requires Legal(EMPTY, cfg, es) && cfg.Normalize(email) == cfg.Normalize(email')
    ensures var w := Run(EMPTY, cfg, es);
      && (i in w.invitations ==> w.invitations[i].role != Owner)
      && (i in w.invitations && w.invitations[i].status == Pending ==> ActiveTeam(w, w.invitations[i].team))
      && (Waiting(w, i, t, cfg.Normalize(email)) && Waiting(w, j, t, cfg.Normalize(email')) ==> i == j)
  {
    assert Inv(EMPTY);
    InvRun(EMPTY, cfg, es);
    var w := Run(EMPTY, cfg, es);
    assert i in w.invitations ==> InvitationOk(w, w.invitations[i]);
  }

  // ---------- histories ----------

  /** A team keeps its owner and limit; once deleted, it stays deleted and gains no
      members. */
  predicate TeamProceeds(w: World, w': World, t: TeamId)
    requires t in w.teams
  {
    && t in w'.teams
    && w'.teams[t].owner == w.teams[t].owner
    && w'.teams[t].memberLimit == w.teams[t].memberLimit
    && (!w.teams[t].active ==>
          !w'.teams[t].active && MembersOf(w', t).Keys <= MembersOf(w, t).Keys)
  }

  /** An invitation keeps everything but its status, which changes only from pending. */
  predicate InvitationProceeds(w: World, w': World, i: InvitationId)
    requires i in w.invitations
  {
    && i in w'.invitations
    && w'.invitations[i].(status := w.invitations[i].status) == w.invitations[i]
    && (w.invitations[i].status != Pending ==> w'.invitations[i].status == w.invitations[i].status)
  }

  ghost predicate Proceeds(w: World, w': World) {
    && (forall t :: t in w.teams ==> TeamProceeds(w, w', t))
    && (forall i :: i in w.invitations ==> InvitationProceeds(w, w', i))
  }

  lemma ProceedsTwice(w: World, w1: World, w2: World)
    requires Proceeds(w, w1) && Proceeds(w1, w2)
    ensures Proceeds(w, w2)
  {
    forall t | t in w.teams ensures TeamProceeds(w, w2, t) {
      assert TeamProceeds(w, w1, t) && TeamProceeds(w1, w2, t);
    }
    forall i | i in w.invitations ensures InvitationProceeds(w, w2, i) {
      assert InvitationProceeds(w, w1, i) && InvitationProceeds(w1, w2, i);
    }
  }

  lemma RowsProceed(w: World, cfg: Config, e: Event)
    requires Enabled(w, e) && (e.Create? || e.Update? || e.Delete?)
    ensures Proceeds(w, Next(w, cfg, e))
  {
  }

  lemma RoleProceeds(w: World, t: TeamId, target: UserId, requester: UserId, role: Role, ok: bool)
    ensures Proceeds(w, UpdateRoleSpec(w, t, target, requester, role, ok).0)
  {
    if UpdateRoleSpec(w, t, target, requester, role, ok).1 == Done {
      var w' := SetMember(w, t, target, role);
      assert MembersOf(w', t).Keys == MembersOf(w, t).Keys + {target} == MembersOf(w, t).Keys;
    }
  }

  lemma RemoveProceeds(w: World, t: TeamId, target: UserId, requester: UserId, ok: bool)
    ensures Proceeds(w, RemoveMemberSpec(w, t, target, requester, ok).0)
  {
  }

  lemma SendProceeds(w: World, cfg: Config, s: Send)
    requires s.id !in w.invitations
    ensures Proceeds(w, SendSpec(w, cfg, s).0)
  {
  }

  lemma StatusProceeds(w: World, i: InvitationId, s: InvitationStatus)
    requires i in w.invitations && w.invitations[i].status == Pending
    ensures Proceeds(w, SetStatus(w, i, s))
  {
  }

  lemma JoinProceeds(w: World, i: InvitationId, u: UserId)
    requires InvitationsInv(w) && CanJoin(w, i, u)
    ensures Proceeds(w, Joined(w, i, u))
  {
    assert InvitationOk(w, w.invitations[i]);
  }

  lemma AcceptProceeds(w: World, cfg: Config, found: Option<InvitationId>, user: UserId, email: string, now: Time,
                       markOk: bool, ok: bool)
    requires InvitationsInv(w) && (found.Some? ==> found.value in w.invitations)
    ensures Proceeds(w, AcceptSpec(w, cfg, found, user, email, now, markOk, ok).0)
  {
    AcceptCases(w, cfg, found, user, email, now, markOk, ok);
    assert Proceeds(w, w);
    if found.Some? && w.invitations[found.value].status == Pending {
      StatusProceeds(w, found.value, Expired);
      if CanJoin(w, found.value, user) {
        JoinProceeds(w, found.value, user);
      }
    }
  }

  lemma CloseProceeds(w: World, cfg: Config, e: Event)
    requires Enabled(w, e) && (e.Reject? || e.Revoke?)
    ensures Proceeds(w, Next(w, cfg, e))
  {
  }

  lemma ProceedsStep(w: World, cfg: Config, e: Event)
    requires InvitationsInv(w) && Enabled(w, e)
    ensures Proceeds(w, Next(w, cfg, e))
  {
    match e
    case ChangeRole(t, target, requester, role, ok) => RoleProceeds(w, t, target, requester, role, ok);
    case Remove(t, target, requester, ok) => RemoveProceeds(w, t, target, requester, ok);
    case Leave(t, user, ok) => RemoveProceeds(w, t, user, user, ok);
    case SendInvitation(s) => SendProceeds(w, cfg, s);
    case Accept(_, found, user, email, now, markOk, ok) =>
      AcceptProceeds(w, cfg, found, user, email, now, markOk, ok);
    case Reject(_, _, _, _) => CloseProceeds(w, cfg, e);
    case Revoke(_, _, _) => CloseProceeds(w, cfg, e);
    case _ => RowsProceed(w, cfg, e);
  }

  /** Over every run the status of an invitation leaves pending once and never changes
      again, and a deleted team stays deleted and never gains a member. */
  lemma {:induction false} HistoriesProceed(w: World, cfg: Config, es: seq<Event>)
    requires Inv(w) && Legal(w, cfg, es)
    ensures Proceeds(w, Run(w, cfg, es))
    decreases |es|
  {
    if es != [] {
      ProceedsStep(w, cfg, es[0]);
      InvStep(w, cfg, es[0]);
      HistoriesProceed(Next(w, cfg, es[0]), cfg, es[1..]);
      ProceedsTwice(w, Next(w, cfg, es[0]), Run(w, cfg, es));
    }
  }

  // ---------- who is a member ----------

  predicate MemberAs(w: World, t: TeamId, u: UserId, role: Role) {
    t in w.members && u in w.members[t] && w.members[t][u] == role
  }

  predicate Manages(w: World, t: TeamId, u: UserId) {
    MemberAs(w, t, u, Owner) || MemberAs(w, t, u, Admin)
  }

  predicate HasRoom(w: World, t: TeamId) {
    t in w.teams && w.teams[t].active && |MembersOf(w, t)| < w.teams[t].memberLimit
  }

  /** The caller of AcceptInvitation gets in by invitation `i`. */
  predicate Admits(w: World, cfg: Config, i: InvitationId, email: string, now: Time, t: TeamId) {
    && i in w.invitations && w.invitations[i].team == t && w.invitations[i].status == Pending
    && cfg.lower(w.invitations[i].email) == cfg.lower(email) && now <= w.invitations[i].expires
    && HasRoom(w, t)
  }

  /** Being a member at all, or in one role. */
  datatype Want = Any | Exactly(role: Role)
  {
    predicate Takes(r: Role) {
      Exactly? ==> r == role
    }
  }

  ghost predicate Wanted(w: World, t: TeamId, u: UserId, want: Want) {
    match want
    case Any => IsMember(w, t, u)
    case Exactly(r) => MemberAs(w, t, u, r)
  }

  /** An owner or administrator gives a member other than the owner another role; an
      administrator gives no role that invitations do not have. */
  predicate Assigns(w: World, e: Event, t: TeamId, u: UserId) {
    && e.ChangeRole? && e.team == t && e.target == u && e.ok
    && IsMember(w, t, u) && !MemberAs(w, t, u, Owner) && e.role != Owner
    && (MemberAs(w, t, e.requester, Owner)
        || (MemberAs(w, t, e.requester, Admin) && e.role in {Admin, Member, Guest}))
  }

  ghost predicate NoSuchSlug(w: World, owner: UserId, slug: string) {
    forall t :: t in w.teams && w.teams[t].active && w.teams[t].owner == owner ==> w.teams[t].slug != slug
  }

  ghost predicate Enters(w: World, cfg: Config, e: Event, t: TeamId, u: UserId, want: Want) {
    match e
    case Create(id, owner, input, ok) =>
      id == t && owner == u && ok && NoSuchSlug(w, owner, TeamSlug(cfg.lower(input.name))) && want.Takes(Owner)
    case Accept(_, found, user, email, now, _, ok) =>
      user == u && ok && !IsMember(w, t, u) && found.Some? && Admits(w, cfg, found.value, email, now, t)
      && want.Takes(w.invitations[found.value].role)
    case ChangeRole(_, _, _, role, _) => want == Exactly(role) && Assigns(w, e, t, u)
    case _ => false
  }

  /** An owner or administrator removes a member other than the owner, or the member
      leaves; a role is also lost to another one. */
  predicate Exits(w: World, e: Event, t: TeamId, u: UserId, want: Want) {
    match e
    case Remove(t', target, requester, ok) =>
      && t' == t && target == u && ok && (requester == u || Manages(w, t, requester))
      && IsMember(w, t, u) && !MemberAs(w, t, u, Owner)
    case Leave(t', user, ok) => t' == t && user == u && ok && IsMember(w, t, u) && !MemberAs(w, t, u, Owner)
    case ChangeRole(_, _, _, role, _) => want.Exactly? && want.role != role && Assigns(w, e, t, u)
    case _ => false
  }

  lemma CreateMembers(w: World, cfg: Config, e: Event, t: TeamId, u: UserId, want: Want)
    requires TeamsInv(w) && Enabled(w, e) && e.Create?
    ensures Wanted(Next(w, cfg, e), t, u, want) <==> Wanted(w, t, u, want) || Enters(w, cfg, e, t, u, want)
  {
  }

  lemma AcceptMembers(w: World, cfg: Config, e: Event, t: TeamId, u: UserId, want: Want)
    requires Enabled(w, e) && e.Accept?
    ensures Wanted(Next(w, cfg, e), t, u, want) <==> Wanted(w, t, u, want) || Enters(w, cfg, e, t, u, want)
  {
  }

  lemma RemoveMembers(w: World, cfg: Config, e: Event, t: TeamId, u: UserId, want: Want)
    requires Enabled(w, e) && (e.Remove? || e.Leave?)
    ensures Wanted(Next(w, cfg, e), t, u, want) <==> Wanted(w, t, u, want) && !Exits(w, e, t, u, want)
  {
  }

  lemma RoleMembers(w: World, cfg: Config, e: Event, t: TeamId, u: UserId, want: Want)
    requires Enabled(w, e) && e.ChangeRole?
    ensures Wanted(Next(w, cfg, e), t, u, want) <==>
      (Wanted(w, t, u, want) && !Exits(w, e, t, u, want)) || Enters(w, cfg, e, t, u, want)
  {
  }

  lemma MembersStep(w: World, cfg: Config, e: Event, t: TeamId, u: UserId, want: Want)
    requires TeamsInv(w) && Enabled(w, e)
    ensures Wanted(Next(w, cfg, e), t, u, want) <==>
      (Wanted(w, t, u, want) && !Exits(w, e, t, u, want)) || Enters(w, cfg, e, t, u, want)
  {
    match e
    case Create(_, _, _, _) => CreateMembers(w, cfg, e, t, u, want);
    case Accept(_, _, _, _, _, _, _) => AcceptMembers(w, cfg, e, t, u, want);
    case Remove(_, _, _, _) => RemoveMembers(w, cfg, e, t, u, want);
    case Leave(_, _, _) => RemoveMembers(w, cfg, e, t, u, want);
    case ChangeRole(_, _, _, _, _) => RoleMembers(w, cfg, e, t, u, want);
    case _ =>
  }

  ghost predicate EntersAt(w: World, cfg: Config, es: seq<Event>, k: nat, t: TeamId, u: UserId, want: Want)
    requires Legal(w, cfg, es) && k < |es|
  {
    Enters(StateAt(w, cfg, es, k), cfg, es[k], t, u, want)
  }

  ghost predicate ExitsAt(w: World, cfg: Config, es: seq<Event>, k: nat, t: TeamId, u: UserId, want: Want)
    requires Legal(w, cfg, es) && k < |es|
  {
    Exits(StateAt(w, cfg, es, k), es[k], t, u, want)
  }

  /** `u` does not leave `t` and is not removed from step `k` on. */
  ghost predicate StaysFrom(w: World, cfg: Config, es: seq<Event>, k: nat, t: TeamId, u: UserId, want: Want)
    requires Legal(w, cfg, es)
  {
    forall j :: k <= j < |es| ==> !ExitsAt(w, cfg, es, j, t, u, want)
  }

  ghost predicate EntersForGood(w: World, cfg: Config, es: seq<Event>, t: TeamId, u: UserId, want: Want)
    requires Legal(w, cfg, es)
  {
    exists k :: 0 <= k < |es| && EntersAt(w, cfg, es, k, t, u, want) && StaysFrom(w, cfg, es, k + 1, t, u, want)
  }

  lemma AtShifted(w: World, cfg: Config, es: seq<Event>, k: nat, t: TeamId, u: UserId, want: Want)
    requires Legal(w, cfg, es) && k < |es| - 1
    ensures EntersAt(w, cfg, es, k + 1, t, u, want) <==> EntersAt(Next(w, cfg, es[0]), cfg, es[1..], k, t, u, want)
    ensures ExitsAt(w, cfg, es, k + 1, t, u, want) <==> ExitsAt(Next(w, cfg, es[0]), cfg, es[1..], k, t, u, want)
  {
    StateShifted(w, cfg, es, k);
  }

  lemma StaysShifted(w: World, cfg: Config, es: seq<Event>, k: nat, t: TeamId, u: UserId, want: Want)
    requires Legal(w, cfg, es) && es != []
    ensures StaysFrom(w, cfg, es, k + 1, t, u, want) <==> StaysFrom(Next(w, cfg, es[0]), cfg, es[1..], k, t, u, want)
  {
    var w1 := Next(w, cfg, es[0]);
    forall j | k <= j < |es| - 1
      ensures ExitsAt(w, cfg, es, j + 1, t, u, want) <==> ExitsAt(w1, cfg, es[1..], j, t, u, want)
    {
      AtShifted(w, cfg, es, j, t, u, want);
    }
    if StaysFrom(w1, cfg, es[1..], k, t, u, want) {
      forall j | k + 1 <= j < |es| ensures !ExitsAt(w, cfg, es, j, t, u, want) {
        assert !ExitsAt(w1, cfg, es[1..], j - 1, t, u, want);
      }
    }
  }

  lemma EntersShifted(w: World, cfg: Config, es: seq<Event>, t: TeamId, u: UserId, want: Want)
    requires Legal(w, cfg, es) && es != []
    ensures EntersForGood(w, cfg, es, t, u, want) <==>
      (EntersAt(w, cfg, es, 0, t, u, want) && StaysFrom(w, cfg, es, 1, t, u, want))
      || EntersForGood(Next(w, cfg, es[0]), cfg, es[1..], t, u, want)
  {
    var w1 := Next(w, cfg, es[0]);
    forall k | 0 <= k < |es| - 1
      ensures EntersAt(w, cfg, es, k + 1, t, u, want) <==> EntersAt(w1, cfg, es[1..], k, t, u, want)
      ensures StaysFrom(w, cfg, es, k + 2, t, u, want) <==> StaysFrom(w1, cfg, es[1..], k + 1, t, u, want)
    {
      AtShifted(w, cfg, es, k, t, u, want);
      StaysShifted(w, cfg, es, k + 1, t, u, want);
    }
    if EntersForGood(w, cfg, es, t, u, want) {
      var k :| 0 <= k < |es| && EntersAt(w, cfg, es, k, t, u, want) && StaysFrom(w, cfg, es, k + 1, t, u, want);
      if k > 0 {
        assert EntersAt(w1, cfg, es[1..], k - 1, t, u, want);
      }
    }
    if EntersForGood(w1, cfg, es[1..], t, u, want) {
      var k :| 0 <= k < |es| - 1 && EntersAt(w1, cfg, es[1..], k, t, u, want)
               && StaysFrom(w1, cfg, es[1..], k + 1, t, u, want);
      assert EntersAt(w, cfg, es, k + 1, t, u, want);
    }
  }

  /** Over every run: somebody is a member of a team in the end if and only if they were
      one at the start and stayed, or entered in some step, as the owner of the new team
      or by a pending invitation in time meant for their address, into an active team
      with room, and stayed since. Likewise somebody has a role in the end if and only if
      they had it at the start or got it, at entry or from an owner or administrator, and
      have kept it since. */
  lemma {:induction false} MembersIff(w: World, cfg: Config, es: seq<Event>, t: TeamId, u: UserId, want: Want)
    requires Inv(w) && Legal(w, cfg, es)
    ensures Wanted(Run(w, cfg, es), t, u, want) <==>
      (Wanted(w, t, u, want) && StaysFrom(w, cfg, es, 0, t, u, want)) || EntersForGood(w, cfg, es, t, u, want)
    decreases |es|
  {
    if es != [] {
      var w1 := Next(w, cfg, es[0]);
      MembersStep(w, cfg, es[0], t, u, want);
      InvStep(w, cfg, es[0]);
      MembersIff(w1, cfg, es[1..], t, u, want);
      EntersShifted(w, cfg, es, t, u, want);
      StaysShifted(w, cfg, es, 0, t, u, want);
      assert StateAt(w, cfg, es, 0) == w;
      assert StaysFrom(w, cfg, es, 0, t, u, want) <==>
        !ExitsAt(w, cfg, es, 0, t, u, want) && StaysFrom(w, cfg, es, 1, t, u, want);
    }
  }

  predicate IsAccepted(w: World, i: InvitationId) {
    i in w.invitations && w.invitations[i].status == Accepted
  }

  lemma AcceptedStep(w: World, cfg: Config, e: Event, i: InvitationId)
    requires InvitationsInv(w) && Enabled(w, e) && IsAccepted(w, i)
    ensures IsAccepted(Next(w, cfg, e), i)
  {
    ProceedsStep(w, cfg, e);
    assert InvitationProceeds(w, Next(w, cfg, e), i);
  }

  lemma AcceptedNext(w: World, cfg: Config, es: seq<Event>, k: nat, i: InvitationId)
    requires Inv(w) && Legal(w, cfg, es) && k < |es| && IsAccepted(StateAt(w, cfg, es, k), i)
    ensures IsAccepted(StateAt(w, cfg, es, k + 1), i)
  {
    StateNext(w, cfg, es, k);
    InvAt(w, cfg, es, k);
    AcceptedStep(StateAt(w, cfg, es, k), cfg, es[k], i);
  }

  lemma {:induction false} AcceptedStays(w: World, cfg: Config, es: seq<Event>, k: nat, j: nat, i: InvitationId)
    requires Inv(w) && Legal(w, cfg, es) && k <= j <= |es| && IsAccepted(StateAt(w, cfg, es, k), i)
    ensures IsAccepted(StateAt(w, cfg, es, j), i)
    decreases j
  {
    if k < j {
      AcceptedStays(w, cfg, es, k, j - 1, i);
      AcceptedNext(w, cfg, es, j - 1, i);
    }
  }

  /** `u` enters `t` in step `k` by invitation `i`. */
  ghost predicate AdmittedAt(w: World, cfg: Config, es: seq<Event>, k: nat, i: InvitationId, t: TeamId, u: UserId)
    requires Legal(w, cfg, es) && k < |es|
  {
    es[k].Accept? && es[k].found == Some(i) && EntersAt(w, cfg, es, k, t, u, Any)
  }

  lemma AcceptedBy(w: World, cfg: Config, e: Event, t: TeamId, u: UserId)
    requires Enabled(w, e) && e.Accept? && Enters(w, cfg, e, t, u, Any)
    ensures var w' := Next(w, cfg, e); var i := e.found.value;
      IsAccepted(w', i) && RoleOf(w', t, u) == Some(w.invitations[i].role)
  {
  }

  lemma AcceptedAfter(w: World, cfg: Config, es: seq<Event>, k: nat, i: InvitationId, t: TeamId, u: UserId)
    requires Legal(w, cfg, es) && k < |es| && AdmittedAt(w, cfg, es, k, i, t, u)
    ensures IsAccepted(StateAt(w, cfg, es, k + 1), i)
  {
    StateNext(w, cfg, es, k);
    AcceptedBy(StateAt(w, cfg, es, k), cfg, es[k], t, u);
  }

  lemma AcceptedAdmitsNobody(w: World, cfg: Config, es: seq<Event>, j: nat, i: InvitationId, t: TeamId, u: UserId)
    requires Legal(w, cfg, es) && j < |es| && IsAccepted(StateAt(w, cfg, es, j), i)
    ensures !AdmittedAt(w, cfg, es, j, i, t, u)
  {
  }

  /** Nobody enters twice by one invitation: it is accepted for good. */
  lemma InvitationAdmitsOnce(w: World, cfg: Config, es: seq<Event>, i: InvitationId,
                             k: nat, t: TeamId, u: UserId, j: nat, s: TeamId, v: UserId)
    requires Inv(w) && Legal(w, cfg, es) && k < j < |es|
    requires AdmittedAt(w, cfg, es, k, i, t, u)
    ensures !AdmittedAt(w, cfg, es, j, i, s, v)
  {
    AcceptedAfter(w, cfg, es, k, i, t, u);
    AcceptedStays(w, cfg, es, k + 1, j, i);
    AcceptedAdmitsNobody(w, cfg, es, j, i, s, v);
  }
}
