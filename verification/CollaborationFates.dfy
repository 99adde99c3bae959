/** Which step of a run made or deleted a team, and made or closed an invitation. */
module CollaborationFates {
  import opened Options
  import opened Slugs
  import opened Collaboration
  import opened CollaborationRuns
  import opened CollaborationTheorems

  /** What can become true of a team or an invitation and then stays true. `Closed` is
      about a status other than pending. */
  datatype Fate =
    | Made(team: TeamId)
    | Deleted(team: TeamId)
    | Sent(invitation: InvitationId)
    | Closed(invitation: InvitationId, status: InvitationStatus)

  predicate Reached(w: World, f: Fate) {
    match f
    case Made(t) => t in w.teams
    case Deleted(t) => t in w.teams && !w.teams[t].active
    case Sent(i) => i in w.invitations
    case Closed(i, s) => i in w.invitations && w.invitations[i].status == s
  }

  // ---------- what one step achieves ----------

  ghost predicate Makes(w: World, cfg: Config, e: Event, t: TeamId) {
    e.Create? && e.id == t && e.ok && NoSuchSlug(w, e.owner, TeamSlug(cfg.lower(e.input.name)))
  }

  /** A member with the owner role deletes the team. */
  predicate Deletes(w: World, e: Event, t: TeamId) {
    e.Delete? && e.team == t && e.ok && t in w.teams && MemberAs(w, t, e.requester, Owner)
  }

  /** An owner or administrator of an active team with room invites somebody who is
      neither a member nor invited already, for a role below owner. */
  ghost predicate Sends(w: World, cfg: Config, e: Event, i: InvitationId) {
    && e.SendInvitation? && e.send.id == i
    && var s := e.send;
    && Manages(w, s.team, s.inviter) && s.role in {Admin, Member, Guest} && HasRoom(w, s.team)
    && s.lookupOk && (s.user.Some? ==> !IsMember(w, s.team, s.user.value))
    && (forall j :: j in w.invitations && w.invitations[j].team == s.team && w.invitations[j].status == Pending ==>
          w.invitations[j].email != cfg.lower(cfg.trim(s.email)))
    && s.ok && forall j :: j in w.invitations ==> w.invitations[j].token != s.token
  }

  predicate ForCaller(w: World, cfg: Config, i: InvitationId, email: string) {
    && i in w.invitations && w.invitations[i].status == Pending
    && cfg.lower(w.invitations[i].email) == cfg.lower(email)
  }

  predicate Closes(w: World, cfg: Config, e: Event, i: InvitationId, s: InvitationStatus) {
    match e
    case Accept(_, found, user, email, now, markOk, ok) =>
      && found == Some(i) && ForCaller(w, cfg, i, email)
      && ((s.Expired? && now > w.invitations[i].expires && markOk)
          || (s.Accepted? && now <= w.invitations[i].expires && HasRoom(w, w.invitations[i].team) && ok
              && !IsMember(w, w.invitations[i].team, user)))
    case Reject(_, found, email, ok) => s.Rejected? && found == Some(i) && ForCaller(w, cfg, i, email) && ok
    case Revoke(id, requester, ok) =>
      && s.Revoked? && id == i && ok && i in w.invitations && w.invitations[i].status == Pending
      && Manages(w, w.invitations[i].team, requester)
    case Delete(t, _, _) =>
      && s.Revoked? && i in w.invitations && w.invitations[i].status == Pending && w.invitations[i].team == t
      && Deletes(w, e, t)
    case _ => false
  }

  ghost predicate Achieves(w: World, cfg: Config, e: Event, f: Fate) {
    match f
    case Made(t) => Makes(w, cfg, e, t)
    case Deleted(t) => Deletes(w, e, t)
    case Sent(i) => Sends(w, cfg, e, i)
    case Closed(i, s) => Closes(w, cfg, e, i, s)
  }

  lemma CreateFates(w: World, cfg: Config, e: Event, t: TeamId)
    requires e.Create? && Enabled(w, e)
    ensures Reached(Next(w, cfg, e), Made(t)) <==> Reached(w, Made(t)) || Makes(w, cfg, e, t)
    ensures Reached(Next(w, cfg, e), Deleted(t)) <==> Reached(w, Deleted(t))
  {
  }

  lemma DeleteFates(w: World, cfg: Config, e: Event, t: TeamId)
    requires e.Delete? && Enabled(w, e)
    ensures Reached(Next(w, cfg, e), Made(t)) <==> Reached(w, Made(t))
    ensures Reached(Next(w, cfg, e), Deleted(t)) <==> Reached(w, Deleted(t)) || Deletes(w, e, t)
  {
  }

  lemma OtherFates(w: World, cfg: Config, e: Event, t: TeamId)
    requires !e.Create? && !e.Delete? && Enabled(w, e)
    ensures Reached(Next(w, cfg, e), Made(t)) <==> Reached(w, Made(t))
    ensures Reached(Next(w, cfg, e), Deleted(t)) <==> Reached(w, Deleted(t))
  {
  }

  lemma TeamFates(w: World, cfg: Config, e: Event, t: TeamId)
    requires Enabled(w, e)
    ensures Reached(Next(w, cfg, e), Made(t)) <==> Reached(w, Made(t)) || Makes(w, cfg, e, t)
    ensures Reached(Next(w, cfg, e), Deleted(t)) <==> Reached(w, Deleted(t)) || Deletes(w, e, t)
  {
    match e
    case Create(_, _, _, _) => CreateFates(w, cfg, e, t);
    case Delete(_, _, _) => DeleteFates(w, cfg, e, t);
    case _ => OtherFates(w, cfg, e, t);
  }

  lemma SentStep(w: World, cfg: Config, e: Event, i: InvitationId)
    requires Enabled(w, e)
    ensures Reached(Next(w, cfg, e), Sent(i)) <==> Reached(w, Sent(i)) || Sends(w, cfg, e, i)
  {
  }

  lemma AcceptCloses(w: World, cfg: Config, e: Event, i: InvitationId, s: InvitationStatus)
    requires e.Accept? && Enabled(w, e) && s != Pending
    ensures Reached(Next(w, cfg, e), Closed(i, s)) <==> Reached(w, Closed(i, s)) || Closes(w, cfg, e, i, s)
  {
  }

  lemma RejectCloses(w: World, cfg: Config, e: Event, i: InvitationId, s: InvitationStatus)
    requires e.Reject? && Enabled(w, e) && s != Pending
    ensures Reached(Next(w, cfg, e), Closed(i, s)) <==> Reached(w, Closed(i, s)) || Closes(w, cfg, e, i, s)
  {
  }

  lemma RevokeCloses(w: World, cfg: Config, e: Event, i: InvitationId, s: InvitationStatus)
    requires e.Revoke? && Enabled(w, e) && s != Pending
    ensures Reached(Next(w, cfg, e), Closed(i, s)) <==> Reached(w, Closed(i, s)) || Closes(w, cfg, e, i, s)
  {
  }

  lemma DeleteCloses(w: World, cfg: Config, e: Event, i: InvitationId, s: InvitationStatus)
    requires e.Delete? && TeamsInv(w) && Enabled(w, e) && s != Pending
    ensures Reached(Next(w, cfg, e), Closed(i, s)) <==> Reached(w, Closed(i, s)) || Closes(w, cfg, e, i, s)
  {
    assert MemberAs(w, e.team, e.requester, Owner) ==> e.team in w.members;
  }

  lemma OthersClose(w: World, cfg: Config, e: Event, i: InvitationId, s: InvitationStatus)
    requires !e.Accept? && !e.Reject? && !e.Revoke? && !e.Delete? && Enabled(w, e) && s != Pending
    ensures Reached(Next(w, cfg, e), Closed(i, s)) <==> Reached(w, Closed(i, s)) || Closes(w, cfg, e, i, s)
  {
  }

  lemma ClosedStep(w: World, cfg: Config, e: Event, i: InvitationId, s: InvitationStatus)
    requires TeamsInv(w) && Enabled(w, e) && s != Pending
    ensures Reached(Next(w, cfg, e), Closed(i, s)) <==> Reached(w, Closed(i, s)) || Closes(w, cfg, e, i, s)
  {
    match e
    case Accept(_, _, _, _, _, _, _) => AcceptCloses(w, cfg, e, i, s);
    case Reject(_, _, _, _) => RejectCloses(w, cfg, e, i, s);
    case Revoke(_, _, _) => RevokeCloses(w, cfg, e, i, s);
    case Delete(_, _, _) => DeleteCloses(w, cfg, e, i, s);
    case _ => OthersClose(w, cfg, e, i, s);
  }

  lemma FateStep(w: World, cfg: Config, e: Event, f: Fate)
    requires Inv(w) && Enabled(w, e) && (f.Closed? ==> f.status != Pending)
    ensures Reached(Next(w, cfg, e), f) <==> Reached(w, f) || Achieves(w, cfg, e, f)
  {
    match f
    case Made(t) => TeamFates(w, cfg, e, t);
    case Deleted(t) => TeamFates(w, cfg, e, t);
    case Sent(i) => SentStep(w, cfg, e, i);
    case Closed(i, s) => ClosedStep(w, cfg, e, i, s);
  }

  // ---------- over whole runs ----------

  /** Step `k` of the run achieves it. */
  ghost predicate AchievesAt(w: World, cfg: Config, es: seq<Event>, k: nat, f: Fate)
    requires Legal(w, cfg, es) && k < |es|
  {
    Achieves(StateAt(w, cfg, es, k), cfg, es[k], f)
  }

  ghost predicate AchievedIn(w: World, cfg: Config, es: seq<Event>, f: Fate)
    requires Legal(w, cfg, es)
  {
    exists k :: 0 <= k < |es| && AchievesAt(w, cfg, es, k, f)
  }

  lemma AchievesShifted(w: World, cfg: Config, es: seq<Event>, k: nat, f: Fate)
    requires Legal(w, cfg, es) && k < |es| - 1
    ensures AchievesAt(w, cfg, es, k + 1, f) <==> AchievesAt(Next(w, cfg, es[0]), cfg, es[1..], k, f)
  {
    StateShifted(w, cfg, es, k);
  }

  lemma AchievedShifted(w: World, cfg: Config, es: seq<Event>, f: Fate)
    requires Legal(w, cfg, es) && es != []
    ensures AchievedIn(w, cfg, es, f) <==>
      Achieves(w, cfg, es[0], f) || AchievedIn(Next(w, cfg, es[0]), cfg, es[1..], f)
  {
    var w1 := Next(w, cfg, es[0]);
    assert AchievesAt(w, cfg, es, 0, f) <==> Achieves(w, cfg, es[0], f) by {
      assert StateAt(w, cfg, es, 0) == w;
    }
    if AchievedIn(w, cfg, es, f) {
      var k :| 0 <= k < |es| && AchievesAt(w, cfg, es, k, f);
      if k > 0 {
        AchievesShifted(w, cfg, es, k - 1, f);
      }
    }
    if AchievedIn(w1, cfg, es[1..], f) {
      var k :| 0 <= k < |es| - 1 && AchievesAt(w1, cfg, es[1..], k, f);
      AchievesShifted(w, cfg, es, k, f);
    }
  }

  /** Over every run: a team is there, or deleted, in the end, and an invitation is there,
      or accepted, rejected, revoked or expired, if and only if it was so at the start or
      some step of the run achieved it. In particular a team is deleted in the end exactly
      if it was at the start or a member with the owner role deleted it and the store
      accepted that. */
  lemma {:induction false} FateIff(w: World, cfg: Config, es: seq<Event>, f: Fate)
    requires Inv(w) && Legal(w, cfg, es) && (f.Closed? ==> f.status != Pending)
    ensures Reached(Run(w, cfg, es), f) <==> Reached(w, f) || AchievedIn(w, cfg, es, f)
    decreases |es|
  {
    if es != [] {
      FateStep(w, cfg, es[0], f);
      InvStep(w, cfg, es[0]);
      FateIff(Next(w, cfg, es[0]), cfg, es[1..], f);
      AchievedShifted(w, cfg, es, f);
    }
  }

  // ---------- contents of new and changed rows ----------

  /** A new invitation is pending, for the normalised address, and carries what the
      inviter asked for. */
  lemma SentInvitation(w: World, cfg: Config, e: Event, i: InvitationId)
    requires Enabled(w, e) && Sends(w, cfg, e, i)
    ensures i in Next(w, cfg, e).invitations
    ensures var s := e.send;
      Next(w, cfg, e).invitations[i] ==
        Invitation(s.team, s.inviter, cfg.lower(cfg.trim(s.email)), s.user, s.role, s.token, Pending,
                   s.now + cfg.expiry)
  {
  }

  /** A new team is active, private unless it says otherwise, and its only member is its
      owner. */
  lemma MadeTeam(w: World, cfg: Config, e: Event, t: TeamId)
    requires TeamsInv(w) && Enabled(w, e) && Makes(w, cfg, e, t)
    ensures var w' := Next(w, cfg, e);
      && t in w'.teams && w'.teams[t].active && w'.teams[t].owner == e.owner
      && w'.teams[t].details.name == e.input.name && w'.teams[t].details.description == e.input.description
      && w'.teams[t].details.visibility == (if e.input.visibility == "" then "private" else e.input.visibility)
      && w'.teams[t].slug == TeamSlug(cfg.lower(e.input.name))
      && w'.teams[t].memberLimit == (if cfg.memberLimit <= 0 then 5 else cfg.memberLimit)
      && t in w'.members && w'.members[t] == map[e.owner := Owner]
  {
    assert t !in w.members;
  }

  /** Only an update by an owner or administrator of an active team changes its details,
      and only in the fields that it gives. */
  lemma UpdatedTeam(w: World, cfg: Config, e: Event, t: TeamId)
    requires Enabled(w, e) && t in w.teams
    ensures t in Next(w, cfg, e).teams
    ensures var team, team' := w.teams[t], Next(w, cfg, e).teams[t];
      if e.Update? && e.team == t && e.ok && Manages(w, t, e.requester) && team.active then
        var ch := e.changes;
        && team'.details.name == (if ch.name.Some? then ch.name.value else team.details.name)
        && team'.slug == (if ch.name.Some? then TeamSlug(cfg.lower(ch.name.value)) else team.slug)
        && team'.details.description ==
             (if ch.description.Some? then ch.description.value else team.details.description)
        && team'.details.visibility == (if ch.visibility.Some? then ch.visibility.value else team.details.visibility)
      else team'.details == team.details && team'.slug == team.slug
  {
  }
}
