/** What only the guards keep: an enabled administrator, and no live session or open link of a
    disabled user. */
module Guarding {
  import opened Schema
  import opened Atomic
  import opened Retention
  import opened Protocol

  // ----- Row by row -----

  lemma StayEnabled(users: map<Id, User>, users': map<Id, User>, sessions: map<Id, Session>, links: map<Id, Link>)
    requires LiveSessionsOk(users, sessions) && OpenLinksOk(users, links)
    requires forall u :: Enabled(users, u) ==> Enabled(users', u)
    ensures LiveSessionsOk(users', sessions) && OpenLinksOk(users', links)
  {}

  lemma RevokeLive(users: map<Id, User>, sessions: map<Id, Session>, user: Id, now: Time)
    requires LiveSessionsOk(users, sessions)
    ensures LiveSessionsOk(users, RevokeSessions(sessions, user, now))
    ensures forall s :: s in RevokeSessions(sessions, user, now) && sessions[s].user == user
              ==> RevokeSessions(sessions, user, now)[s].revokedAt.Some?
  {}

  // Locking a user out: every session of his and every open link is gone in the same transaction.
  lemma LockedOut(db: Db, target: Id, now: Time)
    requires LiveSessionsOk(db.users, db.sessions) && OpenLinksOk(db.users, db.links)
    ensures var sessions, links := RevokeSessions(db.sessions, target, now), RevokeLinks(db.links, target, now);
      && LiveSessionsOk(db.users, sessions) && OpenLinksOk(db.users, links)
      && (forall s :: s in sessions && sessions[s].revokedAt.None? ==> sessions[s].user != target)
      && (forall l :: l in links && Open(links[l]) ==> links[l].user != target)
  {}

  lemma LockKeeps(db: Db, actor: Id, target: Id, eventId: Id, now: Time)
    requires Guarded(db)
    ensures Guarded(Disable(db, actor, target, eventId, now).db)
  {
    LockedOut(db, target, now);
    var after := Disable(db, actor, target, eventId, now);
    assert ChallengeOwnersOk(RevokeLinks(db.links, target, now), db.challenges);
    if after.outcome == Done {
      assert AdminOk(after.db.users) by {
        assert OtherAdmin(db.users, target);
        var v :| v in db.users && v != target && ActiveAdmin(db.users, v);
        assert ActiveAdmin(after.db.users, v);
      }
    }
  }

  lemma UnlockKeeps(db: Db, actor: Id, target: Id, eventId: Id, now: Time)
    requires Guarded(db)
    ensures Guarded(Reactivate(db, actor, target, eventId, now).db)
  {
    var after := Reactivate(db, actor, target, eventId, now).db;
    assert forall u :: Enabled(db.users, u) ==> Enabled(after.users, u);
    StayEnabled(db.users, after.users, db.sessions, db.links);
    if db.users != map[] {
      var v :| v in db.users && ActiveAdmin(db.users, v);
      assert ActiveAdmin(after.users, v);
    }
  }

  lemma AddUserKeeps(db: Db, id: Id, row: User)
    requires Guarded(db) && id !in db.users && (db.users != map[] || row.isAdmin) && row.disabledAt.None?
    ensures Guarded(db.(users := db.users[id := row]))
  {
    var users := db.users[id := row];
    assert forall u :: Enabled(db.users, u) ==> Enabled(users, u);
    StayEnabled(db.users, users, db.sessions, db.links);
    if db.users != map[] {
      var v :| v in db.users && ActiveAdmin(db.users, v);
      assert ActiveAdmin(users, v);
    } else {
      assert ActiveAdmin(users, id);
    }
  }

  lemma AddLinkKeeps(db: Db, id: Id, row: Link)
    requires Guarded(db) && id !in db.links && Enabled(db.users, row.user)
    ensures Guarded(db.(links := db.links[id := row]))
  {}

  lemma AddChallengeKeeps(db: Db, id: Id, row: Challenge)
    requires Guarded(db)
    requires row.link.Some? ==>
      && row.link.value in db.links && row.user == Some(db.links[row.link.value].user)
      && row.purpose == db.links[row.link.value].purpose
    ensures Guarded(db.(challenges := db.challenges[id := row]))
  {}

  lemma AddSessionKeeps(db: Db, id: Id, row: Session)
    requires Guarded(db) && Enabled(db.users, row.user)
    ensures Guarded(db.(sessions := db.sessions[id := row]))
  {}

  // Only the columns that Guarded reads matter.
  lemma SameColumns(db: Db, db': Db)
    requires Guarded(db)
    requires db'.users == db.users && db'.sessions == db.sessions && db'.links == db.links && db'.challenges == db.challenges
    ensures Guarded(db')
  {}

  lemma CleanupKeeps(db: Db, cut: Cutoffs, n: nat)
    requires Guarded(db)
    ensures Guarded(Cleanup(db, cut, n))
  {
    var after := Cleanup(db, cut, n);
    CleanLinksUnreferenced(db.links, after.challenges, cut.link, n);
    forall c | c in after.challenges && after.challenges[c].link.Some?
      ensures after.challenges[c].link.value in after.links
    {
      assert Referenced(after.challenges, after.challenges[c].link.value);
    }
  }

  // A cleanup removes only links that no challenge refers to.
  lemma CleanLinksUnreferenced(links: map<Id, Link>, ch: map<Id, Challenge>, cut: Time, n: nat)
    ensures var after := CleanLinks(links, ch, cut, n);
      && (forall l :: l in after ==> l in links && after[l] == links[l])
      && (forall l :: l in links && Referenced(ch, l) ==> l in after)
  {
    var a := links - Oldest(ConsumedLinks(links, ch, cut), n);
    var b := a - Oldest(RevokedLinks(a, ch, cut), n);
    assert forall l :: l in links && Referenced(ch, l) ==> l in a;
    assert forall l :: l in a && Referenced(ch, l) ==> l in b;
  }

  lemma RedeemKeeps(db: Db, r: Registration)
    requires Guarded(db) && Redeemable(db, r)
    ensures Guarded(Redeem(db, r))
  {
    RevokeLive(db.users, db.sessions, r.user, r.now);
    var head := RedeemLink(db, r);
    assert Guarded(head);
    if r.session.Some? && Enabled(db.users, r.user) {
      AddSessionKeeps(head, r.session.value.id, SessionRow(r.session.value, r.user, r.now));
    }
  }

  lemma RemoveUserKeeps(db: Db, u: Id)
    requires Guarded(db) && u in db.users && (db.users[u].isAdmin ==> OtherAdmin(db.users, u))
    ensures Guarded(RemoveUser(db, u)) && RemoveUser(db, u).users != map[]
  {
    var after := RemoveUser(db, u);
    assert exists v :: v in after.users && ActiveAdmin(after.users, v) by {
      assert OtherAdmin(db.users, u);
      var v :| v in db.users && v != u && ActiveAdmin(db.users, v);
      assert ActiveAdmin(after.users, v);
    }
  }

  // ----- Step by step -----

  lemma EnrollKeeps(db: Db, a: Action)
    requires Guarded(db) && (a.Enroll? || a.Bootstrap?)
    ensures Guarded(Perform(db, a).db)
  {
    hide Guarded;
    var after := Perform(db, a);
    if after.outcome == Done {
      var row := if a.Enroll? then UserRow(a.u, a.now) else UserRow(a.u, a.now).(isAdmin := true);
      var creator := if a.Enroll? then Some(a.actor) else None;
      AddUserKeeps(db, a.u.id, row);
      var grown := db.(users := db.users[a.u.id := row]);
      var link := Link(a.u.id, creator, Enrollment, a.l.token, a.l.expiresAt, None, None, a.now);
      AddLinkKeeps(grown, a.l.id, link);
      SameColumns(grown.(links := grown.links[a.l.id := link]), after.db);
    }
  }

  lemma LinkKeeps(db: Db, a: Action)
    requires Guarded(db) && (a.Recover? || a.OperatorRecover?)
    ensures Guarded(Perform(db, a).db)
  {
    hide Guarded;
    var after := Perform(db, a);
    if after.outcome == Done {
      var creator := if a.Recover? then Some(a.actor) else None;
      var link := Link(a.target, creator, Recovery, a.l.token, a.l.expiresAt, None, None, a.now);
      AddLinkKeeps(db, a.l.id, link);
      SameColumns(db.(links := db.links[a.l.id := link]), after.db);
    }
  }

  lemma IssueKeeps(db: Db, a: Action)
    requires Guarded(db) && (a.IssueAuth? || a.IssueAccess? || a.IssueRegistration?)
    ensures Guarded(Perform(db, a).db)
  {
    hide Guarded;
    match a
    case IssueAuth(c, now) =>
      if !ChallengeFails(db.challenges, c, now) {
        AddChallengeKeeps(db, c.id, Challenge(None, None, Authentication, c.hash, c.expiresAt, None, now));
      }
    case IssueAccess(link, c, now) =>
      if Issuable(db, link, now) && !ChallengeFails(db.challenges, c, now) {
        AddChallengeKeeps(db, c.id, LinkChallenge(db.links[link], link, c, now));
      }
    case IssueRegistration(user, l, c, now) =>
      if Enabled(db.users, user) {
        var row := Link(user, Some(user), Enrollment, l.token, l.expiresAt, None, None, now);
        if !LinkFails(db.links, l, now) && !ChallengeFails(db.challenges, c, now) {
          AddLinkKeeps(db, l.id, row);
          AddChallengeKeeps(db.(links := db.links[l.id := row]), c.id, LinkChallenge(row, l.id, c, now));
        }
      } else if OwnLink(db.links, l.id, user, now) && !ChallengeFails(db.challenges, c, now) {
        AddChallengeKeeps(db, c.id, LinkChallenge(db.links[l.id], l.id, c, now));
      }
  }

  lemma ConsumeKeeps(db: Db, a: Action)
    requires Guarded(db) && (a.ConsumeAuth? || a.ConsumeReg?)
    ensures Guarded(Perform(db, a).db)
  {}

  lemma CompleteAuthKeeps(db: Db, a: Action)
    requires Guarded(db) && a.CompleteAuth?
    ensures Guarded(Perform(db, a).db)
  {
    hide Guarded;
    var c, after := a.completion, Perform(db, a);
    if after.outcome == Done {
      AddSessionKeeps(db, c.session.id, SessionRow(c.session, c.user, c.now));
      SameColumns(db.(sessions := db.sessions[c.session.id := SessionRow(c.session, c.user, c.now)]), after.db);
    }
  }

  lemma CompleteRegKeeps(db: Db, r: Registration)
    requires Guarded(db)
    ensures Guarded(CompleteRegistration(db, r).db)
  {
    hide Guarded;
    var after := CompleteRegistration(db, r);
    if after.outcome == StorageFailure || r.proof.NoProof? {
    } else if Redeemable(db, r) {
      RedeemKeeps(db, r);
    } else if Mistaken(db, r) && r.session.Some? && Enabled(db.users, r.user) {
      var row := SessionRow(r.session.value, r.user, r.now);
      AddSessionKeeps(db, r.session.value.id, row);
      SameColumns(db.(sessions := db.sessions[r.session.value.id := row]), after.db);
    } else {
      SameColumns(db, after.db);
    }
  }

  lemma SessionKeeps(db: Db, a: Action)
    requires Guarded(db) && (a.SeeSession? || a.EndSession?)
    ensures Guarded(Perform(db, a).db)
  {}

  lemma EndLinkKeeps(db: Db, a: Action)
    requires Guarded(db) && a.EndLink?
    ensures Guarded(Perform(db, a).db)
  {}

  lemma DeleteKeeps(db: Db, a: Action)
    requires Guarded(db) && a.Delete?
    ensures Guarded(Perform(db, a).db)
    ensures db.users != map[] ==> Perform(db, a).db.users != map[]
  {
    hide Guarded;
    var after := Perform(db, a);
    if after.outcome == Done {
      var jobless := db.(reader := DropJobs(db.reader, JobsOf(db.reader.items, a.user)),
                         audits := db.audits[a.eventId := Audit(Some(a.user), Some(a.user), AccountDeleted, a.now)]);
      SameColumns(db, jobless);
      RemoveUserKeeps(jobless, a.user);
      SameColumns(RemoveUser(jobless, a.user), after.db);
    }
  }

  lemma OtherKeeps(db: Db, a: Action)
    requires Guarded(db) && (a.DropPasskey? || a.MakeToken? || a.EndToken? || a.Wipe?)
    ensures Guarded(Perform(db, a).db)
  {
    hide Guarded, DeletePasskey, CreateAppToken, RevokeAppToken, WipeReaderData;
    if a.DropPasskey? {
      DeletingKeyFrame(db, a.user, a.passkey, a.eventId, a.now);
    } else if a.Wipe? {
      WipingFrame(db, a.user, a.session, a.eventId, a.now);
    } else if a.MakeToken? {
      TokenFrame(db, a.user, a.id, a.token, a.fever, a.eventId, a.now);
    } else {
      TokenFrame(db, a.user, a.id, 0, None, a.eventId, a.now);
    }
    SameColumns(db, Perform(db, a).db);
  }

  predicate SameGuards(db: Db, after: Db) {
    after.users == db.users && after.sessions == db.sessions && after.links == db.links && after.challenges == db.challenges
  }

  lemma DeletingKeyFrame(db: Db, user: Id, passkey: Id, eventId: Id, now: Time)
    ensures SameGuards(db, DeletePasskey(db, user, passkey, eventId, now).db)
  {}

  lemma WipingFrame(db: Db, user: Id, session: Id, eventId: Id, now: Time)
    ensures SameGuards(db, WipeReaderData(db, user, session, eventId, now).db)
  {
    hide WipeReader;
  }

  lemma TokenFrame(db: Db, user: Id, id: Id, token: Hash, fever: Option<Hash>, eventId: Id, now: Time)
    ensures SameGuards(db, CreateAppToken(db, user, id, token, fever, eventId, now).db)
    ensures SameGuards(db, RevokeAppToken(db, user, id, eventId, now).db)
  {}

  lemma KeepsGuarded(db: Db, a: Action)
    requires Guarded(db)
    ensures Guarded(Perform(db, a).db)
  {
    hide Guarded;
    match a
    case Tick(_) =>
    case Clean(now) => CleanupKeeps(db, CutoffsAt(now), AUTH_CLEANUP_BATCH_SIZE);
    case CompleteAuth(_, _) => CompleteAuthKeeps(db, a);
    case CompleteReg(r) => CompleteRegKeeps(db, r);
    case EndLink(_, _, _, _) => EndLinkKeeps(db, a);
    case Lock(actor, target, e, now) => LockKeeps(db, actor, target, e, now);
    case Unlock(actor, target, e, now) => UnlockKeeps(db, actor, target, e, now);
    case Delete(_, _, _, _) => DeleteKeeps(db, a);
    case _ =>
      if a.IssueAuth? || a.IssueAccess? || a.IssueRegistration? {
        IssueKeeps(db, a);
      } else if a.ConsumeAuth? || a.ConsumeReg? {
        ConsumeKeeps(db, a);
      } else if a.SeeSession? || a.EndSession? {
        SessionKeeps(db, a);
      } else if a.Enroll? || a.Bootstrap? {
        EnrollKeeps(db, a);
      } else if a.Recover? || a.OperatorRecover? {
        LinkKeeps(db, a);
      } else {
        OtherKeeps(db, a);
      }
  }
}
