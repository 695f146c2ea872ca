/** Every step keeps the constraints that SQLite enforces: the rollbacks in Atomic cover every way in
    which one could fail. */
module Integrity {
  import opened Schema
  import opened Atomic
  import opened Retention
  import opened Protocol
  import Store

  // ----- Tables that lose rows, or keep them under unchanged keys -----

  lemma FewerChallenges(users: map<Id, User>, links: map<Id, Link>, ch: map<Id, Challenge>, gone: set<Id>)
    requires ChallengesOk(users, links, ch)
    ensures ChallengesOk(users, links, ch - gone)
  {}

  // Cleaning never removes a link that some remaining challenge refers to.
  lemma FewerLinks(users: map<Id, User>, links: map<Id, Link>, ch: map<Id, Challenge>, gone: set<Id>)
    requires LinksOk(users, links) && ChallengesOk(users, links, ch)
    requires forall l :: l in gone ==> !Referenced(ch, l)
    ensures LinksOk(users, links - gone) && ChallengesOk(users, links - gone, ch)
  {
    forall c | c in ch
      ensures ChallengeOk(users, links - gone, ch[c])
    {
      if ch[c].link.Some? {
        assert Referenced(ch, ch[c].link.value);
      }
    }
  }

  lemma FewerSessions(users: map<Id, User>, sessions: map<Id, Session>, gone: set<Id>)
    requires SessionsOk(users, sessions)
    ensures SessionsOk(users, sessions - gone)
  {}

  lemma FewerPasskeys(users: map<Id, User>, passkeys: map<Id, Passkey>, gone: set<Id>)
    requires PasskeysOk(users, passkeys)
    ensures PasskeysOk(users, passkeys - gone)
  {}

  lemma RevokedSessionsOk(users: map<Id, User>, sessions: map<Id, Session>, user: Id, now: Time)
    requires SessionsOk(users, sessions)
    ensures SessionsOk(users, RevokeSessions(sessions, user, now))
  {}

  lemma RevokedRowsOk(users: map<Id, User>, sessions: map<Id, Session>, hits: set<Id>, now: Time)
    requires SessionsOk(users, sessions)
    ensures SessionsOk(users, RevokeRows(sessions, hits, now))
  {}

  lemma RevokedLinkOk(users: map<Id, User>, links: map<Id, Link>, ch: map<Id, Challenge>, l: Id, now: Time)
    requires LinksOk(users, links) && ChallengesOk(users, links, ch) && l in links && Open(links[l])
    ensures var after := links[l := links[l].(revokedAt := Some(now))];
      LinksOk(users, after) && ChallengesOk(users, after, ch)
  {}

  lemma RevokedLinksOk(users: map<Id, User>, links: map<Id, Link>, user: Id, now: Time)
    requires LinksOk(users, links)
    ensures LinksOk(users, RevokeLinks(links, user, now))
  {}

  // The foreign keys ask only that the referenced keys are present.
  lemma SameParents(users: map<Id, User>, users': map<Id, User>, links: map<Id, Link>, links': map<Id, Link>, db: Db)
    requires Constraints(db) && users == db.users && links == db.links
    requires users.Keys <= users'.Keys && links.Keys <= links'.Keys
    ensures PasskeysOk(users', db.passkeys) && SessionsOk(users', db.sessions) && LinksOk(users', links)
    ensures ChallengesOk(users', links', db.challenges) && TokensOk(users', db.tokens)
    ensures AuditsOk(users', db.audits) && ReaderOk(users', db.reader)
  {}

  lemma CleanChallengesOk(db: Db, cut: Time, n: nat)
    requires ChallengesOk(db.users, db.links, db.challenges)
    ensures ChallengesOk(db.users, db.links, CleanChallenges(db.challenges, cut, n))
  {
    var gone := Oldest(ConsumedChallenges(db.challenges, cut), n);
    FewerChallenges(db.users, db.links, db.challenges, gone);
    var a := db.challenges - gone;
    FewerChallenges(db.users, db.links, a, Oldest(ExpiredChallenges(a, cut), n));
  }

  lemma CleanLinksOk(db: Db, cut: Time, n: nat)
    requires LinksOk(db.users, db.links) && ChallengesOk(db.users, db.links, db.challenges)
    ensures var links := CleanLinks(db.links, db.challenges, cut, n);
      LinksOk(db.users, links) && ChallengesOk(db.users, links, db.challenges)
  {
    var gone := Oldest(ConsumedLinks(db.links, db.challenges, cut), n);
    FewerLinks(db.users, db.links, db.challenges, gone);
    var a := db.links - gone;
    gone := Oldest(RevokedLinks(a, db.challenges, cut), n);
    FewerLinks(db.users, a, db.challenges, gone);
    var b := a - gone;
    FewerLinks(db.users, b, db.challenges, Oldest(ExpiredLinks(b, db.challenges, cut), n));
  }

  lemma CleanupOk(db: Db, cut: Cutoffs, n: nat)
    requires Constraints(db)
    ensures Constraints(Cleanup(db, cut, n))
  {
    CleanChallengesOk(db, cut.challenge, n);
    var db' := db.(challenges := CleanChallenges(db.challenges, cut.challenge, n));
    CleanLinksOk(db', cut.link, n);
    var a := db.sessions - Oldest(RevokedSessions(db.sessions, cut.revokedSession), n);
    FewerSessions(db.users, db.sessions, Oldest(RevokedSessions(db.sessions, cut.revokedSession), n));
    FewerSessions(db.users, a, Oldest(ExpiredSessions(a, cut.expiredSession), n));
  }

  // ----- Registration -----

  lemma PutPasskeyOk(users: map<Id, User>, passkeys: map<Id, Passkey>, id: Id, row: Passkey)
    requires PasskeysOk(users, passkeys) && row.user in users && row.createdAt <= row.updatedAt
    requires forall p :: p in passkeys && p != id ==> passkeys[p].credential != row.credential
    ensures PasskeysOk(users, passkeys[id := row])
  {}

  lemma PutSessionOk(users: map<Id, User>, sessions: map<Id, Session>, s: NewSession, user: Id, now: Time)
    requires SessionsOk(users, sessions) && user in users && !SessionFails(sessions, s, now)
    ensures SessionsOk(users, sessions[s.id := SessionRow(s, user, now)])
  {}

  lemma ConsumeLinkOk(users: map<Id, User>, links: map<Id, Link>, ch: map<Id, Challenge>, l: Id, now: Time)
    requires LinksOk(users, links) && ChallengesOk(users, links, ch) && l in links && Open(links[l])
    ensures var after := links[l := links[l].(consumedAt := Some(now))];
      LinksOk(users, after) && ChallengesOk(users, after, ch)
  {}

  lemma PutLinkOk(users: map<Id, User>, links: map<Id, Link>, ch: map<Id, Challenge>, l: NewLink, row: Link)
    requires LinksOk(users, links) && ChallengesOk(users, links, ch) && LinkOk(users, row)
    requires row.token == l.token && !LinkFails(links, l, row.createdAt)
    ensures LinksOk(users, links[l.id := row]) && ChallengesOk(users, links[l.id := row], ch)
  {}

  lemma PutChallengeOk(users: map<Id, User>, links: map<Id, Link>, ch: map<Id, Challenge>, id: Id, row: Challenge)
    requires ChallengesOk(users, links, ch) && ChallengeOk(users, links, row)
    requires forall c :: c in ch && c != id ==> ch[c].hash != row.hash
    ensures ChallengesOk(users, links, ch[id := row])
  {}

  lemma PutAuditOk(users: map<Id, User>, audits: map<Id, Audit>, id: Id, row: Audit)
    requires AuditsOk(users, audits) && AuditOk(users, row)
    ensures AuditsOk(users, audits[id := row])
  {}

  lemma PutUserOk(db: Db, id: Id, row: User)
    requires Constraints(db)
    requires forall u :: u in db.users && u != id ==> db.users[u].username != row.username && db.users[u].email != row.email
    ensures Constraints(db.(users := db.users[id := row]))
  {
    SameParents(db.users, db.users[id := row], db.links, db.links, db);
  }

  lemma AdvanceOk(users: map<Id, User>, passkeys: map<Id, Passkey>, a: Completion)
    requires PasskeysOk(users, passkeys) && !Predates(passkeys, CounterHits(users, passkeys, a), a.now)
    ensures PasskeysOk(users, Advance(passkeys, CounterHits(users, passkeys, a), a))
  {}

  lemma CompleteAuthOk(db: Db, a: Completion)
    requires Constraints(db)
    ensures Constraints(CompleteAuthentication(db, a).db)
  {
    var hits := CounterHits(db.users, db.passkeys, a);
    if hits != {} && !Predates(db.passkeys, hits, a.now) && !SessionFails(db.sessions, a.session, a.now) {
      AdvanceOk(db.users, db.passkeys, a);
      PutSessionOk(db.users, db.sessions, a.session, a.user, a.now);
      PutAuditOk(db.users, db.audits, a.eventId, Audit(Some(a.user), Some(a.user), AuthenticationSucceeded, a.now));
    }
  }

  lemma IssueRegistrationOk(db: Db, user: Id, l: NewLink, c: NewChallenge, now: Time)
    requires Constraints(db)
    ensures Constraints(IssueRegistrationChallenge(db, user, l, c, now).db)
  {
    if ChallengeFails(db.challenges, c, now) {
    } else if Enabled(db.users, user) {
      if !LinkFails(db.links, l, now) {
        var row := Link(user, Some(user), Enrollment, l.token, l.expiresAt, None, None, now);
        PutLinkOk(db.users, db.links, db.challenges, l, row);
        PutChallengeOk(db.users, db.links[l.id := row], db.challenges, c.id, LinkChallenge(row, l.id, c, now));
      }
    } else if OwnLink(db.links, l.id, user, now) {
      PutChallengeOk(db.users, db.links, db.challenges, c.id, LinkChallenge(db.links[l.id], l.id, c, now));
    }
  }

  lemma RegistrationTailOk(db: Db, sessions: map<Id, Session>, r: Registration)
    requires SessionsOk(db.users, sessions) && AuditsOk(db.users, db.audits) && r.user in db.users
    ensures AuditsOk(db.users, db.audits[r.eventId := RegistrationAudit(r)])
    ensures r.session.Some? && !SessionFails(sessions, r.session.value, r.now) ==>
      SessionsOk(db.users, sessions[r.session.value.id := SessionRow(r.session.value, r.user, r.now)])
  {}

  lemma RedeemOk(db: Db, r: Registration)
    requires Constraints(db) && Redeemable(db, r)
    requires !PasskeyClash(db.passkeys, r.passkey.id, r.passkey.credential)
    requires r.session.Some? && Enabled(db.users, r.user) ==> !SessionFails(db.sessions, r.session.value, r.now)
    ensures Constraints(Redeem(db, r))
  {
    PutPasskeyOk(db.users, db.passkeys, r.passkey.id, NewPasskeyRow(r));
    ConsumeLinkOk(db.users, db.links, db.challenges, r.link, r.now);
    RevokedSessionsOk(db.users, db.sessions, r.user, r.now);
    if r.session.Some? {
      Store.RevokeKeepsKeys(db.sessions, r.user, r.now, r.session.value);
    }
    RegistrationTailOk(db, RedeemLink(db, r).sessions, r);
  }

  lemma CompleteRegistrationOk(db: Db, r: Registration)
    requires Constraints(db)
    ensures Constraints(CompleteRegistration(db, r).db)
  {
    if Redeemable(db, r) {
      if CompleteRegistration(db, r).outcome != StorageFailure && !r.proof.NoProof? {
        RedeemOk(db, r);
      }
    } else if Mistaken(db, r) {
      RegistrationTailOk(db, db.sessions, r);
    }
  }

  lemma DropPasskeyOk(db: Db, user: Id, passkey: Id, eventId: Id, now: Time)
    requires Constraints(db)
    ensures Constraints(DeletePasskey(db, user, passkey, eventId, now).db)
  {
    var after := DeletePasskey(db, user, passkey, eventId, now);
    if after.outcome == Done {
      FewerPasskeys(db.users, db.passkeys, {passkey});
      PutAuditOk(db.users, db.audits, eventId, Audit(Some(user), Some(user), PasskeyDeleted, now));
    } else if after.outcome == InvariantError {
      FewerPasskeys(db.users, db.passkeys, {passkey});
    } else {
      assert after.db == db;
    }
  }

  lemma LockOk(db: Db, actor: Id, target: Id, eventId: Id, now: Time)
    requires Constraints(db)
    ensures Constraints(Disable(db, actor, target, eventId, now).db)
  {
    RevokedSessionsOk(db.users, db.sessions, target, now);
    RevokedLinksOk(db.users, db.links, target, now);
    var locked := db.(sessions := RevokeSessions(db.sessions, target, now), links := RevokeLinks(db.links, target, now));
    SameParents(db.users, db.users, db.links, locked.links, db);
    if Disable(db, actor, target, eventId, now).outcome == Done {
      PutUserOk(locked, target, db.users[target].(disabledAt := Some(now)));
      PutAuditOk(db.users[target := db.users[target].(disabledAt := Some(now))], db.audits, eventId,
                 Audit(Some(target), Some(actor), Disabled, now));
    }
  }

  lemma UnlockOk(db: Db, actor: Id, target: Id, eventId: Id, now: Time)
    requires Constraints(db)
    ensures Constraints(Reactivate(db, actor, target, eventId, now).db)
  {
    if Reactivate(db, actor, target, eventId, now).outcome == Done {
      PutUserOk(db, target, db.users[target].(disabledAt := None));
      PutAuditOk(db.users[target := db.users[target].(disabledAt := None)], db.audits, eventId,
                 Audit(Some(target), Some(actor), Reactivated, now));
    }
  }

  // ----- New users and links -----

  lemma EnrolledOk(db: Db, u: NewUser, row: User, l: NewLink, link: Link, eventId: Id, audit: Audit)
    requires Constraints(db) && !UserClash(db.users, u.id, row.username, row.email)
    requires LinkOk(db.users[u.id := row], link) && link.token == l.token && !LinkFails(db.links, l, link.createdAt)
    requires AuditOk(db.users[u.id := row], audit)
    ensures Constraints(db.(users := db.users[u.id := row], links := db.links[l.id := link], audits := db.audits[eventId := audit]))
  {
    PutUserOk(db, u.id, row);
    var users := db.users[u.id := row];
    PutLinkOk(users, db.links, db.challenges, l, link);
    PutAuditOk(users, db.audits, eventId, audit);
  }

  lemma LinkedOk(db: Db, l: NewLink, link: Link, eventId: Id, audit: Audit)
    requires Constraints(db) && LinkOk(db.users, link) && link.token == l.token && !LinkFails(db.links, l, link.createdAt)
    requires AuditOk(db.users, audit)
    ensures Constraints(db.(links := db.links[l.id := link], audits := db.audits[eventId := audit]))
  {
    PutLinkOk(db.users, db.links, db.challenges, l, link);
    PutAuditOk(db.users, db.audits, eventId, audit);
  }

  lemma EnrollOk(db: Db, actor: Id, u: NewUser, l: NewLink, eventId: Id, now: Time)
    requires Constraints(db)
    ensures Constraints(CreateEnrollmentLink(db, actor, u, l, eventId, now).db)
  {
    if CreateEnrollmentLink(db, actor, u, l, eventId, now).outcome == Done {
      EnrolledOk(db, u, UserRow(u, now), l, Link(u.id, Some(actor), Enrollment, l.token, l.expiresAt, None, None, now),
                 eventId, Audit(Some(u.id), Some(actor), EnrollmentCreated, now));
    }
  }

  lemma BootstrapOk(db: Db, u: NewUser, l: NewLink, eventId: Id, now: Time)
    requires Constraints(db)
    ensures Constraints(InitialAdmin(db, u, l, eventId, now).db)
  {
    if InitialAdmin(db, u, l, eventId, now).outcome == Done {
      EnrolledOk(db, u, UserRow(u, now).(isAdmin := true), l,
                 Link(u.id, None, Enrollment, l.token, l.expiresAt, None, None, now),
                 eventId, Audit(Some(u.id), None, OperatorEnrollment, now));
    }
  }

  lemma RecoverOk(db: Db, actor: Id, target: Id, l: NewLink, eventId: Id, now: Time)
    requires Constraints(db)
    ensures Constraints(CreateRecoveryLink(db, actor, target, l, eventId, now).db)
  {
    if CreateRecoveryLink(db, actor, target, l, eventId, now).outcome == Done {
      LinkedOk(db, l, Link(target, Some(actor), Recovery, l.token, l.expiresAt, None, None, now),
               eventId, Audit(Some(target), Some(actor), RecoveryCreated, now));
    }
  }

  lemma OperatorRecoverOk(db: Db, target: Id, l: NewLink, eventId: Id, now: Time)
    requires Constraints(db)
    ensures Constraints(OperatorRecoveryLink(db, target, l, eventId, now).db)
  {
    if OperatorRecoveryLink(db, target, l, eventId, now).outcome == Done {
      LinkedOk(db, l, Link(target, None, Recovery, l.token, l.expiresAt, None, None, now),
               eventId, Audit(Some(target), None, OperatorRecovery, now));
    }
  }

  lemma IssueAuthOk(db: Db, c: NewChallenge, now: Time)
    requires Constraints(db)
    ensures Constraints(IssueAuthenticationChallenge(db, c, now).db)
  {
    if !ChallengeFails(db.challenges, c, now) {
      PutChallengeOk(db.users, db.links, db.challenges, c.id,
                     Challenge(None, None, Authentication, c.hash, c.expiresAt, None, now));
    }
  }

  lemma IssueAccessOk(db: Db, link: Id, c: NewChallenge, now: Time)
    requires Constraints(db)
    ensures Constraints(IssueAccessChallenge(db, link, c, now).db)
  {
    if Issuable(db, link, now) && !ChallengeFails(db.challenges, c, now) {
      PutChallengeOk(db.users, db.links, db.challenges, c.id, LinkChallenge(db.links[link], link, c, now));
    }
  }

  lemma ConsumeOk(db: Db, c: Id, now: Time)
    requires Constraints(db) && c in db.challenges
    ensures Constraints(db.(challenges := Consume(db.challenges, c, now)))
  {
    PutChallengeOk(db.users, db.links, db.challenges, c, db.challenges[c].(consumedAt := Some(now)));
  }

  lemma TokensStayOk(users: map<Id, User>, tokens: map<Id, AppToken>, id: Id, row: AppToken)
    requires TokensOk(users, tokens) && row.user in users
    requires forall t :: t in tokens && t != id ==>
      tokens[t].token != row.token && (row.fever.Some? ==> tokens[t].fever != row.fever)
    ensures TokensOk(users, tokens[id := row])
  {}

  // ----- Reader data and account deletion -----

  lemma DropJobsOk(users: map<Id, User>, r: Reader, u: Id)
    requires ReaderOk(users, r)
    ensures ReaderOk(users, DropJobs(r, JobsOf(r.items, u)))
  {}

  lemma WithoutReaderOf(users: map<Id, User>, r: Reader, u: Id)
    requires ReaderOk(users, r)
    ensures ReaderOk(users - {u}, ReaderWithout(r, u))
  {}

  lemma DropOrphansOk(users: map<Id, User>, r: Reader)
    requires ReaderOk(users, r)
    ensures ReaderOk(users, DropOrphanFeeds(r))
  {
    assert forall k :: k in r.subs ==> Subscribed(r, k.1);
  }

  lemma WipeOk(db: Db, user: Id, session: Id, eventId: Id, now: Time)
    requires Constraints(db)
    ensures Constraints(WipeReaderData(db, user, session, eventId, now).db)
  {
    DropJobsOk(db.users, db.reader, user);
    var jobless := DropJobs(db.reader, JobsOf(db.reader.items, user));
    WithoutReaderOf(db.users, jobless, user);
    var bare := ReaderWithout(jobless, user);
    assert ReaderOk(db.users, bare);
    DropOrphansOk(db.users, bare);
    if Enabled(db.users, user) {
      PutAuditOk(db.users, db.audits, eventId, Audit(Some(user), Some(user), ReaderWiped, now));
    }
  }

  lemma RemovedRowsOk(db: Db, u: Id)
    requires UsersOk(db.users) && PasskeysOk(db.users, db.passkeys) && SessionsOk(db.users, db.sessions)
    requires TokensOk(db.users, db.tokens) && AuditsOk(db.users, db.audits)
    ensures var users := db.users - {u};
      && UsersOk(users) && PasskeysOk(users, PasskeysWithout(db.passkeys, u))
      && SessionsOk(users, SessionsWithout(db.sessions, u))
      && TokensOk(users, TokensWithout(db.tokens, u)) && AuditsOk(users, AuditsWithout(db.audits, u))
  {}

  lemma RemovedLinksOk(db: Db, u: Id)
    requires LinksOk(db.users, db.links) && ChallengesOk(db.users, db.links, db.challenges)
    ensures var users, links := db.users - {u}, LinksWithout(db.links, u);
      LinksOk(users, links) && ChallengesOk(users, links, ChallengesWithout(db.challenges, db.links, u))
  {}

  lemma RemoveUserOk(db: Db, u: Id)
    requires Constraints(db)
    ensures Constraints(RemoveUser(db, u))
  {
    RemovedRowsOk(db, u);
    RemovedLinksOk(db, u);
    WithoutReaderOf(db.users, db.reader, u);
  }

  lemma DeleteOk(db: Db, user: Id, session: Id, eventId: Id, now: Time)
    requires Constraints(db)
    ensures Constraints(DeleteAccount(db, user, session, eventId, now).db)
  {
    if DeleteAccount(db, user, session, eventId, now).outcome == Done {
      DropJobsOk(db.users, db.reader, user);
      PutAuditOk(db.users, db.audits, eventId, Audit(Some(user), Some(user), AccountDeleted, now));
      var jobless := db.(reader := DropJobs(db.reader, JobsOf(db.reader.items, user)),
                         audits := db.audits[eventId := Audit(Some(user), Some(user), AccountDeleted, now)]);
      RemoveUserOk(jobless, user);
      var removed := RemoveUser(jobless, user);
      DropOrphansOk(removed.users, removed.reader);
    }
  }

  // ----- The remaining single-row updates, and all steps together -----

  lemma SeeSessionOk(db: Db, a: Action)
    requires Constraints(db) && a.SeeSession?
    ensures Constraints(Perform(db, a).db)
  {}

  lemma EndSessionOk(db: Db, a: Action)
    requires Constraints(db) && a.EndSession?
    ensures Constraints(Perform(db, a).db)
  {
    var hits := Unrevoked(db.sessions, a.token);
    if hits != {} && a.eventId !in db.audits {
      RevokedRowsOk(db.users, db.sessions, hits, a.now);
      var owner := Some(Owner(db.sessions, hits));
      PutAuditOk(db.users, db.audits, a.eventId, Audit(owner, owner, SessionRevoked, a.now));
    }
  }

  lemma EndLinkOk(db: Db, a: Action)
    requires Constraints(db) && a.EndLink?
    ensures Constraints(Perform(db, a).db)
  {
    if Perform(db, a).outcome == Done {
      var l := db.links[a.link];
      RevokedLinkOk(db.users, db.links, db.challenges, a.link, a.now);
      PutAuditOk(db.users, db.audits, a.eventId, Audit(Some(l.user), Some(a.actor), LinkRevoked, a.now));
    }
  }

  lemma MakeTokenOk(db: Db, a: Action)
    requires Constraints(db) && a.MakeToken?
    ensures Constraints(Perform(db, a).db)
  {
    if Perform(db, a).outcome == Done {
      TokensStayOk(db.users, db.tokens, a.id, AppToken(a.user, a.token, a.fever, None, a.now));
      PutAuditOk(db.users, db.audits, a.eventId, Audit(Some(a.user), Some(a.user), TokenCreated, a.now));
    }
  }

  lemma EndTokenOk(db: Db, a: Action)
    requires Constraints(db) && a.EndToken?
    ensures Constraints(Perform(db, a).db)
  {
    if Perform(db, a).outcome == Done {
      TokensStayOk(db.users, db.tokens, a.id, db.tokens[a.id].(revokedAt := Some(a.now)));
      PutAuditOk(db.users, db.audits, a.eventId, Audit(Some(a.user), Some(a.user), TokenRevoked, a.now));
    }
  }

  lemma ConsumeStepOk(db: Db, a: Action)
    requires Constraints(db) && (a.ConsumeAuth? || a.ConsumeReg?)
    ensures Constraints(Perform(db, a).db)
  {
    if Perform(db, a).outcome == Done {
      ConsumeOk(db, a.challenge, a.now);
    }
  }

  lemma CeremonyStepOk(db: Db, a: Action)
    requires Constraints(db) && Ceremony(a)
    ensures Constraints(Perform(db, a).db)
  {
    hide Constraints;
    match a
    case IssueAuth(c, now) => IssueAuthOk(db, c, now);
    case ConsumeAuth(_, _, _) => ConsumeStepOk(db, a);
    case CompleteAuth(_, completion) => CompleteAuthOk(db, completion);
    case IssueAccess(link, c, now) => IssueAccessOk(db, link, c, now);
    case IssueRegistration(user, l, c, now) => IssueRegistrationOk(db, user, l, c, now);
    case ConsumeReg(_, _, _) => ConsumeStepOk(db, a);
    case CompleteReg(r) => CompleteRegistrationOk(db, r);
  }

  lemma AdminStepOk(db: Db, a: Action)
    requires Constraints(db) && (a.Enroll? || a.Recover? || a.EndLink? || a.Bootstrap? || a.OperatorRecover? || a.Lock? || a.Unlock?)
    ensures Constraints(Perform(db, a).db)
  {
    hide Constraints;
    match a
    case Enroll(actor, u, l, e, now) => EnrollOk(db, actor, u, l, e, now);
    case Recover(actor, target, l, e, now) => RecoverOk(db, actor, target, l, e, now);
    case EndLink(_, _, _, _) => EndLinkOk(db, a);
    case Bootstrap(u, l, e, now) => BootstrapOk(db, u, l, e, now);
    case OperatorRecover(target, l, e, now) => OperatorRecoverOk(db, target, l, e, now);
    case Lock(actor, target, e, now) => LockOk(db, actor, target, e, now);
    case Unlock(actor, target, e, now) => UnlockOk(db, actor, target, e, now);
  }

  lemma KeepsConstraints(db: Db, a: Action)
    requires Constraints(db)
    ensures Constraints(Perform(db, a).db)
  {
    hide Constraints;
    match a
    case Tick(_) =>
    case Clean(now) => CleanupOk(db, CutoffsAt(now), AUTH_CLEANUP_BATCH_SIZE);
    case SeeSession(_, _) => SeeSessionOk(db, a);
    case EndSession(_, _, _) => EndSessionOk(db, a);
    case DropPasskey(user, p, e, now) => DropPasskeyOk(db, user, p, e, now);
    case MakeToken(_, _, _, _, _, _) => MakeTokenOk(db, a);
    case EndToken(_, _, _, _) => EndTokenOk(db, a);
    case Wipe(user, s, e, now) => WipeOk(db, user, s, e, now);
    case Delete(user, s, e, now) => DeleteOk(db, user, s, e, now);
    case _ => if Ceremony(a) { CeremonyStepOk(db, a); } else { AdminStepOk(db, a); }
  }
}
