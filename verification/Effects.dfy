/** What each step does, told on the rows alone: exactly when it succeeds, and every row it writes.
    Nothing here is said in the terms of the definitions in Atomic, which it therefore checks. */
module Effects {
  import opened Schema
  import opened Atomic
  import opened Retention
  import opened Protocol
  import Isolation
  import Sweeping

  // ----- Vocabulary -----

  ghost predicate Active(db: Db, u: Id) {
    u in db.users && db.users[u].disabledAt == None
  }

  ghost predicate Administers(db: Db, u: Id) {
    Active(db, u) && db.users[u].isAdmin
  }

  ghost predicate SoleAdministrator(db: Db, u: Id) {
    Administers(db, u) && forall v :: v in db.users && v != u ==> !Administers(db, v)
  }

  ghost predicate LinkGood(l: Link, now: Time) {
    l.consumedAt == None && l.revokedAt == None && now < l.expiresAt
  }

  // The caller knows the secret of the link, or is signed in as the user who made it for himself.
  ghost predicate Entitles(l: Link, proof: Proof) {
    && !proof.NoProof?
    && (proof.ByToken? ==> l.token == proof.token)
    && (proof.ByUser? ==> l.user == proof.user && l.createdBy == Some(proof.user))
  }

  ghost predicate SessionFits(db: Db, s: NewSession, now: Time) {
    s.id !in db.sessions && (forall t :: t in db.sessions ==> db.sessions[t].token != s.token) && now < s.expiresAt
  }

  ghost predicate LinkFits(db: Db, l: NewLink, now: Time) {
    l.id !in db.links && (forall m :: m in db.links ==> db.links[m].token != l.token) && now < l.expiresAt
  }

  ghost predicate ChallengeFits(db: Db, c: NewChallenge, now: Time) {
    c.id !in db.challenges && (forall d :: d in db.challenges ==> db.challenges[d].hash != c.hash) && now < c.expiresAt
  }

  ghost predicate PasskeyFits(db: Db, p: NewPasskey) {
    p.id !in db.passkeys && forall q :: q in db.passkeys ==> db.passkeys[q].credential != p.credential
  }

  ghost predicate UserFits(db: Db, u: NewUser) {
    u.id !in db.users && forall v :: v in db.users ==> db.users[v].username != u.username && db.users[v].email != u.email
  }

  // ----- Challenges -----

  lemma IssuesChallenge(db: Db, c: NewChallenge, now: Time)
    ensures var after := Perform(db, IssueAuth(c, now));
      && (after.outcome == Done <==> ChallengeFits(db, c, now))
      && (after.outcome == Done ==>
            after.db == db.(challenges := db.challenges[c.id := Challenge(None, None, Authentication, c.hash, c.expiresAt, None, now)]))
      && (after.outcome != Done ==> after == Step(db, StorageFailure))
  {}

  lemma IssuesForLink(db: Db, link: Id, c: NewChallenge, now: Time)
    ensures var after := Perform(db, IssueAccess(link, c, now));
      && (after.outcome == AccessLinkInvalid <==>
            !(link in db.links && LinkGood(db.links[link], now) && Active(db, db.links[link].user)))
      && after.outcome in {Done, AccessLinkInvalid, StorageFailure}
      && (after.outcome == Done <==> after.outcome != AccessLinkInvalid && ChallengeFits(db, c, now))
      && (after.outcome == Done ==>
            after.db == db.(challenges := db.challenges[c.id :=
              Challenge(Some(db.links[link].user), Some(link), db.links[link].purpose, c.hash, c.expiresAt, None, now)]))
      && (after.outcome != Done ==> after.db == db)
  {}

  // A challenge to sign in is consumed exactly when it is unconsumed and unexpired and an enabled user has
  // the passkey that was presented.
  lemma ConsumesToSignIn(db: Db, c: Id, credential: Hash, now: Time)
    ensures var after := Perform(db, ConsumeAuth(c, credential, now));
      && (after.outcome == Done <==>
            && c in db.challenges && db.challenges[c].purpose == Authentication
            && db.challenges[c].consumedAt == None && now < db.challenges[c].expiresAt
            && exists p :: p in db.passkeys && db.passkeys[p].credential == credential && Active(db, db.passkeys[p].user))
      && (after.outcome == Done ==>
            after.db == db.(challenges := db.challenges[c := db.challenges[c].(consumedAt := Some(now))]))
      && (after.outcome != Done ==> after == Step(db, AuthenticationFailed))
  {
    assert PasskeysOf(db.users, db.passkeys, credential) != {} <==>
      exists p :: p in db.passkeys && db.passkeys[p].credential == credential && Active(db, db.passkeys[p].user) by {
      if p :| p in db.passkeys && db.passkeys[p].credential == credential && Active(db, db.passkeys[p].user) {
        assert p in PasskeysOf(db.users, db.passkeys, credential);
      }
    }
    hide PasskeysOf;
  }

  // A challenge to register is consumed exactly when it is unconsumed and unexpired, its link is open and
  // unexpired and belongs to an enabled user, and the caller is entitled to that link.
  lemma ConsumesToRegister(db: Db, c: Id, proof: Proof, now: Time)
    requires ChallengeOwnersOk(db.links, db.challenges)
    ensures var after := Perform(db, ConsumeReg(c, proof, now));
      && (after.outcome == Done <==>
            && c in db.challenges && db.challenges[c].consumedAt == None && now < db.challenges[c].expiresAt
            && db.challenges[c].link != None
            && var l := db.links[db.challenges[c].link.value];
               LinkGood(l, now) && Active(db, l.user) && Entitles(l, proof))
      && (after.outcome == Done ==>
            after.db == db.(challenges := db.challenges[c := db.challenges[c].(consumedAt := Some(now))]))
      && (after.outcome != Done ==> after == Step(db, if proof.ByToken? then AccessLinkInvalid else Forbidden))
  {}

  // ----- Signing in -----

  // The passkey that the request read: same credential, same user, same counter.
  ghost predicate Presented(db: Db, p: Id, c: Completion) {
    && p in db.passkeys && db.passkeys[p].credential == c.credential && db.passkeys[p].user == c.user
    && db.passkeys[p].signCount == c.readCount && Active(db, c.user)
  }

  // Signing in succeeds exactly when the passkey read before is still as it was and its user is enabled,
  // whatever the new counter; a counter that stays at zero is as good as any.
  lemma SignsIn(db: Db, challenge: Id, c: Completion)
    requires PasskeysOk(db.users, db.passkeys)
    ensures var after := Perform(db, CompleteAuth(challenge, c));
      && after.outcome in {Done, AuthenticationFailed, StorageFailure}
      && (after.outcome == AuthenticationFailed <==> !exists p: Id :: Presented(db, p, c))
      && (after.outcome == Done <==>
            && (exists p: Id :: Presented(db, p, c) && db.passkeys[p].createdAt <= c.now)
            && SessionFits(db, c.session, c.now) && c.eventId !in db.audits)
      && (after.outcome != Done ==> after.db == db)
      && (after.outcome == Done ==> forall p: Id :: Presented(db, p, c) ==>
            after.db == db.(
              passkeys := db.passkeys[p := Passkey(c.user, c.credential, c.newCount, c.backedUp, Some(c.now), db.passkeys[p].createdAt, c.now)],
              sessions := db.sessions[c.session.id := Session(c.user, c.session.token, c.session.expiresAt, c.now, None, c.now)],
              audits := db.audits[c.eventId := Audit(Some(c.user), Some(c.user), AuthenticationSucceeded, c.now)]))
  {
    PresentedIsHit(db, c);
    hide CounterHits, Advance, PasskeysOk;
  }

  lemma PresentedIsHit(db: Db, c: Completion)
    requires PasskeysOk(db.users, db.passkeys)
    ensures var hits := CounterHits(db.users, db.passkeys, c);
      && (forall p :: p in hits <==> Presented(db, p, c))
      && (forall p: Id :: Presented(db, p, c) ==>
            && hits == {p}
            && Advance(db.passkeys, hits, c) == db.passkeys[p :=
                 Passkey(c.user, c.credential, c.newCount, c.backedUp, Some(c.now), db.passkeys[p].createdAt, c.now)])
  {}

  // ----- Registering -----

  // The link is good, is the one the caller means, and the caller is entitled to it.
  ghost predicate Redeems(db: Db, r: Registration) {
    && r.link in db.links && LinkGood(db.links[r.link], r.now) && Entitles(db.links[r.link], r.proof)
    && db.links[r.link].user == r.user && db.links[r.link].purpose == r.purpose
  }

  // The sessions of before, with those of the user that were not revoked now revoked if `all` is set.
  ghost predicate SessionsThen(before: map<Id, Session>, after: map<Id, Session>, u: Id, all: bool, now: Time) {
    forall s :: s in before ==>
      s in after && after[s] == if all && before[s].user == u && before[s].revokedAt == None then before[s].(revokedAt := Some(now)) else before[s]
  }

  // A registration succeeds exactly when the caller is entitled to an open and unexpired link of the user
  // and purpose he means, and stores that passkey; a recovery revokes every session the user had.
  lemma Registers(db: Db, r: Registration)
    requires OpenLinksOk(db.users, db.links)
    ensures var after := Perform(db, CompleteReg(r));
      && (after.outcome == Done <==>
            && Redeems(db, r) && PasskeyFits(db, r.passkey) && r.eventId !in db.audits
            && (r.session.Some? ==> SessionFits(db, r.session.value, r.now)))
      && (after.outcome == Done ==>
            && after.db == db.(passkeys := after.db.passkeys, links := after.db.links, sessions := after.db.sessions, audits := after.db.audits)
            && after.db.passkeys == db.passkeys[r.passkey.id :=
                 Passkey(r.user, r.passkey.credential, r.passkey.signCount, r.passkey.backedUp, None, r.now, r.now)]
            && after.db.links == db.links[r.link := db.links[r.link].(consumedAt := Some(r.now))]
            && after.db.audits == db.audits[r.eventId :=
                 Audit(Some(r.user), Some(r.user), if r.purpose == Recovery then RecoveryCompleted else PasskeyRegistered, r.now)]
            && after.db.sessions.Keys == db.sessions.Keys + (if r.session.Some? then {r.session.value.id} else {})
            && SessionsThen(db.sessions, after.db.sessions, r.user, r.purpose == Recovery, r.now)
            && (r.session.Some? ==>
                  after.db.sessions[r.session.value.id] == Session(r.user, r.session.value.token, r.session.value.expiresAt, r.now, None, r.now)))
      && (after.outcome != Done && Redeems(db, r) ==> after == Step(db, StorageFailure))
  {
    if Redeems(db, r) {
      assert Redeemable(db, r) && Active(db, r.user);
      if r.session.Some? ==> r.session.value.id !in db.sessions { RedeemsRows(db, r); }
      hide Redeem, RefusedRegistration;
    } else {
      RefusedToRegister(db, r);
      hide RefusedRegistration, Redeem;
    }
  }

  // Refused, it stores no passkey and consumes no link.  But if the link was consumed in this very
  // millisecond it opens the session all the same, and records a passkey of that id that the user has.
  lemma RefusedToRegister(db: Db, r: Registration)
    requires !Redeems(db, r)
    ensures var after := Perform(db, CompleteReg(r));
      var claims := !r.proof.NoProof? && r.link in db.links && db.links[r.link].user == r.user && db.links[r.link].consumedAt == Some(r.now);
      var opens := claims && r.session.Some? && Active(db, r.user);
      var records := claims && r.passkey.id in db.passkeys && db.passkeys[r.passkey.id].user == r.user;
      && (after.outcome == StorageFailure <==> (opens && !SessionFits(db, r.session.value, r.now)) || (records && r.eventId in db.audits))
      && (after.outcome == StorageFailure ==> after.db == db)
      && (after.outcome != StorageFailure ==>
            && after.outcome == (if r.proof.ByToken? then AccessLinkInvalid else Forbidden)
            && after.db == db.(
                 sessions := if opens
                   then db.sessions[r.session.value.id := Session(r.user, r.session.value.token, r.session.value.expiresAt, r.now, None, r.now)]
                   else db.sessions,
                 audits := if records
                   then db.audits[r.eventId := Audit(Some(r.user), Some(r.user), if r.purpose == Recovery then RecoveryCompleted else PasskeyRegistered, r.now)]
                   else db.audits))
  {
    assert !Redeemable(db, r) || r.proof.NoProof?;
    if r.session.Some? { SessionFitsOrFails(db, r.session.value, r.now); }
    hide Redeem, Redeemable, SessionFails, SessionFits;
  }

  lemma SessionFitsOrFails(db: Db, s: NewSession, now: Time)
    ensures SessionFits(db, s, now) <==> !SessionFails(db.sessions, s, now)
  {}

  lemma RedeemsRows(db: Db, r: Registration)
    requires r.link in db.links && Active(db, r.user)
    requires r.session.Some? ==> r.session.value.id !in db.sessions
    ensures var after := Redeem(db, r);
      && after == db.(passkeys := after.passkeys, links := after.links, sessions := after.sessions, audits := after.audits)
      && after.passkeys == db.passkeys[r.passkey.id :=
           Passkey(r.user, r.passkey.credential, r.passkey.signCount, r.passkey.backedUp, None, r.now, r.now)]
      && after.links == db.links[r.link := db.links[r.link].(consumedAt := Some(r.now))]
      && after.audits == db.audits[r.eventId :=
           Audit(Some(r.user), Some(r.user), if r.purpose == Recovery then RecoveryCompleted else PasskeyRegistered, r.now)]
      && after.sessions.Keys == db.sessions.Keys + (if r.session.Some? then {r.session.value.id} else {})
      && SessionsThen(db.sessions, after.sessions, r.user, r.purpose == Recovery, r.now)
      && (r.session.Some? ==>
            after.sessions[r.session.value.id] == Session(r.user, r.session.value.token, r.session.value.expiresAt, r.now, None, r.now))
  {}

  // ----- Sessions -----

  // Seven days without an access, counted from the stored time, end a session.
  lemma FindsSession(db: Db, token: Hash, now: Time, idle: Time, s: Id)
    ensures s in FindSession(db, token, now, idle) <==>
      && s in db.sessions && db.sessions[s].token == token && db.sessions[s].revokedAt == None
      && now < db.sessions[s].expiresAt && idle < db.sessions[s].lastSeenAt && Active(db, db.sessions[s].user)
    ensures idle == now - SESSION_IDLE_TIMEOUT_MS ==>
      forall t :: t in db.sessions ==> (idle < db.sessions[t].lastSeenAt <==> now < db.sessions[t].lastSeenAt + 604_800_000)
  {}

  // A session that would be found is written when its stored time is at least fifteen minutes old.
  lemma SeesSession(db: Db, s: Id, now: Time)
    requires SessionsOk(db.users, db.sessions)
    ensures Perform(db, SeeSession(s, now)) ==
      if s in db.sessions && db.sessions[s].revokedAt == None && now < db.sessions[s].expiresAt
        && db.sessions[s].lastSeenAt + 900_000 <= now < db.sessions[s].lastSeenAt + 604_800_000
      then Step(db.(sessions := db.sessions[s := db.sessions[s].(lastSeenAt := now)]), Done)
      else Step(db, Done)
  {}

  // Signing out revokes the one unrevoked session that bears the token, if there is one.
  lemma EndsSession(db: Db, token: Hash, e: Id, now: Time, s: Id)
    requires SessionsOk(db.users, db.sessions)
    requires s in db.sessions && db.sessions[s].token == token
    ensures var after := Perform(db, EndSession(token, e, now));
      if db.sessions[s].revokedAt != None then after == Step(db, Done)
      else if e in db.audits then after == Step(db, StorageFailure)
      else after == Step(db.(
             sessions := db.sessions[s := db.sessions[s].(revokedAt := Some(now))],
             audits := db.audits[e := Audit(Some(db.sessions[s].user), Some(db.sessions[s].user), SessionRevoked, now)]), Done)
  {
    BearerAlone(db, token, now, s);
    hide Unrevoked, RevokeRows, SessionsOk;
  }

  lemma BearerAlone(db: Db, token: Hash, now: Time, s: Id)
    requires SessionsOk(db.users, db.sessions)
    requires s in db.sessions && db.sessions[s].token == token
    ensures Unrevoked(db.sessions, token) == if db.sessions[s].revokedAt == None then {s} else {}
    ensures RevokeRows(db.sessions, {s}, now) == db.sessions[s := db.sessions[s].(revokedAt := Some(now))]
  {}

  lemma EndsNoSession(db: Db, token: Hash, e: Id, now: Time)
    requires forall s :: s in db.sessions ==> db.sessions[s].token != token
    ensures Perform(db, EndSession(token, e, now)) == Step(db, Done)
  {}

  // ----- Passkeys -----

  ghost predicate AnotherPasskey(db: Db, u: Id, p: Id) {
    exists q :: q in db.passkeys && q != p && db.passkeys[q].user == u
  }

  // A passkey is deleted for its enabled user exactly when it is not his only one; refused, it goes all the
  // same exactly when it was last written in that millisecond.
  lemma DropsPasskey(db: Db, u: Id, p: Id, e: Id, now: Time)
    requires PasskeysOk(db.users, db.passkeys)
    ensures var after := Perform(db, DropPasskey(u, p, e, now));
      var owns := p in db.passkeys && db.passkeys[p].user == u;
      var may := Active(db, u) && AnotherPasskey(db, u, p);
      && (after.outcome == Conflict <==> !(owns && (may || db.passkeys[p].updatedAt == now)))
      && after.outcome in {Done, Conflict, InvariantError, StorageFailure}
      && (after.outcome == Done <==> owns && may && db.passkeys[p].createdAt <= now && e !in db.audits)
      && (after.outcome == InvariantError <==> owns && !may && db.passkeys[p].updatedAt == now)
      && (after.outcome == Done ==>
            after.db == db.(passkeys := db.passkeys - {p}, audits := db.audits[e := Audit(Some(u), Some(u), PasskeyDeleted, now)]))
      && (after.outcome == InvariantError ==> after.db == db.(passkeys := db.passkeys - {p}))
      && (after.outcome != Done && after.outcome != InvariantError ==> after.db == db)
  {
    assert AnotherPasskey(db, u, p) <==> OtherPasskey(db.passkeys, u, p);
    hide OtherPasskey, AnotherPasskey;
  }

  // ----- Links: who makes them, for whom and for what -----

  // An administrator's enrolment: a new user, and a link for that user to enrol with.
  lemma Enrolls(db: Db, actor: Id, u: NewUser, l: NewLink, e: Id, now: Time)
    ensures var after := Perform(db, Enroll(actor, u, l, e, now));
      && after.outcome in {Done, Forbidden, StorageFailure}
      && (after.outcome == Forbidden <==> !Administers(db, actor))
      && (after.outcome == Done <==> Administers(db, actor) && UserFits(db, u) && LinkFits(db, l, now) && e !in db.audits)
      && (after.outcome != Done ==> after.db == db)
      && (after.outcome == Done ==> after.db == db.(
            users := db.users[u.id := User(u.username, u.email, u.isAdmin, None, now)],
            links := db.links[l.id := Link(u.id, Some(actor), Enrollment, l.token, l.expiresAt, None, None, now)],
            audits := db.audits[e := Audit(Some(u.id), Some(actor), EnrollmentCreated, now)]))
  {
    hide ActiveAdmin, UserClash, LinkFails;
    FitsOrFails(db, u, l, now);
    AdminIs(db, actor);
  }

  lemma FitsOrFails(db: Db, u: NewUser, l: NewLink, now: Time)
    ensures UserFits(db, u) <==> !UserClash(db.users, u.id, u.username, u.email)
    ensures LinkFits(db, l, now) <==> !LinkFails(db.links, l, now)
  {}

  lemma AdminIs(db: Db, u: Id)
    ensures Administers(db, u) <==> ActiveAdmin(db.users, u)
  {}

  // An administrator's recovery: a link for an enabled user to recover with.
  lemma Recovers(db: Db, actor: Id, target: Id, l: NewLink, e: Id, now: Time)
    ensures var after := Perform(db, Recover(actor, target, l, e, now));
      && after.outcome in {Done, NotFound, StorageFailure}
      && (after.outcome == NotFound <==> !(Administers(db, actor) && Active(db, target)))
      && (after.outcome == Done <==> Administers(db, actor) && Active(db, target) && LinkFits(db, l, now) && e !in db.audits)
      && (after.outcome != Done ==> after.db == db)
      && (after.outcome == Done ==> after.db == db.(
            links := db.links[l.id := Link(target, Some(actor), Recovery, l.token, l.expiresAt, None, None, now)],
            audits := db.audits[e := Audit(Some(target), Some(actor), RecoveryCreated, now)]))
  {}

  // The operator's bootstrap: the first user, an administrator, and a link for him to enrol with.
  lemma Boots(db: Db, u: NewUser, l: NewLink, e: Id, now: Time)
    ensures var after := Perform(db, Bootstrap(u, l, e, now));
      && after.outcome in {Done, Conflict, StorageFailure}
      && (after.outcome == Conflict <==> db.users != map[])
      && (after.outcome == Done <==> db.users == map[] && LinkFits(db, l, now) && e !in db.audits)
      && (after.outcome != Done ==> after.db == db)
      && (after.outcome == Done ==> after.db == db.(
            users := map[u.id := User(u.username, u.email, true, None, now)],
            links := db.links[l.id := Link(u.id, None, Enrollment, l.token, l.expiresAt, None, None, now)],
            audits := db.audits[e := Audit(Some(u.id), None, OperatorEnrollment, now)]))
  {}

  // The operator's recovery: a link for an enabled administrator to recover with.
  lemma OperatorRecovers(db: Db, target: Id, l: NewLink, e: Id, now: Time)
    ensures var after := Perform(db, OperatorRecover(target, l, e, now));
      && after.outcome in {Done, NotFound, StorageFailure}
      && (after.outcome == NotFound <==> !Administers(db, target))
      && (after.outcome == Done <==> Administers(db, target) && LinkFits(db, l, now) && e !in db.audits)
      && (after.outcome != Done ==> after.db == db)
      && (after.outcome == Done ==> after.db == db.(
            links := db.links[l.id := Link(target, None, Recovery, l.token, l.expiresAt, None, None, now)],
            audits := db.audits[e := Audit(Some(target), None, OperatorRecovery, now)]))
  {}

  // A signed-in user's own link and challenge, to add a passkey with.
  lemma IssuesForSelf(db: Db, u: Id, l: NewLink, c: NewChallenge, now: Time)
    requires OpenLinksOk(db.users, db.links)
    ensures var after := Perform(db, IssueRegistration(u, l, c, now));
      && after.outcome in {Done, Forbidden, StorageFailure}
      && (after.outcome == Forbidden <==> !Active(db, u))
      && (after.outcome == Done <==> Active(db, u) && LinkFits(db, l, now) && ChallengeFits(db, c, now))
      && (after.outcome != Done ==> after.db == db)
      && (after.outcome == Done ==> after.db == db.(
            links := db.links[l.id := Link(u, Some(u), Enrollment, l.token, l.expiresAt, None, None, now)],
            challenges := db.challenges[c.id := Challenge(Some(u), Some(l.id), Enrollment, c.hash, c.expiresAt, None, now)]))
  {}

  // For a user who is not enabled nothing is made; only an open link of his own under the drawn id, which
  // no reachable state holds, would let the second statement through.
  lemma IssuesNothingForSelf(db: Db, u: Id, l: NewLink, c: NewChallenge, now: Time)
    requires !Active(db, u)
    ensures var after := Perform(db, IssueRegistration(u, l, c, now));
      var own := l.id in db.links && LinkGood(db.links[l.id], now) && db.links[l.id].user == u && db.links[l.id].createdBy == Some(u);
      && (after.outcome == Forbidden <==> !own)
      && (after.outcome == InvariantError <==> own && ChallengeFits(db, c, now))
      && after.outcome in {Forbidden, InvariantError, StorageFailure}
      && (after.outcome != InvariantError ==> after.db == db)
      && (after.outcome == InvariantError ==> after.db == db.(
            challenges := db.challenges[c.id := Challenge(Some(u), Some(l.id), db.links[l.id].purpose, c.hash, c.expiresAt, None, now)]))
  {}

  // An administrator closes a link that is neither consumed nor revoked, expired or not.
  lemma EndsLink(db: Db, actor: Id, l: Id, e: Id, now: Time)
    ensures var after := Perform(db, EndLink(actor, l, e, now));
      var may := l in db.links && db.links[l].consumedAt == None && db.links[l].revokedAt == None && Administers(db, actor);
      && after.outcome in {Done, NotFound, StorageFailure}
      && (after.outcome == NotFound <==> !may)
      && (after.outcome == Done <==> may && e !in db.audits)
      && (after.outcome != Done ==> after.db == db)
      && (after.outcome == Done ==> after.db == db.(
            links := db.links[l := db.links[l].(revokedAt := Some(now))],
            audits := db.audits[e := Audit(Some(db.links[l].user), Some(actor), LinkRevoked, now)]))
  {}

  // ----- App tokens -----

  lemma MakesToken(db: Db, u: Id, id: Id, token: Hash, fever: Option<Hash>, e: Id, now: Time)
    ensures var after := Perform(db, MakeToken(u, id, token, fever, e, now));
      && after.outcome in {Done, Forbidden, StorageFailure}
      && (after.outcome == Forbidden <==> !Active(db, u))
      && (after.outcome == Done <==>
            && Active(db, u) && e !in db.audits && id !in db.tokens
            && forall t :: t in db.tokens ==> db.tokens[t].token != token && (fever != None ==> db.tokens[t].fever != fever))
      && (after.outcome != Done ==> after.db == db)
      && (after.outcome == Done ==> after.db == db.(
            tokens := db.tokens[id := AppToken(u, token, fever, None, now)],
            audits := db.audits[e := Audit(Some(u), Some(u), TokenCreated, now)]))
  {}

  // A user revokes a token of his own and no other.
  lemma EndsToken(db: Db, u: Id, id: Id, e: Id, now: Time)
    ensures var after := Perform(db, EndToken(u, id, e, now));
      var may := id in db.tokens && db.tokens[id].user == u && db.tokens[id].revokedAt == None && Active(db, u);
      && after.outcome in {Done, NotFound, StorageFailure}
      && (after.outcome == NotFound <==> !may)
      && (after.outcome == Done <==> may && e !in db.audits)
      && (after.outcome != Done ==> after.db == db)
      && (after.outcome == Done ==> after.db == db.(
            tokens := db.tokens[id := db.tokens[id].(revokedAt := Some(now))],
            audits := db.audits[e := Audit(Some(u), Some(u), TokenRevoked, now)]))
  {}

  // ----- Locking and unlocking -----

  // The links of before, with those of the user that were open now revoked.
  ghost predicate LinksThen(before: map<Id, Link>, after: map<Id, Link>, u: Id, now: Time) {
    && after.Keys == before.Keys
    && forall l :: l in before ==>
         after[l] == if before[l].user == u && before[l].consumedAt == None && before[l].revokedAt == None
           then before[l].(revokedAt := Some(now)) else before[l]
  }

  // A lock disables the user's row and nothing else of it, unless he is the only enabled administrator; and
  // done or refused, it leaves him no unrevoked session and no open link.
  lemma Locks(db: Db, actor: Id, u: Id, e: Id, now: Time)
    ensures var after := Perform(db, Lock(actor, u, e, now));
      var may := Active(db, u) && !SoleAdministrator(db, u);
      && (after.outcome == Conflict <==> !may)
      && (after.outcome == Done <==> may && db.users[u].createdAt <= now && actor in db.users && e !in db.audits)
      && (after.outcome != Conflict && after.outcome != Done ==> after == Step(db, StorageFailure))
      && (after.outcome != StorageFailure ==>
            && after.db.sessions.Keys == db.sessions.Keys && SessionsThen(db.sessions, after.db.sessions, u, true, now)
            && LinksThen(db.links, after.db.links, u, now))
      && (after.outcome == Conflict ==> after.db == db.(sessions := after.db.sessions, links := after.db.links))
      && (after.outcome == Done ==> after.db == db.(
            sessions := after.db.sessions, links := after.db.links,
            users := db.users[u := db.users[u].(disabledAt := Some(now))],
            audits := db.audits[e := Audit(Some(u), Some(actor), Disabled, now)]))
  {
    LockRows(db, u, now);
    MayLock(db, u);
    hide RevokeSessions, RevokeLinks, MayDisable;
  }

  lemma LockRows(db: Db, u: Id, now: Time)
    ensures var sessions := RevokeSessions(db.sessions, u, now);
      sessions.Keys == db.sessions.Keys && SessionsThen(db.sessions, sessions, u, true, now)
    ensures LinksThen(db.links, RevokeLinks(db.links, u, now), u, now)
  {}

  lemma MayLock(db: Db, u: Id)
    ensures MayDisable(db.users, u) <==> Active(db, u) && !SoleAdministrator(db, u)
  {}

  // An unlock enables the user's row again and touches nothing else of anybody's.
  lemma Unlocks(db: Db, actor: Id, u: Id, e: Id, now: Time)
    ensures var after := Perform(db, Unlock(actor, u, e, now));
      && after.outcome in {Done, Conflict, StorageFailure}
      && (after.outcome == Conflict <==> !(u in db.users && db.users[u].disabledAt != None))
      && (after.outcome == Done <==>
            u in db.users && db.users[u].disabledAt != None && db.users[u].createdAt <= now && actor in db.users && e !in db.audits)
      && (after.outcome != Done ==> after.db == db)
      && (after.outcome == Done ==> after.db == db.(
            users := db.users[u := db.users[u].(disabledAt := None)],
            audits := db.audits[e := Audit(Some(u), Some(actor), Reactivated, now)]))
  {}

  // Unlocking undoes the lock on the users table, to the row; what the lock revoked stays revoked.
  lemma LockThenUnlock(db: Db, actor: Id, u: Id, e: Id, now: Time, actor': Id, e': Id, later: Time)
    requires Perform(db, Lock(actor, u, e, now)).outcome == Done
    requires Perform(Perform(db, Lock(actor, u, e, now)).db, Unlock(actor', u, e', later)).outcome == Done
    ensures var after := Perform(Perform(db, Lock(actor, u, e, now)).db, Unlock(actor', u, e', later)).db;
      && after.users == db.users && after.passkeys == db.passkeys && after.tokens == db.tokens
      && after.challenges == db.challenges && after.reader == db.reader
      && SessionsThen(db.sessions, after.sessions, u, true, now) && LinksThen(db.links, after.links, u, now)
      && after.audits.Keys == db.audits.Keys + {e, e'}
  {
    hide Perform, SessionsThen, LinksThen, SoleAdministrator;
    Locks(db, actor, u, e, now);
    Unlocks(Perform(db, Lock(actor, u, e, now)).db, actor', u, e', later);
  }

  // ----- Wiping and deleting -----

  // A session of the user's own, unrevoked and at most five minutes old.
  ghost predicate JustSignedIn(db: Db, u: Id, s: Id, now: Time) {
    && s in db.sessions && db.sessions[s].user == u && db.sessions[s].revokedAt == None
    && now <= db.sessions[s].createdAt + 300_000
  }

  lemma Wipes(db: Db, u: Id, s: Id, e: Id, now: Time)
    ensures var after := Perform(db, Action.Wipe(u, s, e, now));
      && after.outcome in {Done, Conflict, StorageFailure}
      && (after.outcome == Conflict <==> !(Active(db, u) && JustSignedIn(db, u, s, now)))
      && (after.outcome == Done <==> Active(db, u) && JustSignedIn(db, u, s, now) && e !in db.audits)
      && (after.outcome != Done ==> after.db == db)
      && (after.outcome == Done ==>
            after.db == db.(reader := after.db.reader, audits := db.audits[e := Audit(Some(u), Some(u), ReaderWiped, now)]))
  {
    hide WipeReader;
  }

  lemma Deletes(db: Db, u: Id, s: Id, e: Id, now: Time)
    ensures var after := Perform(db, Delete(u, s, e, now));
      var may := Active(db, u) && !SoleAdministrator(db, u) && JustSignedIn(db, u, s, now);
      && after.outcome in {Done, NotFound, Conflict, StorageFailure}
      && (after.outcome == NotFound <==> u !in db.users)
      && (after.outcome == Conflict <==> u in db.users && !may)
      && (after.outcome == Done <==> may && e !in db.audits)
      && (after.outcome != Done ==> after.db == db)
  {
    MayLock(db, u);
    hide MayDisable, RemoveUser, DropOrphanFeeds, DropJobs, JobsOf;
  }

  // The one event that tells of the deletion names nobody.
  lemma DeletionIsRecorded(db: Db, u: Id, s: Id, e: Id, now: Time)
    requires Perform(db, Delete(u, s, e, now)).outcome == Done
    ensures var after := Perform(db, Delete(u, s, e, now)).db.audits;
      after.Keys == db.audits.Keys + {e} && after[e] == Audit(None, None, AccountDeleted, now)
  {
    Isolation.DeleteRemoves(db, Delete(u, s, e, now));
    hide Perform, ReaderWithout, LinksWithout, ChallengesWithout, TokensWithout, SessionsWithout, PasskeysWithout, DropJobs, JobsOf;
  }

  // ----- The cleanup -----

  // A row is past use: a challenge a day after it was consumed or expired, a link or session thirty days
  // after it was closed or expired, an event after 365 days.
  ghost predicate ChallengePast(c: Challenge, now: Time) {
    if c.consumedAt.Some? then c.consumedAt.value + 86_400_000 <= now else c.expiresAt + 86_400_000 <= now
  }

  ghost predicate LinkPast(l: Link, now: Time) {
    || (l.consumedAt.Some? && l.consumedAt.value + 2_592_000_000 <= now)
    || (l.revokedAt.Some? && l.revokedAt.value + 2_592_000_000 <= now)
    || (l.consumedAt.None? && l.revokedAt.None? && l.expiresAt + 2_592_000_000 <= now)
  }

  ghost predicate SessionPast(s: Session, now: Time) {
    if s.revokedAt.Some? then s.revokedAt.value + 2_592_000_000 <= now else s.expiresAt + 2_592_000_000 <= now
  }

  ghost predicate AuditPast(e: Audit, now: Time) {
    e.createdAt + 31_536_000_000 <= now
  }

  lemma KeepsChallenges(ch: map<Id, Challenge>, now: Time, n: nat)
    ensures var after := CleanChallenges(ch, now - WEBAUTHN_CHALLENGE_RETENTION_MS, n);
      forall c :: c in ch ==> (c in after ==> after[c] == ch[c]) && (!ChallengePast(ch[c], now) ==> c in after)
  {
    hide Oldest;
  }

  lemma KeepsLinks(links: map<Id, Link>, ch: map<Id, Challenge>, now: Time, n: nat)
    ensures var after := CleanLinks(links, ch, now - ACCESS_LINK_RETENTION_MS, n);
      forall l :: l in links ==> (l in after ==> after[l] == links[l]) && (!LinkPast(links[l], now) ==> l in after)
  {
    hide Oldest;
  }

  lemma KeepsReferenced(links: map<Id, Link>, ch: map<Id, Challenge>, cut: Time, n: nat)
    ensures forall c :: c in ch && ch[c].link.Some? && ch[c].link.value in links ==> ch[c].link.value in CleanLinks(links, ch, cut, n)
  {
    forall c | c in ch && ch[c].link.Some? && ch[c].link.value in links
      ensures ch[c].link.value in CleanLinks(links, ch, cut, n)
    {
      Sweeping.ReferencedStay(links, ch, cut, n, c);
    }
  }

  lemma KeepsSessions(ss: map<Id, Session>, now: Time, n: nat)
    ensures var after := CleanSessions(ss, now - REVOKED_SESSION_RETENTION_MS, now - EXPIRED_SESSION_RETENTION_MS, n);
      forall s :: s in ss ==> (s in after ==> after[s] == ss[s]) && (!SessionPast(ss[s], now) ==> s in after)
  {
    hide Oldest;
  }

  lemma KeepsAudits(es: map<Id, Audit>, now: Time, n: nat)
    ensures var after := CleanAudits(es, now - SECURITY_EVENT_RETENTION_MS, n);
      forall e :: e in es ==> (e in after ==> after[e] == es[e]) && (!AuditPast(es[e], now) ==> e in after)
  {
    hide Oldest;
  }

  // A cleanup takes nothing but rows past use, keeps every link that a remaining challenge names, and
  // leaves every row it keeps as it was.
  lemma CleanupKeeps(db: Db, now: Time)
    ensures var after := Perform(db, Clean(now)).db;
      && Perform(db, Clean(now)).outcome == Done
      && after == db.(challenges := after.challenges, links := after.links, sessions := after.sessions, audits := after.audits)
      && after.challenges.Keys <= db.challenges.Keys && after.links.Keys <= db.links.Keys
      && after.sessions.Keys <= db.sessions.Keys && after.audits.Keys <= db.audits.Keys
      && (forall c :: c in db.challenges && !ChallengePast(db.challenges[c], now) ==> c in after.challenges)
      && (forall c :: c in after.challenges ==> after.challenges[c] == db.challenges[c])
      && (forall l :: l in db.links && !LinkPast(db.links[l], now) ==> l in after.links)
      && (forall c :: c in after.challenges && db.challenges[c].link.Some? && db.challenges[c].link.value in db.links ==>
            db.challenges[c].link.value in after.links)
      && (forall l :: l in after.links ==> after.links[l] == db.links[l])
      && (forall s :: s in db.sessions && !SessionPast(db.sessions[s], now) ==> s in after.sessions)
      && (forall s :: s in after.sessions ==> after.sessions[s] == db.sessions[s])
      && (forall e :: e in db.audits && !AuditPast(db.audits[e], now) ==> e in after.audits)
      && (forall e :: e in after.audits ==> after.audits[e] == db.audits[e])
  {
    hide CleanChallenges, CleanLinks, CleanSessions, CleanAudits, ChallengePast, LinkPast, SessionPast, AuditPast;
    var n, cut := AUTH_CLEANUP_BATCH_SIZE, CutoffsAt(now);
    var ch := CleanChallenges(db.challenges, cut.challenge, n);
    CleanupShrinks(db, cut, n);
    KeepsChallenges(db.challenges, now, n);
    KeepsLinks(db.links, ch, now, n);
    KeepsReferenced(db.links, ch, cut.link, n);
    KeepsSessions(db.sessions, now, n);
    KeepsAudits(db.audits, now, n);
  }

  // The rows past use, kind by kind.
  ghost function PastChallenges(ch: map<Id, Challenge>, consumed: bool, now: Time): set<Id> {
    set c | c in ch && ch[c].consumedAt.Some? == consumed && ChallengePast(ch[c], now)
  }

  ghost function PastSessions(ss: map<Id, Session>, revoked: bool, now: Time): set<Id> {
    set s | s in ss && ss[s].revokedAt.Some? == revoked && SessionPast(ss[s], now)
  }

  ghost function PastAudits(es: map<Id, Audit>, now: Time): set<Id> {
    set e | e in es && AuditPast(es[e], now)
  }

  // Of a hundred at most, all go; of more, a hundred.
  ghost predicate HundredLess(before: set<Id>, after: set<Id>) {
    |after| == if |before| <= 100 then 0 else |before| - 100
  }

  lemma TakesChallenges(ch: map<Id, Challenge>, now: Time)
    ensures var after := CleanChallenges(ch, now - WEBAUTHN_CHALLENGE_RETENTION_MS, AUTH_CLEANUP_BATCH_SIZE);
      && HundredLess(PastChallenges(ch, true, now), PastChallenges(after, true, now))
      && HundredLess(PastChallenges(ch, false, now), PastChallenges(after, false, now))
  {
    hide CleanChallenges;
    var cut := now - WEBAUTHN_CHALLENGE_RETENTION_MS;
    var after := CleanChallenges(ch, cut, AUTH_CLEANUP_BATCH_SIZE);
    Sweeping.ChallengesRound(ch, cut, AUTH_CLEANUP_BATCH_SIZE);
    SameChallenges(ch, now);
    SameChallenges(after, now);
    hide PastChallenges;
  }

  lemma SameChallenges(ch: map<Id, Challenge>, now: Time)
    ensures PastChallenges(ch, true, now) == ConsumedChallenges(ch, now - WEBAUTHN_CHALLENGE_RETENTION_MS).Keys
    ensures PastChallenges(ch, false, now) == ExpiredChallenges(ch, now - WEBAUTHN_CHALLENGE_RETENTION_MS).Keys
  {}

  lemma TakesSessions(ss: map<Id, Session>, now: Time)
    ensures var after := CleanSessions(ss, now - REVOKED_SESSION_RETENTION_MS, now - EXPIRED_SESSION_RETENTION_MS, AUTH_CLEANUP_BATCH_SIZE);
      && HundredLess(PastSessions(ss, true, now), PastSessions(after, true, now))
      && HundredLess(PastSessions(ss, false, now), PastSessions(after, false, now))
  {
    hide CleanSessions;
    var revoked, expired := now - REVOKED_SESSION_RETENTION_MS, now - EXPIRED_SESSION_RETENTION_MS;
    Sweeping.SessionsRound(ss, revoked, expired, AUTH_CLEANUP_BATCH_SIZE);
    SameSessions(ss, now);
    SameSessions(CleanSessions(ss, revoked, expired, AUTH_CLEANUP_BATCH_SIZE), now);
    hide PastSessions;
  }

  lemma SameSessions(ss: map<Id, Session>, now: Time)
    ensures PastSessions(ss, true, now) == RevokedSessions(ss, now - REVOKED_SESSION_RETENTION_MS).Keys
    ensures PastSessions(ss, false, now) == ExpiredSessions(ss, now - EXPIRED_SESSION_RETENTION_MS).Keys
  {}

  lemma TakesAudits(es: map<Id, Audit>, now: Time)
    ensures HundredLess(PastAudits(es, now), PastAudits(CleanAudits(es, now - SECURITY_EVENT_RETENTION_MS, AUTH_CLEANUP_BATCH_SIZE), now))
  {
    hide CleanAudits;
    var cut := now - SECURITY_EVENT_RETENTION_MS;
    Sweeping.AuditsRound(es, cut, AUTH_CLEANUP_BATCH_SIZE);
    SameAudits(es, now);
    SameAudits(CleanAudits(es, cut, AUTH_CLEANUP_BATCH_SIZE), now);
    hide PastAudits;
  }

  lemma SameAudits(es: map<Id, Audit>, now: Time)
    ensures PastAudits(es, now) == OldAudits(es, now - SECURITY_EVENT_RETENTION_MS).Keys
  {}

  // One cleanup takes a hundred of each kind of challenges, sessions and events past use, or all there are.
  lemma CleanupTakes(db: Db, now: Time)
    ensures var after := Perform(db, Clean(now)).db;
      && HundredLess(PastChallenges(db.challenges, true, now), PastChallenges(after.challenges, true, now))
      && HundredLess(PastChallenges(db.challenges, false, now), PastChallenges(after.challenges, false, now))
      && HundredLess(PastSessions(db.sessions, true, now), PastSessions(after.sessions, true, now))
      && HundredLess(PastSessions(db.sessions, false, now), PastSessions(after.sessions, false, now))
      && HundredLess(PastAudits(db.audits, now), PastAudits(after.audits, now))
  {
    hide CleanChallenges, CleanLinks, CleanSessions, CleanAudits, HundredLess;
    TakesChallenges(db.challenges, now);
    TakesSessions(db.sessions, now);
    TakesAudits(db.audits, now);
  }
}
