/** Runs of the service: any interleaving of the atomic steps of any number of requests.
    A step's inputs are arbitrary, so they cover whatever an earlier SELECT of the same request returned,
    however stale; only the ticket of a completion is tied to the challenge its request consumed. */
module Protocol {
  import opened Schema
  import opened Atomic
  import opened Retention

  const MINUTE_MS := 60_000
  const HOUR_MS := 3_600_000

  const SESSION_IDLE_TIMEOUT_MS := 7 * DAY_MS
  const SESSION_LAST_SEEN_THROTTLE_MS := 15 * MINUTE_MS
  const AUTH_CLEANUP_BATCH_SIZE := 100
  const EXPIRED_SESSION_RETENTION_MS := 30 * DAY_MS
  const REVOKED_SESSION_RETENTION_MS := 30 * DAY_MS
  const WEBAUTHN_CHALLENGE_RETENTION_MS := DAY_MS
  const ACCESS_LINK_RETENTION_MS := 30 * DAY_MS
  const SECURITY_EVENT_RETENTION_MS := 365 * DAY_MS
  const MAX_CHALLENGE_TTL_MS := 600_000   // the configuration accepts 30 to 600 seconds

  // A request commits each of its steps within this time of reading its clock.
  const MAX_LAG_MS := HOUR_MS

  function CutoffsAt(now: Time): Cutoffs {
    Cutoffs(now - EXPIRED_SESSION_RETENTION_MS, now - REVOKED_SESSION_RETENTION_MS, now - WEBAUTHN_CHALLENGE_RETENTION_MS,
            now - ACCESS_LINK_RETENTION_MS, now - SECURITY_EVENT_RETENTION_MS)
  }

  datatype Action =
    | Tick(time: Time)
    | Clean(now: Time)
    | IssueAuth(c: NewChallenge, now: Time)
    | ConsumeAuth(challenge: Id, credential: Hash, now: Time)
    | CompleteAuth(challenge: Id, completion: Completion)
    | IssueAccess(link: Id, c: NewChallenge, now: Time)
    | IssueRegistration(user: Id, l: NewLink, c: NewChallenge, now: Time)
    | ConsumeReg(challenge: Id, proof: Proof, now: Time)
    | CompleteReg(registration: Registration)
    | SeeSession(session: Id, now: Time)
    | EndSession(token: Hash, eventId: Id, now: Time)
    | DropPasskey(user: Id, passkey: Id, eventId: Id, now: Time)
    | Enroll(actor: Id, u: NewUser, l: NewLink, eventId: Id, now: Time)
    | Recover(actor: Id, target: Id, l: NewLink, eventId: Id, now: Time)
    | EndLink(actor: Id, link: Id, eventId: Id, now: Time)
    | Bootstrap(u: NewUser, l: NewLink, eventId: Id, now: Time)
    | OperatorRecover(target: Id, l: NewLink, eventId: Id, now: Time)
    | MakeToken(user: Id, id: Id, token: Hash, fever: Option<Hash>, eventId: Id, now: Time)
    | EndToken(user: Id, id: Id, eventId: Id, now: Time)
    | Lock(actor: Id, target: Id, eventId: Id, now: Time)
    | Unlock(actor: Id, target: Id, eventId: Id, now: Time)
    | Wipe(user: Id, session: Id, eventId: Id, now: Time)
    | Delete(user: Id, session: Id, eventId: Id, now: Time)

  // The steps of a passkey ceremony.
  predicate Ceremony(a: Action) {
    a.IssueAuth? || a.ConsumeAuth? || a.CompleteAuth? || a.IssueAccess? || a.IssueRegistration? || a.ConsumeReg? || a.CompleteReg?
  }

  ghost function Perform(db: Db, a: Action): Step {
    match a
    case Tick(_) => Step(db, Done)
    case Clean(now) => Step(Cleanup(db, CutoffsAt(now), AUTH_CLEANUP_BATCH_SIZE), Done)
    case IssueAuth(c, now) => IssueAuthenticationChallenge(db, c, now)
    case ConsumeAuth(c, credential, now) => ConsumeAuthentication(db, c, credential, now)
    case CompleteAuth(_, completion) => CompleteAuthentication(db, completion)
    case IssueAccess(link, c, now) => IssueAccessChallenge(db, link, c, now)
    case IssueRegistration(user, l, c, now) => IssueRegistrationChallenge(db, user, l, c, now)
    case ConsumeReg(c, proof, now) => ConsumeRegistration(db, c, proof, now)
    case CompleteReg(r) => CompleteRegistration(db, r)
    case SeeSession(s, now) => TouchSession(db, s, now, now - SESSION_IDLE_TIMEOUT_MS, now - SESSION_LAST_SEEN_THROTTLE_MS)
    case EndSession(token, e, now) => RevokeSession(db, token, e, now)
    case DropPasskey(user, p, e, now) => DeletePasskey(db, user, p, e, now)
    case Enroll(actor, u, l, e, now) => CreateEnrollmentLink(db, actor, u, l, e, now)
    case Recover(actor, target, l, e, now) => CreateRecoveryLink(db, actor, target, l, e, now)
    case EndLink(actor, link, e, now) => RevokeAccessLink(db, actor, link, e, now)
    case Bootstrap(u, l, e, now) => InitialAdmin(db, u, l, e, now)
    case OperatorRecover(target, l, e, now) => OperatorRecoveryLink(db, target, l, e, now)
    case MakeToken(user, id, token, fever, e, now) => CreateAppToken(db, user, id, token, fever, e, now)
    case EndToken(user, id, e, now) => RevokeAppToken(db, user, id, e, now)
    case Lock(actor, target, e, now) => Disable(db, actor, target, e, now)
    case Unlock(actor, target, e, now) => Reactivate(db, actor, target, e, now)
    case Wipe(user, s, e, now) => WipeReaderData(db, user, s, e, now)
    case Delete(user, s, e, now) => DeleteAccount(db, user, s, e, now)
  }

  // ----- What the guards keep, beyond the constraints -----

  predicate AdminOk(users: map<Id, User>) {
    users != map[] ==> exists u :: u in users && ActiveAdmin(users, u)
  }

  predicate LiveSessionsOk(users: map<Id, User>, sessions: map<Id, Session>) {
    forall s :: s in sessions && sessions[s].revokedAt.None? ==> Enabled(users, sessions[s].user)
  }

  predicate OpenLinksOk(users: map<Id, User>, links: map<Id, Link>) {
    forall l :: l in links && Open(links[l]) ==> Enabled(users, links[l].user)
  }

  predicate ChallengeOwnersOk(links: map<Id, Link>, challenges: map<Id, Challenge>) {
    forall c :: c in challenges && challenges[c].link.Some? ==>
      && challenges[c].link.value in links
      && challenges[c].user == Some(links[challenges[c].link.value].user)
      && challenges[c].purpose == links[challenges[c].link.value].purpose
  }

  predicate Guarded(db: Db) {
    && AdminOk(db.users)
    && LiveSessionsOk(db.users, db.sessions)
    && OpenLinksOk(db.users, db.links)
    && ChallengeOwnersOk(db.links, db.challenges)
  }

}
