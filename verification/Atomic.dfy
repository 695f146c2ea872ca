/** What each atomic step of the repositories means: a total function from the database to the new
    database and the caller's outcome.  A step is either a `d1.batch` (one transaction) or a single
    statement.  The class in Store runs the statements one by one, with the `changes()` register, and
    is proved to compute exactly these functions. */
module Atomic {
  import opened Schema

  datatype Outcome =
    | Done | AuthenticationFailed | AccessLinkInvalid | Forbidden | Conflict | NotFound
    | StorageFailure   // a constraint failed, the transaction rolled back
    | InvariantError   // the counts were neither all 0 nor all 1

  datatype Step = Step(db: Db, outcome: Outcome)

  datatype NewSession = NewSession(id: Id, token: Hash, expiresAt: Time)
  datatype NewPasskey = NewPasskey(id: Id, credential: Hash, signCount: nat, backedUp: bool)
  datatype NewUser = NewUser(id: Id, username: string, email: string, isAdmin: bool)
  datatype NewLink = NewLink(id: Id, token: Hash, expiresAt: Time)
  datatype NewChallenge = NewChallenge(id: Id, hash: Hash, expiresAt: Time)

  // How a registration caller proves that the link is his: the plaintext token, or his session.
  datatype Proof = ByToken(token: Hash) | ByUser(user: Id) | NoProof

  predicate Proves(l: Link, proof: Proof) {
    match proof
    case ByToken(h) => l.token == h
    case ByUser(u) => l.createdBy == Some(u) && l.user == u
    case NoProof => false
  }

  function Refusal(proof: Proof): Outcome {
    if proof.ByToken? then AccessLinkInvalid else Forbidden
  }

  function SessionRow(s: NewSession, user: Id, now: Time): Session {
    Session(user, s.token, s.expiresAt, now, None, now)
  }

  // The session insert fails on a key collision or on CHECK (expires_at > created_at).
  predicate SessionFails(sessions: map<Id, Session>, s: NewSession, now: Time) {
    SessionClash(sessions, s.id, s.token) || s.expiresAt <= now
  }

  predicate LinkFails(links: map<Id, Link>, l: NewLink, now: Time) {
    LinkClash(links, l.id, l.token) || l.expiresAt <= now
  }

  predicate ChallengeFails(challenges: map<Id, Challenge>, c: NewChallenge, now: Time) {
    ChallengeClash(challenges, c.id, c.hash) || c.expiresAt <= now
  }

  // ----- Authentication -----

  function IssueAuthenticationChallenge(db: Db, c: NewChallenge, now: Time): Step {
    if ChallengeFails(db.challenges, c, now) then Step(db, StorageFailure)
    else Step(db.(challenges := db.challenges[c.id := Challenge(None, None, Authentication, c.hash, c.expiresAt, None, now)]), Done)
  }

  // The passkeys an enabled user can present under this credential id.
  function PasskeysOf(users: map<Id, User>, passkeys: map<Id, Passkey>, credential: Hash): set<Id> {
    set p | p in passkeys && passkeys[p].credential == credential && Enabled(users, passkeys[p].user)
  }

  predicate Consumable(db: Db, c: Id, credential: Hash, now: Time) {
    && c in db.challenges && db.challenges[c].purpose == Authentication
    && db.challenges[c].consumedAt.None? && db.challenges[c].expiresAt > now
    && PasskeysOf(db.users, db.passkeys, credential) != {}
  }

  function Consume(challenges: map<Id, Challenge>, c: Id, now: Time): map<Id, Challenge>
    requires c in challenges
  {
    challenges[c := challenges[c].(consumedAt := Some(now))]
  }

  function ConsumeAuthentication(db: Db, c: Id, credential: Hash, now: Time): Step {
    if Consumable(db, c, credential, now)
    then Step(db.(challenges := Consume(db.challenges, c, now)), Done)
    else Step(db, AuthenticationFailed)
  }

  datatype Completion = Completion(user: Id, credential: Hash, readCount: nat, newCount: nat, backedUp: bool,
                                   session: NewSession, eventId: Id, now: Time)

  // The passkey row that the compare-and-set on the signature counter hits.
  function CounterHits(users: map<Id, User>, passkeys: map<Id, Passkey>, a: Completion): set<Id> {
    set p | p in passkeys && passkeys[p].credential == a.credential && passkeys[p].user == a.user
      && passkeys[p].signCount == a.readCount && Enabled(users, a.user)
  }

  function Advance(passkeys: map<Id, Passkey>, hits: set<Id>, a: Completion): map<Id, Passkey> {
    map p | p in passkeys :: if p in hits
      then passkeys[p].(signCount := a.newCount, backedUp := a.backedUp, lastUsedAt := Some(a.now), updatedAt := a.now)
      else passkeys[p]
  }

  // CHECK (updated_at >= created_at) would fail.
  predicate Predates(passkeys: map<Id, Passkey>, hits: set<Id>, now: Time) {
    exists p :: p in hits && p in passkeys && now < passkeys[p].createdAt
  }

  function CompleteAuthentication(db: Db, a: Completion): Step {
    var hits := CounterHits(db.users, db.passkeys, a);
    if hits == {} then Step(db, AuthenticationFailed)
    else if Predates(db.passkeys, hits, a.now) || SessionFails(db.sessions, a.session, a.now) || a.eventId in db.audits
    then Step(db, StorageFailure)
    else Step(db.(passkeys := Advance(db.passkeys, hits, a),
                  sessions := db.sessions[a.session.id := SessionRow(a.session, a.user, a.now)],
                  audits := db.audits[a.eventId := Audit(Some(a.user), Some(a.user), AuthenticationSucceeded, a.now)]), Done)
  }

  // ----- Registration through an access link -----

  predicate Issuable(db: Db, link: Id, now: Time) {
    link in db.links && Usable(db.links[link], now) && Enabled(db.users, db.links[link].user)
  }

  function LinkChallenge(l: Link, link: Id, c: NewChallenge, now: Time): Challenge {
    Challenge(Some(l.user), Some(link), l.purpose, c.hash, c.expiresAt, None, now)
  }

  function IssueAccessChallenge(db: Db, link: Id, c: NewChallenge, now: Time): Step {
    if !Issuable(db, link, now) then Step(db, AccessLinkInvalid)
    else if ChallengeFails(db.challenges, c, now) then Step(db, StorageFailure)
    else Step(db.(challenges := db.challenges[c.id := LinkChallenge(db.links[link], link, c, now)]), Done)
  }

  predicate OwnLink(links: map<Id, Link>, link: Id, user: Id, now: Time) {
    link in links && links[link].user == user && links[link].createdBy == Some(user) && Usable(links[link], now)
  }

  function IssueRegistrationChallenge(db: Db, user: Id, l: NewLink, c: NewChallenge, now: Time): Step {
    if !Enabled(db.users, user) then
      // The second statement does not test changes(): a colliding link id would let it through.
      if !OwnLink(db.links, l.id, user, now) then Step(db, Forbidden)
      else if ChallengeFails(db.challenges, c, now) then Step(db, StorageFailure)
      else Step(db.(challenges := db.challenges[c.id := LinkChallenge(db.links[l.id], l.id, c, now)]), InvariantError)
    else if LinkFails(db.links, l, now) || ChallengeFails(db.challenges, c, now) then Step(db, StorageFailure)
    else
      var row := Link(user, Some(user), Enrollment, l.token, l.expiresAt, None, None, now);
      Step(db.(links := db.links[l.id := row],
               challenges := db.challenges[c.id := LinkChallenge(row, l.id, c, now)]), Done)
  }

  predicate RegistrationConsumable(db: Db, c: Id, proof: Proof, now: Time) {
    && c in db.challenges && db.challenges[c].consumedAt.None? && db.challenges[c].expiresAt > now
    && db.challenges[c].link.Some? && db.challenges[c].link.value in db.links
    && var l := db.links[db.challenges[c].link.value];
       db.challenges[c].user == Some(l.user) && Usable(l, now) && Enabled(db.users, l.user) && Proves(l, proof)
  }

  function ConsumeRegistration(db: Db, c: Id, proof: Proof, now: Time): Step {
    if RegistrationConsumable(db, c, proof, now)
    then Step(db.(challenges := Consume(db.challenges, c, now)), Done)
    else Step(db, Refusal(proof))
  }

  datatype Registration = Registration(link: Id, user: Id, purpose: Purpose, proof: Proof, passkey: NewPasskey,
                                       session: Option<NewSession>, eventId: Id, now: Time)

  predicate Redeemable(db: Db, r: Registration) {
    && r.link in db.links && db.links[r.link].user == r.user && db.links[r.link].purpose == r.purpose
    && Usable(db.links[r.link], r.now) && Proves(db.links[r.link], r.proof)
  }

  function RevokeSessions(sessions: map<Id, Session>, user: Id, now: Time): map<Id, Session> {
    map s | s in sessions :: if sessions[s].user == user && sessions[s].revokedAt.None?
      then sessions[s].(revokedAt := Some(now)) else sessions[s]
  }

  // The link already carries this very timestamp as its consumption time, so the later
  // statements of a refused completion take it for the row they wrote themselves.
  predicate Mistaken(db: Db, r: Registration) {
    r.link in db.links && db.links[r.link].user == r.user && db.links[r.link].consumedAt == Some(r.now)
  }

  function RegistrationAudit(r: Registration): Audit {
    Audit(Some(r.user), Some(r.user), if r.purpose == Recovery then RecoveryCompleted else PasskeyRegistered, r.now)
  }

  function RefusedRegistration(db: Db, r: Registration): Step {
    var opens := Mistaken(db, r) && r.session.Some? && Enabled(db.users, r.user);
    var logs := Mistaken(db, r) && Owns(db.passkeys, r.user, r.passkey.id);
    if (opens && SessionFails(db.sessions, r.session.value, r.now)) || (logs && r.eventId in db.audits)
    then Step(db, StorageFailure)
    else Step(db.(sessions := if opens then db.sessions[r.session.value.id := SessionRow(r.session.value, r.user, r.now)] else db.sessions,
                  audits := if logs then db.audits[r.eventId := RegistrationAudit(r)] else db.audits), Refusal(r.proof))
  }

  function NewPasskeyRow(r: Registration): Passkey {
    Passkey(r.user, r.passkey.credential, r.passkey.signCount, r.passkey.backedUp, None, r.now, r.now)
  }

  // The first three statements: the passkey, the link, and the sessions a recovery revokes.
  function RedeemLink(db: Db, r: Registration): Db
    requires r.link in db.links
  {
    db.(passkeys := db.passkeys[r.passkey.id := NewPasskeyRow(r)],
        links := db.links[r.link := db.links[r.link].(consumedAt := Some(r.now))],
        sessions := if r.purpose == Recovery then RevokeSessions(db.sessions, r.user, r.now) else db.sessions)
  }

  function Redeem(db: Db, r: Registration): Db
    requires r.link in db.links
  {
    var head := RedeemLink(db, r);
    head.(sessions := if r.session.Some? && Enabled(db.users, r.user)
            then head.sessions[r.session.value.id := SessionRow(r.session.value, r.user, r.now)] else head.sessions,
          audits := db.audits[r.eventId := RegistrationAudit(r)])
  }

  function CompleteRegistration(db: Db, r: Registration): Step {
    if r.proof.NoProof? then Step(db, Forbidden)
    else if !Redeemable(db, r) then RefusedRegistration(db, r)
    else if PasskeyClash(db.passkeys, r.passkey.id, r.passkey.credential)
      || (r.session.Some? && Enabled(db.users, r.user) && SessionFails(db.sessions, r.session.value, r.now))
      || r.eventId in db.audits
    then Step(db, StorageFailure)
    else Step(Redeem(db, r), if r.session.Some? && !Enabled(db.users, r.user) then InvariantError else Done)
  }

  // ----- Sessions -----

  predicate Accepts(s: Session, now: Time, idleCutoff: Time) {
    s.revokedAt.None? && s.expiresAt > now && s.lastSeenAt > idleCutoff
  }

  // The rows `findSession` selects for a token (at most one, tokens being unique).
  function FindSession(db: Db, token: Hash, now: Time, idleCutoff: Time): set<Id> {
    set s | s in db.sessions && db.sessions[s].token == token && Accepts(db.sessions[s], now, idleCutoff)
      && Enabled(db.users, db.sessions[s].user)
  }

  function Touch(s: Session, now: Time, idleCutoff: Time, throttleCutoff: Time): Session {
    if Accepts(s, now, idleCutoff) && s.lastSeenAt <= throttleCutoff then s.(lastSeenAt := now) else s
  }

  function TouchSession(db: Db, id: Id, now: Time, idleCutoff: Time, throttleCutoff: Time): Step {
    if id !in db.sessions || Touch(db.sessions[id], now, idleCutoff, throttleCutoff) == db.sessions[id] then Step(db, Done)
    else if now < db.sessions[id].createdAt then Step(db, StorageFailure)
    else Step(db.(sessions := db.sessions[id := Touch(db.sessions[id], now, idleCutoff, throttleCutoff)]), Done)
  }

  function Unrevoked(sessions: map<Id, Session>, token: Hash): set<Id> {
    set s | s in sessions && sessions[s].token == token && sessions[s].revokedAt.None?
  }

  function RevokeRows(sessions: map<Id, Session>, hits: set<Id>, now: Time): map<Id, Session> {
    map s | s in sessions :: if s in hits then sessions[s].(revokedAt := Some(now)) else sessions[s]
  }

  ghost function RevokeSession(db: Db, token: Hash, eventId: Id, now: Time): Step {
    var hits := Unrevoked(db.sessions, token);
    if hits == {} then Step(db, Done)
    else if eventId in db.audits then Step(db, StorageFailure)
    else
      var owner := Some(Owner(db.sessions, hits));
      Step(db.(sessions := RevokeRows(db.sessions, hits, now),
               audits := db.audits[eventId := Audit(owner, owner, SessionRevoked, now)]), Done)
  }

  // The user of the session rows in `hits`.
  ghost function Owner(sessions: map<Id, Session>, hits: set<Id>): Id
    requires hits != {} && forall s :: s in hits ==> s in sessions
  {
    var s :| s in hits; sessions[s].user
  }

  // ----- Passkey deletion -----

  predicate OtherPasskey(passkeys: map<Id, Passkey>, user: Id, passkey: Id) {
    exists q :: q in passkeys && q != passkey && passkeys[q].user == user
  }

  predicate Owns(passkeys: map<Id, Passkey>, user: Id, passkey: Id) {
    passkey in passkeys && passkeys[passkey].user == user
  }

  function DeletePasskey(db: Db, user: Id, passkey: Id, eventId: Id, now: Time): Step {
    if !Owns(db.passkeys, user, passkey) then Step(db, Conflict)
    else if OtherPasskey(db.passkeys, user, passkey) && Enabled(db.users, user) then
      if now < db.passkeys[passkey].createdAt || eventId in db.audits then Step(db, StorageFailure)
      else Step(db.(passkeys := db.passkeys - {passkey},
                    audits := db.audits[eventId := Audit(Some(user), Some(user), PasskeyDeleted, now)]), Done)
    // The guard failed, yet the final DELETE only looks at updated_at.
    else if db.passkeys[passkey].updatedAt == now then Step(db.(passkeys := db.passkeys - {passkey}), InvariantError)
    else Step(db, Conflict)
  }

  // ----- Access links -----

  function UserRow(u: NewUser, now: Time): User {
    User(u.username, u.email, u.isAdmin, None, now)
  }

  function CreateEnrollmentLink(db: Db, actor: Id, u: NewUser, l: NewLink, eventId: Id, now: Time): Step {
    if !ActiveAdmin(db.users, actor) then Step(db, Forbidden)
    else if UserClash(db.users, u.id, u.username, u.email) || LinkFails(db.links, l, now) || eventId in db.audits
    then Step(db, StorageFailure)
    else Step(db.(users := db.users[u.id := UserRow(u, now)],
                  links := db.links[l.id := Link(u.id, Some(actor), Enrollment, l.token, l.expiresAt, None, None, now)],
                  audits := db.audits[eventId := Audit(Some(u.id), Some(actor), EnrollmentCreated, now)]), Done)
  }

  function CreateRecoveryLink(db: Db, actor: Id, target: Id, l: NewLink, eventId: Id, now: Time): Step {
    if !(Enabled(db.users, target) && ActiveAdmin(db.users, actor)) then Step(db, NotFound)
    else if LinkFails(db.links, l, now) || eventId in db.audits then Step(db, StorageFailure)
    else Step(db.(links := db.links[l.id := Link(target, Some(actor), Recovery, l.token, l.expiresAt, None, None, now)],
                  audits := db.audits[eventId := Audit(Some(target), Some(actor), RecoveryCreated, now)]), Done)
  }

  function RevokeAccessLink(db: Db, actor: Id, link: Id, eventId: Id, now: Time): Step {
    if !(link in db.links && Open(db.links[link]) && ActiveAdmin(db.users, actor)) then Step(db, NotFound)
    else if eventId in db.audits then Step(db, StorageFailure)
    else Step(db.(links := db.links[link := db.links[link].(revokedAt := Some(now))],
                  audits := db.audits[eventId := Audit(Some(db.links[link].user), Some(actor), LinkRevoked, now)]), Done)
  }

  // ----- Operator -----

  function InitialAdmin(db: Db, u: NewUser, l: NewLink, eventId: Id, now: Time): Step {
    if db.users != map[] then Step(db, Conflict)
    else if LinkFails(db.links, l, now) || eventId in db.audits then Step(db, StorageFailure)
    else Step(db.(users := db.users[u.id := UserRow(u, now).(isAdmin := true)],
                  links := db.links[l.id := Link(u.id, None, Enrollment, l.token, l.expiresAt, None, None, now)],
                  audits := db.audits[eventId := Audit(Some(u.id), None, OperatorEnrollment, now)]), Done)
  }

  function OperatorRecoveryLink(db: Db, target: Id, l: NewLink, eventId: Id, now: Time): Step {
    if !ActiveAdmin(db.users, target) then Step(db, NotFound)
    else if LinkFails(db.links, l, now) || eventId in db.audits then Step(db, StorageFailure)
    else Step(db.(links := db.links[l.id := Link(target, None, Recovery, l.token, l.expiresAt, None, None, now)],
                  audits := db.audits[eventId := Audit(Some(target), None, OperatorRecovery, now)]), Done)
  }

  // ----- App tokens -----

  function CreateAppToken(db: Db, user: Id, id: Id, token: Hash, fever: Option<Hash>, eventId: Id, now: Time): Step {
    if !Enabled(db.users, user) then Step(db, Forbidden)
    else if TokenClash(db.tokens, id, token, fever) || eventId in db.audits then Step(db, StorageFailure)
    else Step(db.(tokens := db.tokens[id := AppToken(user, token, fever, None, now)],
                  audits := db.audits[eventId := Audit(Some(user), Some(user), TokenCreated, now)]), Done)
  }

  function RevokeAppToken(db: Db, user: Id, id: Id, eventId: Id, now: Time): Step {
    if !(id in db.tokens && db.tokens[id].user == user && db.tokens[id].revokedAt.None? && Enabled(db.users, user))
    then Step(db, NotFound)
    else if eventId in db.audits then Step(db, StorageFailure)
    else Step(db.(tokens := db.tokens[id := db.tokens[id].(revokedAt := Some(now))],
                  audits := db.audits[eventId := Audit(Some(user), Some(user), TokenRevoked, now)]), Done)
  }

  // ----- Administration -----

  predicate MayDisable(users: map<Id, User>, target: Id) {
    Enabled(users, target) && (!users[target].isAdmin || OtherAdmin(users, target))
  }

  function RevokeLinks(links: map<Id, Link>, user: Id, now: Time): map<Id, Link> {
    map l | l in links :: if links[l].user == user && Open(links[l]) then links[l].(revokedAt := Some(now)) else links[l]
  }

  // The two revocations run whether or not the first update was refused.
  function Disable(db: Db, actor: Id, target: Id, eventId: Id, now: Time): Step {
    var locked := db.(sessions := RevokeSessions(db.sessions, target, now), links := RevokeLinks(db.links, target, now));
    if !MayDisable(db.users, target) then Step(locked, Conflict)
    else if now < db.users[target].createdAt || eventId in db.audits || actor !in db.users then Step(db, StorageFailure)
    else Step(locked.(users := db.users[target := db.users[target].(disabledAt := Some(now))],
                      audits := db.audits[eventId := Audit(Some(target), Some(actor), Disabled, now)]), Done)
  }

  function Reactivate(db: Db, actor: Id, target: Id, eventId: Id, now: Time): Step {
    if !(target in db.users && db.users[target].disabledAt.Some?) then Step(db, Conflict)
    else if now < db.users[target].createdAt || eventId in db.audits || actor !in db.users then Step(db, StorageFailure)
    else Step(db.(users := db.users[target := db.users[target].(disabledAt := None)],
                  audits := db.audits[eventId := Audit(Some(target), Some(actor), Reactivated, now)]), Done)
  }

  // ----- Account deletion and reader wipe -----

  const FRESH_MS := 300_000

  predicate Fresh(sessions: map<Id, Session>, user: Id, session: Id, now: Time) {
    && session in sessions && sessions[session].user == user
    && sessions[session].revokedAt.None? && sessions[session].createdAt >= now - FRESH_MS
  }

  function Forget(x: Option<Id>, u: Id): Option<Id> {
    if x == Some(u) then None else x
  }

  function JobsOf(items: map<Id, Item>, u: Id): set<Id> {
    set i | i in items && items[i].owner == u && items[i].job.Some? :: items[i].job.value
  }

  // Deleting jobs sets the job reference of every item that named one to null.
  function DropJobs(r: Reader, gone: set<Id>): Reader {
    r.(jobs := r.jobs - gone,
       items := map i | i in r.items ::
         if r.items[i].job.Some? && r.items[i].job.value in gone then r.items[i].(job := None) else r.items[i])
  }

  function DropImports(r: Reader, u: Id): Reader {
    r.(imports := map i | i in r.imports && r.imports[i] != u :: r.imports[i],
       items := map i | i in r.items && !(r.items[i].batch in r.imports && r.imports[r.items[i].batch] == u) :: r.items[i])
  }

  function DropSubs(r: Reader, u: Id): Reader {
    r.(subs := map k | k in r.subs && k.0 != u :: r.subs[k])
  }

  function DropCategories(r: Reader, u: Id): Reader {
    r.(categories := map c | c in r.categories && r.categories[c] != u :: r.categories[c])
  }

  // What one user keeps in the reader: imports with their items, subscriptions, categories.
  function ReaderWithout(r: Reader, u: Id): Reader {
    DropCategories(DropSubs(DropImports(r, u), u), u)
  }

  predicate Subscribed(r: Reader, feed: Id) {
    exists k :: k in r.subs && k.1 == feed
  }

  function DropOrphanFeeds(r: Reader): Reader {
    r.(feeds := set f | f in r.feeds && Subscribed(r, f))
  }

  function WipeReader(r: Reader, u: Id): Reader {
    DropOrphanFeeds(ReaderWithout(DropJobs(r, JobsOf(r.items, u)), u))
  }

  function WipeReaderData(db: Db, user: Id, session: Id, eventId: Id, now: Time): Step {
    if !(Enabled(db.users, user) && Fresh(db.sessions, user, session, now)) then Step(db, Conflict)
    else if eventId in db.audits then Step(db, StorageFailure)
    else Step(db.(reader := WipeReader(db.reader, user),
                  audits := db.audits[eventId := Audit(Some(user), Some(user), ReaderWiped, now)]), Done)
  }

  // Removing a user row cascades to what the user owns and clears the references that remain.
  function PasskeysWithout(passkeys: map<Id, Passkey>, u: Id): map<Id, Passkey> {
    map p | p in passkeys && passkeys[p].user != u :: passkeys[p]
  }

  function SessionsWithout(sessions: map<Id, Session>, u: Id): map<Id, Session> {
    map s | s in sessions && sessions[s].user != u :: sessions[s]
  }

  function LinksWithout(links: map<Id, Link>, u: Id): map<Id, Link> {
    map l | l in links && links[l].user != u :: links[l].(createdBy := Forget(links[l].createdBy, u))
  }

  predicate CascadesFrom(c: Challenge, links: map<Id, Link>, u: Id) {
    c.user == Some(u) || (c.link.Some? && c.link.value in links && links[c.link.value].user == u)
  }

  function ChallengesWithout(challenges: map<Id, Challenge>, links: map<Id, Link>, u: Id): map<Id, Challenge> {
    map c | c in challenges && !CascadesFrom(challenges[c], links, u) :: challenges[c]
  }

  function TokensWithout(tokens: map<Id, AppToken>, u: Id): map<Id, AppToken> {
    map t | t in tokens && tokens[t].user != u :: tokens[t]
  }

  function AuditsWithout(audits: map<Id, Audit>, u: Id): map<Id, Audit> {
    map e | e in audits :: audits[e].(user := Forget(audits[e].user, u), actor := Forget(audits[e].actor, u))
  }

  function RemoveUser(db: Db, u: Id): Db {
    Db(db.users - {u}, PasskeysWithout(db.passkeys, u), SessionsWithout(db.sessions, u), LinksWithout(db.links, u),
       ChallengesWithout(db.challenges, db.links, u), TokensWithout(db.tokens, u), AuditsWithout(db.audits, u),
       ReaderWithout(db.reader, u))
  }

  predicate MayDelete(db: Db, user: Id, session: Id, now: Time) {
    MayDisable(db.users, user) && Fresh(db.sessions, user, session, now)
  }

  function DeleteAccount(db: Db, user: Id, session: Id, eventId: Id, now: Time): Step {
    if !MayDelete(db, user, session, now) then Step(db, if user in db.users then Conflict else NotFound)
    else if eventId in db.audits then Step(db, StorageFailure)
    else
      var jobless := db.(reader := DropJobs(db.reader, JobsOf(db.reader.items, user)),
                         audits := db.audits[eventId := Audit(Some(user), Some(user), AccountDeleted, now)]);
      var removed := RemoveUser(jobless, user);
      Step(removed.(reader := DropOrphanFeeds(removed.reader)), Done)
  }
}
