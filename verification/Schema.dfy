/** The tables of the access-control database, one map per table keyed by primary key,
    and the constraints SQLite itself enforces (UNIQUE, FOREIGN KEY and CHECK).
    Columns that no guard reads (names, public keys, transports, metadata) are not kept. */
module Schema {

  datatype Option<+T> = None | Some(value: T)

  type Id = nat      // the 53-bit row ids
  type Hash = nat    // a 32-byte SHA-256 digest, or a credential id, as a number
  type Time = int    // milliseconds since the epoch; retention cutoffs may be negative

  const DAY_MS := 86_400_000

  datatype Purpose = Authentication | Enrollment | Recovery

  // Username and email stand for their NOCASE identities.
  datatype User = User(username: string, email: string, isAdmin: bool,
                       disabledAt: Option<Time>, createdAt: Time)
  datatype Passkey = Passkey(user: Id, credential: Hash, signCount: nat, backedUp: bool,
                             lastUsedAt: Option<Time>, createdAt: Time, updatedAt: Time)
  datatype Session = Session(user: Id, token: Hash, expiresAt: Time, lastSeenAt: Time,
                             revokedAt: Option<Time>, createdAt: Time)
  datatype Link = Link(user: Id, createdBy: Option<Id>, purpose: Purpose, token: Hash, expiresAt: Time,
                       consumedAt: Option<Time>, revokedAt: Option<Time>, createdAt: Time)
  datatype Challenge = Challenge(user: Option<Id>, link: Option<Id>, purpose: Purpose, hash: Hash,
                                 expiresAt: Time, consumedAt: Option<Time>, createdAt: Time)
  datatype AppToken = AppToken(user: Id, token: Hash, fever: Option<Hash>, revokedAt: Option<Time>, createdAt: Time)

  datatype AuditKind =
    | AuthenticationSucceeded | PasskeyRegistered | RecoveryCompleted | SessionRevoked | PasskeyDeleted
    | EnrollmentCreated | RecoveryCreated | LinkRevoked | TokenCreated | TokenRevoked
    | OperatorEnrollment | OperatorRecovery | Disabled | Reactivated | AccountDeleted | ReaderWiped
  datatype Audit = Audit(user: Option<Id>, actor: Option<Id>, kind: AuditKind, createdAt: Time)

  // Reader data, kept only as far as wiping and deleting reach into it.
  datatype Item = Item(owner: Id, batch: Id, job: Option<Id>)
  datatype Reader = Reader(feeds: set<Id>, subs: map<(Id, Id), Id>, categories: map<Id, Id>,
                           imports: map<Id, Id>, items: map<Id, Item>, jobs: set<Id>)

  datatype Db = Db(users: map<Id, User>, passkeys: map<Id, Passkey>, sessions: map<Id, Session>,
                   links: map<Id, Link>, challenges: map<Id, Challenge>, tokens: map<Id, AppToken>,
                   audits: map<Id, Audit>, reader: Reader)

  const NO_READER := Reader({}, map[], map[], map[], map[], {})
  const EMPTY := Db(map[], map[], map[], map[], map[], map[], map[], NO_READER)

  // ----- Row predicates that the guards are built from -----

  predicate Enabled(users: map<Id, User>, u: Id) {
    u in users && users[u].disabledAt.None?
  }

  predicate ActiveAdmin(users: map<Id, User>, u: Id) {
    Enabled(users, u) && users[u].isAdmin
  }

  // Some enabled administrator other than `u` exists.
  predicate OtherAdmin(users: map<Id, User>, u: Id) {
    exists v :: v in users && v != u && ActiveAdmin(users, v)
  }

  predicate Open(l: Link) {
    l.consumedAt.None? && l.revokedAt.None?
  }

  predicate Usable(l: Link, now: Time) {
    Open(l) && l.expiresAt > now
  }

  // ----- Constraints -----

  predicate UsersOk(users: map<Id, User>) {
    forall u, v :: u in users && v in users && u != v ==>
      users[u].username != users[v].username && users[u].email != users[v].email
  }

  predicate PasskeysOk(users: map<Id, User>, passkeys: map<Id, Passkey>) {
    && (forall p :: p in passkeys ==> passkeys[p].user in users && passkeys[p].createdAt <= passkeys[p].updatedAt)
    && (forall p, q :: p in passkeys && q in passkeys && passkeys[p].credential == passkeys[q].credential ==> p == q)
  }

  predicate SessionsOk(users: map<Id, User>, sessions: map<Id, Session>) {
    && (forall s :: s in sessions ==>
      && sessions[s].user in users
      && sessions[s].createdAt < sessions[s].expiresAt
      && sessions[s].createdAt <= sessions[s].lastSeenAt)
    && (forall s, t :: s in sessions && t in sessions && sessions[s].token == sessions[t].token ==> s == t)
  }

  predicate LinkOk(users: map<Id, User>, l: Link) {
    && l.user in users
    && (l.createdBy.Some? ==> l.createdBy.value in users)
    && l.purpose != Authentication
    && l.createdAt < l.expiresAt
    && (l.consumedAt.None? || l.revokedAt.None?)
  }

  predicate LinksOk(users: map<Id, User>, links: map<Id, Link>) {
    && (forall l :: l in links ==> LinkOk(users, links[l]))
    && (forall l, m :: l in links && m in links && links[l].token == links[m].token ==> l == m)
  }

  predicate ChallengeOk(users: map<Id, User>, links: map<Id, Link>, c: Challenge) {
    && (c.user.Some? ==> c.user.value in users)
    && (c.link.Some? ==> c.link.value in links)
    && (c.purpose == Authentication || (c.user.Some? && c.link.Some?))
    && c.createdAt < c.expiresAt
  }

  predicate ChallengesOk(users: map<Id, User>, links: map<Id, Link>, challenges: map<Id, Challenge>) {
    && (forall c :: c in challenges ==> ChallengeOk(users, links, challenges[c]))
    && (forall c, d :: c in challenges && d in challenges && challenges[c].hash == challenges[d].hash ==> c == d)
  }

  predicate TokensOk(users: map<Id, User>, tokens: map<Id, AppToken>) {
    && (forall t :: t in tokens ==> tokens[t].user in users)
    && (forall t, r :: t in tokens && r in tokens && t != r ==>
      && tokens[t].token != tokens[r].token
      && (tokens[t].fever.Some? ==> tokens[t].fever != tokens[r].fever))
  }

  predicate AuditOk(users: map<Id, User>, e: Audit) {
    (e.user.Some? ==> e.user.value in users) && (e.actor.Some? ==> e.actor.value in users)
  }

  predicate AuditsOk(users: map<Id, User>, audits: map<Id, Audit>) {
    forall e :: e in audits ==> AuditOk(users, audits[e])
  }

  predicate ReaderOk(users: map<Id, User>, r: Reader) {
    && (forall k :: k in r.subs ==>
      k.0 in users && k.1 in r.feeds && r.subs[k] in r.categories && r.categories[r.subs[k]] == k.0)
    && (forall c :: c in r.categories ==> r.categories[c] in users)
    && (forall i :: i in r.imports ==> r.imports[i] in users)
    && (forall i :: i in r.items ==> r.items[i].batch in r.imports && r.imports[r.items[i].batch] == r.items[i].owner)
    && (forall i :: i in r.items && r.items[i].job.Some? ==> r.items[i].job.value in r.jobs)
    && (forall i, j :: i in r.items && j in r.items && r.items[i].job.Some? && r.items[i].job == r.items[j].job ==> i == j)
  }

  predicate Constraints(db: Db) {
    && UsersOk(db.users)
    && PasskeysOk(db.users, db.passkeys)
    && SessionsOk(db.users, db.sessions)
    && LinksOk(db.users, db.links)
    && ChallengesOk(db.users, db.links, db.challenges)
    && TokensOk(db.users, db.tokens)
    && AuditsOk(db.users, db.audits)
    && ReaderOk(db.users, db.reader)
  }

  // ----- Key collisions: the cases in which an INSERT fails and the transaction rolls back -----

  predicate UserClash(users: map<Id, User>, id: Id, username: string, email: string) {
    id in users || exists u :: u in users && (users[u].username == username || users[u].email == email)
  }

  predicate PasskeyClash(passkeys: map<Id, Passkey>, id: Id, credential: Hash) {
    id in passkeys || exists p :: p in passkeys && passkeys[p].credential == credential
  }

  predicate SessionClash(sessions: map<Id, Session>, id: Id, token: Hash) {
    id in sessions || exists s :: s in sessions && sessions[s].token == token
  }

  predicate LinkClash(links: map<Id, Link>, id: Id, token: Hash) {
    id in links || exists l :: l in links && links[l].token == token
  }

  predicate ChallengeClash(challenges: map<Id, Challenge>, id: Id, hash: Hash) {
    id in challenges || exists c :: c in challenges && challenges[c].hash == hash
  }

  predicate TokenClash(tokens: map<Id, AppToken>, id: Id, token: Hash, fever: Option<Hash>) {
    id in tokens || exists t :: t in tokens && (tokens[t].token == token || (fever.Some? && tokens[t].fever == fever))
  }
}
