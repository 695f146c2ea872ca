/** One step never rewrites history: what each table's rows may still become. */
module History {
  import opened Schema
  import opened Atomic
  import opened Retention
  import opened Protocol

  predicate PasskeyLater(p: Passkey, q: Passkey) {
    q.user == p.user && q.credential == p.credential && q.createdAt == p.createdAt && p.signCount <= q.signCount
  }

  // A revoked session stays revoked, since when it was.
  predicate SessionLater(s: Session, t: Session) {
    && t.user == s.user && t.token == s.token && t.expiresAt == s.expiresAt && t.createdAt == s.createdAt
    && (s.revokedAt.Some? ==> t.revokedAt == s.revokedAt)
    && (s.lastSeenAt != t.lastSeenAt ==> s.revokedAt.None? && s.lastSeenAt < t.lastSeenAt)
  }

  // A link that is consumed or revoked stays exactly that.
  predicate LinkLater(l: Link, m: Link) {
    && m.user == l.user && m.purpose == l.purpose && m.token == l.token
    && m.expiresAt == l.expiresAt && m.createdAt == l.createdAt
    && (!Open(l) ==> m.consumedAt == l.consumedAt && m.revokedAt == l.revokedAt)
  }

  predicate ChallengeLater(c: Challenge, d: Challenge) {
    d == c || (c.consumedAt.None? && d.consumedAt.Some? && d == c.(consumedAt := d.consumedAt))
  }

  predicate PasskeysLater(t: map<Id, Passkey>, t': map<Id, Passkey>, ids: set<Id>) {
    && (forall x :: x in t && x in t' ==> PasskeyLater(t[x], t'[x]))
    && (forall x :: x in t' && x !in t ==> x in ids)
  }

  predicate SessionsLater(t: map<Id, Session>, t': map<Id, Session>, ids: set<Id>, hashes: set<Hash>) {
    && (forall x :: x in t && x in t' ==> SessionLater(t[x], t'[x]))
    && (forall x :: x in t' && x !in t ==> x in ids && t'[x].token in hashes && t'[x].revokedAt.None?)
  }

  predicate LinksLater(t: map<Id, Link>, t': map<Id, Link>, ids: set<Id>, hashes: set<Hash>) {
    && (forall x :: x in t && x in t' ==> LinkLater(t[x], t'[x]))
    && (forall x :: x in t' && x !in t ==> x in ids && t'[x].token in hashes && Open(t'[x]))
  }

  predicate ChallengesLater(t: map<Id, Challenge>, t': map<Id, Challenge>, ids: set<Id>, hashes: set<Hash>) {
    && (forall x :: x in t && x in t' ==> ChallengeLater(t[x], t'[x]))
    && (forall x :: x in t' && x !in t ==> x in ids && t'[x].hash in hashes && t'[x].consumedAt.None?)
  }

  predicate UsersLater(t: map<Id, User>, t': map<Id, User>, ids: set<Id>) {
    && (forall x :: x in t && x in t' ==> t'[x].isAdmin == t[x].isAdmin && t'[x].createdAt == t[x].createdAt)
    && (forall x :: x in t' && x !in t ==> x in ids)
  }

  predicate Later(db: Db, db': Db, ids: set<Id>, hashes: set<Hash>) {
    && UsersLater(db.users, db'.users, ids)
    && PasskeysLater(db.passkeys, db'.passkeys, ids)
    && SessionsLater(db.sessions, db'.sessions, ids, hashes)
    && LinksLater(db.links, db'.links, ids, hashes)
    && ChallengesLater(db.challenges, db'.challenges, ids, hashes)
    && db'.audits.Keys <= db.audits.Keys + ids
    && db'.tokens.Keys <= db.tokens.Keys + ids
  }

  // The identifiers and hashes a step draws.
  function NewIds(a: Action): set<Id> {
    match a
    case IssueAuth(c, _) => {c.id}
    case CompleteAuth(_, c) => {c.session.id, c.eventId}
    case IssueAccess(_, c, _) => {c.id}
    case IssueRegistration(_, l, c, _) => {l.id, c.id}
    case CompleteReg(r) => {r.passkey.id, r.eventId} + if r.session.Some? then {r.session.value.id} else {}
    case EndSession(_, e, _) => {e}
    case DropPasskey(_, _, e, _) => {e}
    case Enroll(_, u, l, e, _) => {u.id, l.id, e}
    case Recover(_, _, l, e, _) => {l.id, e}
    case EndLink(_, _, e, _) => {e}
    case Bootstrap(u, l, e, _) => {u.id, l.id, e}
    case OperatorRecover(_, l, e, _) => {l.id, e}
    case MakeToken(_, id, _, _, e, _) => {id, e}
    case EndToken(_, _, e, _) => {e}
    case Lock(_, _, e, _) => {e}
    case Unlock(_, _, e, _) => {e}
    case Wipe(_, _, e, _) => {e}
    case Delete(_, _, e, _) => {e}
    case _ => {}
  }

  function NewHashes(a: Action): set<Hash> {
    match a
    case IssueAuth(c, _) => {c.hash}
    case CompleteAuth(_, c) => {c.session.token}
    case IssueAccess(_, c, _) => {c.hash}
    case IssueRegistration(_, l, c, _) => {l.token, c.hash}
    case CompleteReg(r) => if r.session.Some? then {r.session.value.token} else {}
    case Enroll(_, _, l, _, _) => {l.token}
    case Recover(_, _, l, _, _) => {l.token}
    case Bootstrap(_, l, _, _) => {l.token}
    case OperatorRecover(_, l, _, _) => {l.token}
    case MakeToken(_, _, t, _, _, _) => {t}
    case _ => {}
  }

  // WebAuthn section 6.1.1: a verified counter exceeds the one read, or both are zero.
  predicate CounterVerified(a: Action) {
    a.CompleteAuth? ==> a.completion.readCount < a.completion.newCount || a.completion.readCount == a.completion.newCount == 0
  }

  // ----- Table by table -----

  lemma Unchanged(db: Db, ids: set<Id>, hashes: set<Hash>)
    ensures UsersLater(db.users, db.users, ids) && PasskeysLater(db.passkeys, db.passkeys, ids)
    ensures SessionsLater(db.sessions, db.sessions, ids, hashes) && LinksLater(db.links, db.links, ids, hashes)
    ensures ChallengesLater(db.challenges, db.challenges, ids, hashes)
  {}

  lemma PutUserLater(t: map<Id, User>, id: Id, row: User, ids: set<Id>)
    requires if id in t then row.isAdmin == t[id].isAdmin && row.createdAt == t[id].createdAt else id in ids
    ensures UsersLater(t, t[id := row], ids)
  {}

  lemma PutPasskeyLater(t: map<Id, Passkey>, id: Id, row: Passkey, ids: set<Id>)
    requires id !in t && id in ids
    ensures PasskeysLater(t, t[id := row], ids)
  {}

  lemma FewerPasskeysLater(t: map<Id, Passkey>, id: Id, ids: set<Id>)
    ensures PasskeysLater(t, t - {id}, ids)
  {}

  lemma RevokeRowsLater(t: map<Id, Session>, token: Hash, now: Time, ids: set<Id>, hashes: set<Hash>)
    ensures SessionsLater(t, RevokeRows(t, Unrevoked(t, token), now), ids, hashes)
  {}

  lemma PutSessionLater(t: map<Id, Session>, id: Id, row: Session, ids: set<Id>, hashes: set<Hash>)
    requires if id in t then SessionLater(t[id], row) else id in ids && row.token in hashes && row.revokedAt.None?
    ensures SessionsLater(t, t[id := row], ids, hashes)
  {}

  lemma PutLinkLater(t: map<Id, Link>, id: Id, row: Link, ids: set<Id>, hashes: set<Hash>)
    requires if id in t then LinkLater(t[id], row) else id in ids && row.token in hashes && Open(row)
    ensures LinksLater(t, t[id := row], ids, hashes)
  {}

  lemma PutChallengeLater(t: map<Id, Challenge>, id: Id, row: Challenge, ids: set<Id>, hashes: set<Hash>)
    requires if id in t then ChallengeLater(t[id], row) else id in ids && row.hash in hashes && row.consumedAt.None?
    ensures ChallengesLater(t, t[id := row], ids, hashes)
  {}

  lemma AdvanceLater(users: map<Id, User>, t: map<Id, Passkey>, a: Completion, ids: set<Id>)
    requires a.readCount <= a.newCount
    ensures PasskeysLater(t, Advance(t, CounterHits(users, t, a), a), ids)
  {}

  lemma RevokeLater(t: map<Id, Session>, user: Id, now: Time, ids: set<Id>, hashes: set<Hash>)
    ensures SessionsLater(t, RevokeSessions(t, user, now), ids, hashes)
  {}

  lemma RevokeThenPut(t: map<Id, Session>, user: Id, now: Time, id: Id, row: Session, ids: set<Id>, hashes: set<Hash>)
    requires id !in t && id in ids && row.token in hashes && row.revokedAt.None?
    ensures SessionsLater(t, RevokeSessions(t, user, now)[id := row], ids, hashes)
  {}

  lemma RevokeLinksLater(t: map<Id, Link>, user: Id, now: Time, ids: set<Id>, hashes: set<Hash>)
    ensures LinksLater(t, RevokeLinks(t, user, now), ids, hashes)
  {}

  lemma RemovedLater(db: Db, u: Id, ids: set<Id>, hashes: set<Hash>)
    ensures UsersLater(db.users, db.users - {u}, ids) && PasskeysLater(db.passkeys, PasskeysWithout(db.passkeys, u), ids)
    ensures SessionsLater(db.sessions, SessionsWithout(db.sessions, u), ids, hashes)
    ensures LinksLater(db.links, LinksWithout(db.links, u), ids, hashes)
    ensures ChallengesLater(db.challenges, ChallengesWithout(db.challenges, db.links, u), ids, hashes)
  {}

  // ----- Step by step -----

  // Rows only disappear.
  lemma FewerLater(db: Db, after: Db, ids: set<Id>, hashes: set<Hash>)
    requires forall x :: x in after.sessions ==> x in db.sessions && after.sessions[x] == db.sessions[x]
    requires forall x :: x in after.links ==> x in db.links && after.links[x] == db.links[x]
    requires forall x :: x in after.challenges ==> x in db.challenges && after.challenges[x] == db.challenges[x]
    ensures SessionsLater(db.sessions, after.sessions, ids, hashes)
    ensures LinksLater(db.links, after.links, ids, hashes) && ChallengesLater(db.challenges, after.challenges, ids, hashes)
  {}

  lemma CleanupLater(db: Db, cut: Cutoffs, n: nat, ids: set<Id>, hashes: set<Hash>)
    ensures Later(db, Cleanup(db, cut, n), ids, hashes)
  {
    hide Cleanup, UsersLater, PasskeysLater, SessionsLater, LinksLater, ChallengesLater;
    Unchanged(db, ids, hashes);
    CleanupShrinks(db, cut, n);
    FewerLater(db, Cleanup(db, cut, n), ids, hashes);
  }

  lemma CompleteAuthLater(db: Db, a: Action)
    requires a.CompleteAuth? && CounterVerified(a)
    ensures Later(db, Perform(db, a).db, NewIds(a), NewHashes(a))
  {
    hide UsersLater, PasskeysLater, SessionsLater, LinksLater, ChallengesLater;
    var c := a.completion;
    Unchanged(db, NewIds(a), NewHashes(a));
    AdvanceLater(db.users, db.passkeys, c, NewIds(a));
    if Perform(db, a).outcome == Done {
      PutSessionLater(db.sessions, c.session.id, SessionRow(c.session, c.user, c.now), NewIds(a), NewHashes(a));
    }
  }

  lemma RedeemLater(db: Db, a: Action)
    requires a.CompleteReg? && Redeemable(db, a.registration) && Perform(db, a).outcome != StorageFailure
    ensures Later(db, Perform(db, a).db, NewIds(a), NewHashes(a))
  {
    hide UsersLater, PasskeysLater, SessionsLater, LinksLater, ChallengesLater;
    var r := a.registration;
    Unchanged(db, NewIds(a), NewHashes(a));
    PutPasskeyLater(db.passkeys, r.passkey.id, NewPasskeyRow(r), NewIds(a));
    PutLinkLater(db.links, r.link, db.links[r.link].(consumedAt := Some(r.now)), NewIds(a), NewHashes(a));
    RevokeLater(db.sessions, r.user, r.now, NewIds(a), NewHashes(a));
    if r.session.Some? && Enabled(db.users, r.user) {
      var row := SessionRow(r.session.value, r.user, r.now);
      PutSessionLater(db.sessions, r.session.value.id, row, NewIds(a), NewHashes(a));
      RevokeThenPut(db.sessions, r.user, r.now, r.session.value.id, row, NewIds(a), NewHashes(a));
    }
  }

  lemma CompleteRegLater(db: Db, a: Action)
    requires a.CompleteReg?
    ensures Later(db, Perform(db, a).db, NewIds(a), NewHashes(a))
  {
    hide UsersLater, PasskeysLater, SessionsLater, LinksLater, ChallengesLater;
    var r := a.registration;
    Unchanged(db, NewIds(a), NewHashes(a));
    if Perform(db, a).outcome == StorageFailure || r.proof.NoProof? {
    } else if Redeemable(db, r) {
      RedeemLater(db, a);
    } else if Mistaken(db, r) && r.session.Some? && Enabled(db.users, r.user) {
      PutSessionLater(db.sessions, r.session.value.id, SessionRow(r.session.value, r.user, r.now), NewIds(a), NewHashes(a));
    }
  }

  lemma IssueLater(db: Db, a: Action)
    requires a.IssueAuth? || a.IssueAccess? || a.IssueRegistration?
    ensures Later(db, Perform(db, a).db, NewIds(a), NewHashes(a))
  {
    hide UsersLater, PasskeysLater, SessionsLater, LinksLater, ChallengesLater;
    var after := Perform(db, a).db;
    Unchanged(db, NewIds(a), NewHashes(a));
    if after != db {
      PutChallengeLater(db.challenges, a.c.id, after.challenges[a.c.id], NewIds(a), NewHashes(a));
      if a.IssueRegistration? && Enabled(db.users, a.user) {
        PutLinkLater(db.links, a.l.id, after.links[a.l.id], NewIds(a), NewHashes(a));
      }
    }
  }

  lemma ConsumeLater(db: Db, a: Action)
    requires a.ConsumeAuth? || a.ConsumeReg?
    ensures Later(db, Perform(db, a).db, NewIds(a), NewHashes(a))
  {
    hide UsersLater, PasskeysLater, SessionsLater, LinksLater, ChallengesLater;
    Unchanged(db, NewIds(a), NewHashes(a));
    if Perform(db, a).outcome == Done {
      PutChallengeLater(db.challenges, a.challenge, db.challenges[a.challenge].(consumedAt := Some(a.now)), NewIds(a), NewHashes(a));
    }
  }

  lemma SessionStepLater(db: Db, a: Action)
    requires a.SeeSession? || a.EndSession?
    ensures Later(db, Perform(db, a).db, NewIds(a), NewHashes(a))
  {
    hide UsersLater, PasskeysLater, SessionsLater, LinksLater, ChallengesLater;
    Unchanged(db, NewIds(a), NewHashes(a));
    var after := Perform(db, a).db;
    if a.EndSession? {
      RevokeRowsLater(db.sessions, a.token, a.now, NewIds(a), NewHashes(a));
    } else if after != db {
      PutSessionLater(db.sessions, a.session, after.sessions[a.session], NewIds(a), NewHashes(a));
    }
  }

  lemma DropPasskeyLater(db: Db, a: Action)
    requires a.DropPasskey?
    ensures Later(db, Perform(db, a).db, NewIds(a), NewHashes(a))
  {
    hide UsersLater, PasskeysLater, SessionsLater, LinksLater, ChallengesLater;
    Unchanged(db, NewIds(a), NewHashes(a));
    var after := Perform(db, a);
    if after.outcome == Done || after.outcome == InvariantError {
      FewerPasskeysLater(db.passkeys, a.passkey, NewIds(a));
    } else {
      assert after.db == db;
    }
  }

  lemma TokenStepLater(db: Db, a: Action)
    requires a.MakeToken? || a.EndToken? || a.Wipe?
    ensures Later(db, Perform(db, a).db, NewIds(a), NewHashes(a))
  {
    hide UsersLater, PasskeysLater, SessionsLater, LinksLater, ChallengesLater;
    Unchanged(db, NewIds(a), NewHashes(a));
  }

  lemma LinkStepLater(db: Db, a: Action)
    requires a.Enroll? || a.Recover? || a.Bootstrap? || a.OperatorRecover? || a.EndLink?
    ensures Later(db, Perform(db, a).db, NewIds(a), NewHashes(a))
  {
    hide UsersLater, PasskeysLater, SessionsLater, LinksLater, ChallengesLater;
    Unchanged(db, NewIds(a), NewHashes(a));
    var after := Perform(db, a);
    if after.outcome == Done {
      if a.EndLink? {
        PutLinkLater(db.links, a.link, db.links[a.link].(revokedAt := Some(a.now)), NewIds(a), NewHashes(a));
      } else {
        PutLinkLater(db.links, a.l.id, after.db.links[a.l.id], NewIds(a), NewHashes(a));
      }
      if a.Enroll? || a.Bootstrap? {
        PutUserLater(db.users, a.u.id, after.db.users[a.u.id], NewIds(a));
      }
    }
  }

  lemma LockStepLater(db: Db, a: Action)
    requires a.Lock? || a.Unlock?
    ensures Later(db, Perform(db, a).db, NewIds(a), NewHashes(a))
  {
    hide UsersLater, PasskeysLater, SessionsLater, LinksLater, ChallengesLater;
    Unchanged(db, NewIds(a), NewHashes(a));
    RevokeLater(db.sessions, a.target, a.now, NewIds(a), NewHashes(a));
    RevokeLinksLater(db.links, a.target, a.now, NewIds(a), NewHashes(a));
    var after := Perform(db, a);
    if after.outcome == Done {
      PutUserLater(db.users, a.target, after.db.users[a.target], NewIds(a));
    }
  }

  lemma DeleteLater(db: Db, a: Action)
    requires a.Delete?
    ensures Later(db, Perform(db, a).db, NewIds(a), NewHashes(a))
  {
    hide UsersLater, PasskeysLater, SessionsLater, LinksLater, ChallengesLater;
    Unchanged(db, NewIds(a), NewHashes(a));
    RemovedLater(db, a.user, NewIds(a), NewHashes(a));
  }

  lemma StepLater(db: Db, a: Action)
    requires CounterVerified(a)
    ensures Later(db, Perform(db, a).db, NewIds(a), NewHashes(a))
  {
    if a.Tick? {
      Unchanged(db, {}, {});
    } else {
      hide Later;
      match a
      case Clean(now) => CleanupLater(db, CutoffsAt(now), AUTH_CLEANUP_BATCH_SIZE, {}, {});
      case CompleteAuth(_, _) => CompleteAuthLater(db, a);
      case CompleteReg(_) => CompleteRegLater(db, a);
      case ConsumeAuth(_, _, _) => ConsumeLater(db, a);
      case ConsumeReg(_, _, _) => ConsumeLater(db, a);
      case SeeSession(_, _) => SessionStepLater(db, a);
      case EndSession(_, _, _) => SessionStepLater(db, a);
      case Lock(_, _, _, _) => LockStepLater(db, a);
      case Unlock(_, _, _, _) => LockStepLater(db, a);
      case Delete(_, _, _, _) => DeleteLater(db, a);
      case _ =>
        if Ceremony(a) {
          IssueLater(db, a);
        } else if a.DropPasskey? {
          DropPasskeyLater(db, a);
        } else if a.MakeToken? || a.EndToken? || a.Wipe? {
          TokenStepLater(db, a);
        } else {
          LinkStepLater(db, a);
        }
    }
  }
}
