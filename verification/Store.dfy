/** The repositories over D1, statement by statement.  Every method is one atomic step: a single
    statement, or a batch whose later statements test `changes()` and rows written by earlier ones.
    Each is proved to compute the corresponding function of Atomic, whose outcomes never include the
    invariant error for a chained batch. */
module Store {
  import opened Schema
  import opened Atomic
  import opened Retention
  import Protocol

  lemma AtMostOne(hits: set<Id>)
    requires forall x, y :: x in hits && y in hits ==> x == y
    ensures |hits| == if hits == {} then 0 else 1
  {
    if hits != {} {
      var x :| x in hits;
      assert hits == {x};
    }
  }

  // The outcome a repository method derives from the per-statement counts.
  function Verdict2(c0: nat, c1: nat, refused: Outcome): Outcome {
    if c0 == 0 && c1 == 0 then refused else if c0 == 1 && c1 == 1 then Done else InvariantError
  }

  function Verdict3(c0: nat, c1: nat, c2: nat, refused: Outcome): Outcome {
    if c0 == 0 && c1 == 0 && c2 == 0 then refused else if c0 == 1 && c1 == 1 && c2 == 1 then Done else InvariantError
  }

  predicate Advanced(passkeys: map<Id, Passkey>, a: Completion) {
    exists p :: p in passkeys && passkeys[p].credential == a.credential && passkeys[p].user == a.user
      && passkeys[p].signCount == a.newCount && passkeys[p].lastUsedAt == Some(a.now)
  }

  // The counter update hits at most one row, changes nothing when it hits none, and leaves behind the
  // row that the session insert looks for when it hits one.
  lemma AdvanceShape(db: Db, a: Completion)
    requires PasskeysOk(db.users, db.passkeys)
    ensures var hits := CounterHits(db.users, db.passkeys, a);
      && |hits| == (if hits == {} then 0 else 1)
      && (hits == {} ==> Advance(db.passkeys, hits, a) == db.passkeys)
      && (hits != {} ==> Enabled(db.users, a.user) && Advanced(Advance(db.passkeys, hits, a), a))
  {
    var hits := CounterHits(db.users, db.passkeys, a);
    AtMostOne(hits);
    if hits != {} {
      var p :| p in hits;
      assert p in Advance(db.passkeys, hits, a);
    }
  }

  lemma CardinalityOfSubset(a: set<Id>, b: set<Id>)
    requires a <= b
    ensures |a| <= |b|
  {
    assert b == a + (b - a);
  }

  function Larger(x: nat, y: nat): nat {
    if x > y then x else y
  }

  function OwnPasskeys(passkeys: map<Id, Passkey>, user: Id): set<Id> {
    set p | p in passkeys && passkeys[p].user == user
  }

  predicate OpensSession(db: Db, r: Registration) {
    Mistaken(db, r) && r.session.Some? && Enabled(db.users, r.user)
  }

  predicate LogsRegistration(db: Db, r: Registration) {
    Mistaken(db, r) && Owns(db.passkeys, r.user, r.passkey.id)
  }

  predicate TailFails(db: Db, r: Registration) {
    || (OpensSession(db, r) && SessionFails(db.sessions, r.session.value, r.now))
    || (LogsRegistration(db, r) && (r.eventId in db.audits || r.user !in db.users))
  }

  function Tail(db: Db, r: Registration): Db {
    db.(sessions := if OpensSession(db, r) then db.sessions[r.session.value.id := SessionRow(r.session.value, r.user, r.now)] else db.sessions,
        audits := if LogsRegistration(db, r) then db.audits[r.eventId := RegistrationAudit(r)] else db.audits)
  }

  // Run after a redemption the tail finishes it; run after a refusal it can still add rows.
  lemma TailMeaning(db: Db, r: Registration)
    requires LinksOk(db.users, db.links) && !r.proof.NoProof?
    ensures !Redeemable(db, r) ==>
      RefusedRegistration(db, r) == (if TailFails(db, r) then Step(db, StorageFailure) else Step(Tail(db, r), Refusal(r.proof)))
    ensures Redeemable(db, r) ==>
      var head := RedeemLink(db, r);
      && TailFails(head, r) == ((r.session.Some? && Enabled(db.users, r.user) && SessionFails(db.sessions, r.session.value, r.now)) || r.eventId in db.audits)
      && Tail(head, r) == Redeem(db, r) && LogsRegistration(head, r)
      && OpensSession(head, r) == (r.session.Some? && Enabled(db.users, r.user))
  {
    if r.session.Some? {
      RevokeKeepsKeys(db.sessions, r.user, r.now, r.session.value);
    }
  }

  // Revoking keeps every id and token, so it cannot make or cure a key collision.
  lemma RevokeKeepsKeys(sessions: map<Id, Session>, user: Id, now: Time, s: NewSession)
    ensures SessionFails(RevokeSessions(sessions, user, now), s, now) == SessionFails(sessions, s, now)
  {
    var after := RevokeSessions(sessions, user, now);
    assert forall t :: t in sessions <==> t in after;
    assert forall t :: t in sessions ==> sessions[t].token == after[t].token;
  }

  function Locking(db: Db, disabled: bool, actor: Id, target: Id, eventId: Id, now: Time): Step {
    if disabled then Disable(db, actor, target, eventId, now) else Reactivate(db, actor, target, eventId, now)
  }

  // The later statements of a wipe or a deletion look for the event by id and kind, not at changes(): when the
  // guard fails and an old event of that kind bears the drawn id, they run all the same.
  predicate HasEvent(audits: map<Id, Audit>, e: Id, kind: AuditKind) {
    e in audits && audits[e].kind == kind
  }

  function StaleWipe(db: Db, user: Id): Step {
    Step(db.(reader := WipeReader(db.reader, user)), Conflict)
  }

  function StaleDelete(db: Db, user: Id, eventId: Id): Step
    requires eventId in db.audits
  {
    var jobless := db.(reader := DropJobs(db.reader, JobsOf(db.reader.items, user)));
    var named := user in db.users && db.audits[eventId].user == Some(user);
    var removed := if named then RemoveUser(jobless, user) else jobless;
    Step(removed.(reader := DropOrphanFeeds(removed.reader)),
         if named then InvariantError else if user in db.users then Conflict else NotFound)
  }

  class Database {
    var db: Db         // the tables
    var changes: nat   // SQLite's changes(): the rows touched by the last statement

    constructor ()
      ensures db == EMPTY
    {
      db, changes := EMPTY, 0;
    }

    // ----- INSERT ... SELECT ... WHERE guard: false when a constraint fails -----

    method InsertSession(guard: bool, s: NewSession, user: Id, now: Time) returns (ok: bool)
      modifies this
      ensures ok == !(guard && (SessionFails(old(db).sessions, s, now) || user !in old(db).users))
      ensures db == if guard && ok then old(db).(sessions := old(db).sessions[s.id := SessionRow(s, user, now)]) else old(db)
      ensures ok ==> changes == if guard then 1 else 0
    {
      if !guard {
        changes := 0;
        return true;
      }
      if SessionFails(db.sessions, s, now) || user !in db.users {
        return false;
      }
      db, changes := db.(sessions := db.sessions[s.id := SessionRow(s, user, now)]), 1;
      return true;
    }

    method InsertLink(guard: bool, l: NewLink, row: Link) returns (ok: bool)
      requires row.token == l.token && row.expiresAt == l.expiresAt
      modifies this
      ensures ok == !(guard && (LinkFails(old(db).links, l, row.createdAt) || !LinkOk(old(db).users, row)))
      ensures db == if guard && ok then old(db).(links := old(db).links[l.id := row]) else old(db)
      ensures ok ==> changes == if guard then 1 else 0
    {
      if !guard {
        changes := 0;
        return true;
      }
      if LinkFails(db.links, l, row.createdAt) || !LinkOk(db.users, row) {
        return false;
      }
      db, changes := db.(links := db.links[l.id := row]), 1;
      return true;
    }

    method InsertChallenge(guard: bool, id: Id, row: Challenge) returns (ok: bool)
      modifies this
      ensures ok == !(guard && (ChallengeClash(old(db).challenges, id, row.hash) || !ChallengeOk(old(db).users, old(db).links, row)))
      ensures db == if guard && ok then old(db).(challenges := old(db).challenges[id := row]) else old(db)
      ensures ok ==> changes == if guard then 1 else 0
    {
      if !guard {
        changes := 0;
        return true;
      }
      if ChallengeClash(db.challenges, id, row.hash) || !ChallengeOk(db.users, db.links, row) {
        return false;
      }
      db, changes := db.(challenges := db.challenges[id := row]), 1;
      return true;
    }

    method InsertUser(guard: bool, id: Id, row: User) returns (ok: bool)
      modifies this
      ensures ok == !(guard && UserClash(old(db).users, id, row.username, row.email))
      ensures db == if guard && ok then old(db).(users := old(db).users[id := row]) else old(db)
      ensures ok ==> changes == if guard then 1 else 0
    {
      if !guard {
        changes := 0;
        return true;
      }
      if UserClash(db.users, id, row.username, row.email) {
        return false;
      }
      db, changes := db.(users := db.users[id := row]), 1;
      return true;
    }

    method InsertAudit(guard: bool, id: Id, row: Audit) returns (ok: bool)
      modifies this
      ensures ok == !(guard && (id in old(db).audits || !AuditOk(old(db).users, row)))
      ensures db == if guard && ok then old(db).(audits := old(db).audits[id := row]) else old(db)
      ensures ok ==> changes == if guard then 1 else 0
    {
      if !guard {
        changes := 0;
        return true;
      }
      if id in db.audits || !AuditOk(db.users, row) {
        return false;
      }
      db, changes := db.(audits := db.audits[id := row]), 1;
      return true;
    }

    // ----- Authentication -----

    method IssueAuthenticationChallenge(c: NewChallenge, now: Time) returns (outcome: Outcome)
      modifies this
      ensures Step(db, outcome) == Atomic.IssueAuthenticationChallenge(old(db), c, now)
    {
      var ok := InsertChallenge(true, c.id, Challenge(None, None, Authentication, c.hash, c.expiresAt, None, now));
      outcome := if ok then Done else StorageFailure;
    }

    // The SELECT that precedes the consuming UPDATE; other requests may commit in between.
    method FindAuthenticationChallenge(c: Id, credential: Hash, now: Time) returns (found: Option<Passkey>)
      ensures found.Some? <==> Consumable(db, c, credential, now)
      ensures found.Some? ==>
        && (exists p :: p in db.passkeys && db.passkeys[p] == found.value)
        && found.value.credential == credential && Enabled(db.users, found.value.user)
    {
      var hits := PasskeysOf(db.users, db.passkeys, credential);
      if c in db.challenges && db.challenges[c].purpose == Authentication && db.challenges[c].consumedAt.None?
        && db.challenges[c].expiresAt > now && hits != {}
      {
        var p :| p in hits;
        return Some(db.passkeys[p]);
      }
      return None;
    }

    method ConsumeAuthenticationChallenge(c: Id, credential: Hash, now: Time) returns (outcome: Outcome)
      modifies this
      ensures Step(db, outcome) == ConsumeAuthentication(old(db), c, credential, now)
    {
      changes := 0;
      if c in db.challenges && db.challenges[c].purpose == Authentication && db.challenges[c].consumedAt.None?
        && db.challenges[c].expiresAt > now && PasskeysOf(db.users, db.passkeys, credential) != {}
      {
        db, changes := db.(challenges := Consume(db.challenges, c, now)), 1;
      }
      outcome := if changes != 1 then AuthenticationFailed else Done;
    }

    method CompleteAuthentication(a: Completion) returns (outcome: Outcome)
      requires PasskeysOk(db.users, db.passkeys)
      modifies this
      ensures Step(db, outcome) == Atomic.CompleteAuthentication(old(db), a)
    {
      var saved := db;
      AdvanceShape(db, a);
      var hits := CounterHits(db.users, db.passkeys, a);
      if Predates(db.passkeys, hits, a.now) {
        return StorageFailure;
      }
      db, changes := db.(passkeys := Advance(db.passkeys, hits, a)), |hits|;
      var updated := changes;
      var ok := InsertSession(changes == 1 && Enabled(db.users, a.user) && Advanced(db.passkeys, a), a.session, a.user, a.now);
      if !ok {
        db := saved;
        return StorageFailure;
      }
      var minted := changes;
      ok := InsertAudit(changes == 1 && a.session.id in db.sessions && db.sessions[a.session.id].user == a.user,
                        a.eventId, Audit(Some(a.user), Some(a.user), AuthenticationSucceeded, a.now));
      if !ok {
        db := saved;
        return StorageFailure;
      }
      outcome := Verdict3(updated, minted, changes, AuthenticationFailed);
    }

    // ----- Registration -----

    // The SELECT of `findAccessContext` on the link (its passkey listing is not modelled).
    method FindAccessContext(token: Hash, now: Time) returns (found: Option<Id>)
      ensures found.Some? ==> found.value in db.links && db.links[found.value].token == token && Issuable(db, found.value, now)
      ensures found.None? ==> forall l :: l in db.links && db.links[l].token == token ==> !Issuable(db, l, now)
    {
      var hits := set l | l in db.links && db.links[l].token == token && Issuable(db, l, now);
      if hits == {} {
        assert forall l :: l in db.links && db.links[l].token == token && Issuable(db, l, now) ==> l in hits;
        return None;
      }
      var l :| l in hits;
      return Some(l);
    }

    method IssueAccessChallenge(link: Id, c: NewChallenge, now: Time) returns (outcome: Outcome)
      requires LinksOk(db.users, db.links)
      modifies this
      ensures Step(db, outcome) == Atomic.IssueAccessChallenge(old(db), link, c, now)
    {
      changes := 0;
      if link in db.links && Usable(db.links[link], now) && Enabled(db.users, db.links[link].user) {
        var ok := InsertChallenge(true, c.id, LinkChallenge(db.links[link], link, c, now));
        if !ok {
          return StorageFailure;
        }
      }
      outcome := if changes != 1 then AccessLinkInvalid else Done;
    }

    method IssueAuthenticatedRegistrationChallenge(user: Id, l: NewLink, c: NewChallenge, now: Time) returns (outcome: Outcome)
      requires LinksOk(db.users, db.links)
      modifies this
      ensures Step(db, outcome) == IssueRegistrationChallenge(old(db), user, l, c, now)
    {
      var saved := db;
      var ok := InsertLink(Enabled(db.users, user), l, Link(user, Some(user), Enrollment, l.token, l.expiresAt, None, None, now));
      if !ok {
        return StorageFailure;
      }
      var linked := changes;
      changes := 0;
      if OwnLink(db.links, l.id, user, now) {
        ok := InsertChallenge(true, c.id, LinkChallenge(db.links[l.id], l.id, c, now));
        if !ok {
          db := saved;
          return StorageFailure;
        }
      }
      outcome := Verdict2(linked, changes, Forbidden);
    }

    // The SELECT that precedes the consuming UPDATE finds the challenge exactly when that UPDATE, run at once,
    // would consume it: only the SELECT asks for the purpose, but a challenge that names a link has the link's.
    method FindRegistrationChallenge(c: Id, proof: Proof, now: Time) returns (found: Option<Challenge>)
      requires LinksOk(db.users, db.links) && Protocol.ChallengeOwnersOk(db.links, db.challenges)
      ensures found.Some? <==> ConsumeRegistration(db, c, proof, now).outcome == Done
      ensures found.Some? ==> c in db.challenges && found.value == db.challenges[c] && found.value.purpose != Authentication
    {
      if c in db.challenges && db.challenges[c].purpose != Authentication && RegistrationConsumable(db, c, proof, now) {
        return Some(db.challenges[c]);
      }
      return None;
    }

    method ConsumeRegistrationChallenge(c: Id, proof: Proof, now: Time) returns (outcome: Outcome)
      modifies this
      ensures Step(db, outcome) == ConsumeRegistration(old(db), c, proof, now)
    {
      if proof.NoProof? {
        return Forbidden;
      }
      changes := 0;
      if RegistrationConsumable(db, c, proof, now) {
        db, changes := db.(challenges := Consume(db.challenges, c, now)), 1;
      }
      outcome := if changes != 1 then Refusal(proof) else Done;
    }

    // The first three statements of the batch, with the counts of the first two.
    method RedeemStatements(r: Registration) returns (ok: bool, inserted: nat, consumed: nat)
      modifies this
      ensures ok == !(Redeemable(old(db), r) && PasskeyClash(old(db).passkeys, r.passkey.id, r.passkey.credential))
      ensures ok ==> inserted == consumed == if Redeemable(old(db), r) then 1 else 0
      ensures db == if ok && Redeemable(old(db), r) then RedeemLink(old(db), r) else old(db)
    {
      // INSERT INTO passkeys
      changes := 0;
      if Redeemable(db, r) {
        if PasskeyClash(db.passkeys, r.passkey.id, r.passkey.credential) {
          return false, 0, 0;
        }
        db, changes := db.(passkeys := db.passkeys[r.passkey.id := NewPasskeyRow(r)]), 1;
      }
      inserted := changes;
      // UPDATE user_access_links
      if Redeemable(db, r) && changes == 1 && Owns(db.passkeys, r.user, r.passkey.id) {
        db := db.(links := db.links[r.link := db.links[r.link].(consumedAt := Some(r.now))]);
      } else {
        changes := 0;
      }
      consumed := changes;
      // UPDATE sessions
      if r.purpose == Recovery && changes == 1 && Mistaken(db, r) && db.links[r.link].purpose == Recovery {
        db, changes := db.(sessions := RevokeSessions(db.sessions, r.user, r.now)),
          |set s | s in db.sessions && db.sessions[s].user == r.user && db.sessions[s].revokedAt.None?|;
      } else {
        changes := 0;
      }
      ok := true;
    }

    // The last statements, guarded by the link's consumption time rather than by changes().
    method RegistrationTail(r: Registration) returns (ok: bool, minted: nat)
      modifies this
      ensures ok == !TailFails(old(db), r)
      ensures ok ==> db == Tail(old(db), r)
      ensures ok ==> minted == (if r.session.Some? && !OpensSession(old(db), r) then 0 else 1)
      ensures ok ==> changes == if LogsRegistration(old(db), r) then 1 else 0
    {
      // INSERT INTO sessions
      minted := 1;
      if r.session.Some? {
        ok := InsertSession(Mistaken(db, r) && Enabled(db.users, r.user), r.session.value, r.user, r.now);
        if !ok {
          return;
        }
        minted := changes;
      }
      // INSERT INTO security_events
      ok := InsertAudit(Mistaken(db, r) && Owns(db.passkeys, r.user, r.passkey.id), r.eventId, RegistrationAudit(r));
    }

    method CompleteRegistration(r: Registration) returns (outcome: Outcome)
      requires LinksOk(db.users, db.links)
      modifies this
      ensures Step(db, outcome) == Atomic.CompleteRegistration(old(db), r)
    {
      if r.proof.NoProof? {
        return Forbidden;
      }
      var saved := db;
      var ok, inserted, consumed := RedeemStatements(r);
      if !ok {
        return StorageFailure;
      }
      var minted;
      ok, minted := RegistrationTail(r);
      TailMeaning(saved, r);
      if !ok {
        db := saved;
        return StorageFailure;
      }
      if inserted == 0 && consumed == 0 {
        return Refusal(r.proof);
      }
      outcome := if inserted == 1 && consumed == 1 && minted == 1 && changes == 1 then Done else InvariantError;
    }

    // ----- Sessions -----

    method FindSession(token: Hash, now: Time, idleCutoff: Time) returns (found: Option<Id>)
      ensures found.Some? ==> found.value in Atomic.FindSession(db, token, now, idleCutoff)
      ensures found.None? ==> Atomic.FindSession(db, token, now, idleCutoff) == {}
    {
      var hits := Atomic.FindSession(db, token, now, idleCutoff);
      if hits == {} {
        return None;
      }
      var s :| s in hits;
      return Some(s);
    }

    // The throttled UPDATE that may follow a successful SELECT.
    method TouchSession(id: Id, now: Time, idleCutoff: Time, throttleCutoff: Time) returns (outcome: Outcome)
      modifies this
      ensures Step(db, outcome) == Atomic.TouchSession(old(db), id, now, idleCutoff, throttleCutoff)
    {
      changes := 0;
      if id in db.sessions && Accepts(db.sessions[id], now, idleCutoff) && db.sessions[id].lastSeenAt <= throttleCutoff {
        var row := db.sessions[id].(lastSeenAt := now);
        if row.lastSeenAt < row.createdAt && row != db.sessions[id] {
          return StorageFailure;
        }
        db, changes := db.(sessions := db.sessions[id := row]), 1;
      }
      outcome := Done;
    }

    method RevokeSession(token: Hash, eventId: Id, now: Time) returns (outcome: Outcome)
      requires SessionsOk(db.users, db.sessions)
      modifies this
      ensures Step(db, outcome) == Atomic.RevokeSession(old(db), token, eventId, now)
    {
      var saved := db;
      var hits := Unrevoked(db.sessions, token);
      AtMostOne(hits);
      db, changes := db.(sessions := RevokeRows(db.sessions, hits, now)), |hits|;
      var revoked := changes;
      var rows := set s | s in db.sessions && db.sessions[s].token == token && db.sessions[s].revokedAt == Some(now);
      if changes == 1 && rows != {} {
        var s :| s in rows;
        var owner := Some(db.sessions[s].user);
        var ok := InsertAudit(true, eventId, Audit(owner, owner, SessionRevoked, now));
        if !ok {
          db := saved;
          return StorageFailure;
        }
      } else {
        changes := 0;
      }
      outcome := if (revoked == 0 && changes == 0) || (revoked == 1 && changes == 1) then Done else InvariantError;
    }

    // ----- Passkey deletion -----

    // The SELECT that counts the caller's passkeys before the batch.
    method CountPasskeys(user: Id, passkey: Id) returns (target: nat, total: nat)
      ensures target == if Enabled(db.users, user) && Owns(db.passkeys, user, passkey) then 1 else 0
      ensures total == if Enabled(db.users, user) then |OwnPasskeys(db.passkeys, user)| else 0
      ensures target == 1 ==> (total >= 2 <==> OtherPasskey(db.passkeys, user, passkey))
    {
      if !Enabled(db.users, user) {
        return 0, 0;
      }
      var own := OwnPasskeys(db.passkeys, user);
      target, total := if passkey in own then 1 else 0, |own|;
      if q :| q in db.passkeys && q != passkey && db.passkeys[q].user == user {
        CardinalityOfSubset({passkey, q}, own + {passkey});
      } else {
        AtMostOne(own);
      }
    }

    method DeletePasskey(user: Id, passkey: Id, eventId: Id, now: Time) returns (outcome: Outcome)
      modifies this
      ensures Step(db, outcome) == Atomic.DeletePasskey(old(db), user, passkey, eventId, now)
    {
      var saved := db;
      changes := 0;
      if Owns(db.passkeys, user, passkey) && OtherPasskey(db.passkeys, user, passkey) && Enabled(db.users, user) {
        if now < db.passkeys[passkey].createdAt {
          return StorageFailure;
        }
        db, changes := db.(passkeys := db.passkeys[passkey := db.passkeys[passkey].(updatedAt := now)]), 1;
      }
      var marked := changes;
      var ok := InsertAudit(changes == 1 && Owns(db.passkeys, user, passkey) && db.passkeys[passkey].updatedAt == now,
                            eventId, Audit(Some(user), Some(user), PasskeyDeleted, now));
      if !ok {
        db := saved;
        return StorageFailure;
      }
      var logged := changes;
      changes := 0;
      if Owns(db.passkeys, user, passkey) && db.passkeys[passkey].updatedAt == now {
        assert db.passkeys - {passkey} == saved.passkeys - {passkey};
        db, changes := db.(passkeys := db.passkeys - {passkey}), 1;
      }
      outcome := Verdict3(marked, logged, changes, Conflict);
    }

    // ----- Access links -----

    // The SELECT that looks for a taken username or email before the batch.
    // With fresh keys and an administrator acting, it tells exactly whether the batch, run at once, would fail.
    method FindDuplicate(username: string, email: string) returns (taken: bool)
      ensures forall actor, u: NewUser, l, eventId, now ::
        ActiveAdmin(db.users, actor) && u.username == username && u.email == email
        && u.id !in db.users && !LinkFails(db.links, l, now) && eventId !in db.audits ==>
          Atomic.CreateEnrollmentLink(db, actor, u, l, eventId, now).outcome == (if taken then StorageFailure else Done)
    {
      taken := exists u :: u in db.users && (db.users[u].username == username || db.users[u].email == email);
    }

    method CreateEnrollmentLink(actor: Id, u: NewUser, l: NewLink, eventId: Id, now: Time) returns (outcome: Outcome)
      modifies this
      ensures Step(db, outcome) == Atomic.CreateEnrollmentLink(old(db), actor, u, l, eventId, now)
    {
      var saved := db;
      var ok := InsertUser(ActiveAdmin(db.users, actor), u.id, UserRow(u, now));
      if !ok {
        return StorageFailure;
      }
      var enrolled := changes;
      ok := InsertLink(changes == 1 && ActiveAdmin(db.users, actor) && u.id in db.users,
                       l, Link(u.id, Some(actor), Enrollment, l.token, l.expiresAt, None, None, now));
      if !ok {
        db := saved;
        return StorageFailure;
      }
      var linked := changes;
      ok := InsertAudit(changes == 1 && ActiveAdmin(db.users, actor) && l.id in db.links && db.links[l.id].user == u.id,
                        eventId, Audit(Some(u.id), Some(actor), EnrollmentCreated, now));
      if !ok {
        db := saved;
        return StorageFailure;
      }
      outcome := Verdict3(enrolled, linked, changes, Forbidden);
    }

    method CreateRecoveryLink(actor: Id, target: Id, l: NewLink, eventId: Id, now: Time) returns (outcome: Outcome)
      modifies this
      ensures Step(db, outcome) == Atomic.CreateRecoveryLink(old(db), actor, target, l, eventId, now)
    {
      var saved := db;
      var ok := InsertLink(Enabled(db.users, target) && ActiveAdmin(db.users, actor),
                           l, Link(target, Some(actor), Recovery, l.token, l.expiresAt, None, None, now));
      if !ok {
        return StorageFailure;
      }
      var linked := changes;
      ok := InsertAudit(changes == 1 && ActiveAdmin(db.users, actor) && l.id in db.links && db.links[l.id].user == target,
                        eventId, Audit(Some(target), Some(actor), RecoveryCreated, now));
      if !ok {
        db := saved;
        return StorageFailure;
      }
      outcome := Verdict2(linked, changes, NotFound);
    }

    method RevokeAccessLink(actor: Id, link: Id, eventId: Id, now: Time) returns (outcome: Outcome)
      requires LinksOk(db.users, db.links)
      modifies this
      ensures Step(db, outcome) == Atomic.RevokeAccessLink(old(db), actor, link, eventId, now)
    {
      var saved := db;
      changes := 0;
      if link in db.links && Open(db.links[link]) && ActiveAdmin(db.users, actor) {
        db, changes := db.(links := db.links[link := db.links[link].(revokedAt := Some(now))]), 1;
      }
      var revoked := changes;
      if link in db.links && db.links[link].revokedAt == Some(now) && changes == 1 && ActiveAdmin(db.users, actor) {
        var ok := InsertAudit(true, eventId, Audit(Some(db.links[link].user), Some(actor), LinkRevoked, now));
        if !ok {
          db := saved;
          return StorageFailure;
        }
      } else {
        changes := 0;
      }
      outcome := Verdict2(revoked, changes, NotFound);
    }

    // ----- Operator -----

    method CreateInitialAdminLink(u: NewUser, l: NewLink, eventId: Id, now: Time) returns (outcome: Outcome)
      modifies this
      ensures Step(db, outcome) == InitialAdmin(old(db), u, l, eventId, now)
    {
      var saved := db;
      var ok := InsertUser(db.users == map[], u.id, UserRow(u, now).(isAdmin := true));
      if !ok {
        return StorageFailure;
      }
      var enrolled := changes;
      ok := InsertLink(changes == 1 && ActiveAdmin(db.users, u.id),
                       l, Link(u.id, None, Enrollment, l.token, l.expiresAt, None, None, now));
      if !ok {
        db := saved;
        return StorageFailure;
      }
      var linked := changes;
      ok := InsertAudit(changes == 1 && l.id in db.links && db.links[l.id].user == u.id && db.links[l.id].purpose == Enrollment,
                        eventId, Audit(Some(u.id), None, OperatorEnrollment, now));
      if !ok {
        db := saved;
        return StorageFailure;
      }
      outcome := Verdict3(enrolled, linked, changes, Conflict);
    }

    method CreateOperatorRecoveryLink(target: Id, l: NewLink, eventId: Id, now: Time) returns (outcome: Outcome)
      modifies this
      ensures Step(db, outcome) == OperatorRecoveryLink(old(db), target, l, eventId, now)
    {
      var saved := db;
      var ok := InsertLink(ActiveAdmin(db.users, target), l, Link(target, None, Recovery, l.token, l.expiresAt, None, None, now));
      if !ok {
        return StorageFailure;
      }
      var linked := changes;
      ok := InsertAudit(changes == 1 && l.id in db.links && db.links[l.id].user == target && db.links[l.id].purpose == Recovery,
                        eventId, Audit(Some(target), None, OperatorRecovery, now));
      if !ok {
        db := saved;
        return StorageFailure;
      }
      outcome := Verdict2(linked, changes, NotFound);
    }

    // ----- App tokens -----

    method CreateAppToken(user: Id, id: Id, token: Hash, fever: Option<Hash>, eventId: Id, now: Time) returns (outcome: Outcome)
      modifies this
      ensures Step(db, outcome) == Atomic.CreateAppToken(old(db), user, id, token, fever, eventId, now)
    {
      var saved := db;
      changes := 0;
      if Enabled(db.users, user) {
        if TokenClash(db.tokens, id, token, fever) {
          return StorageFailure;
        }
        db, changes := db.(tokens := db.tokens[id := AppToken(user, token, fever, None, now)]), 1;
      }
      var created := changes;
      var ok := InsertAudit(changes == 1 && id in db.tokens && db.tokens[id].user == user,
                            eventId, Audit(Some(user), Some(user), TokenCreated, now));
      if !ok {
        db := saved;
        return StorageFailure;
      }
      outcome := Verdict2(created, changes, Forbidden);
    }

    method RevokeAppToken(user: Id, id: Id, eventId: Id, now: Time) returns (outcome: Outcome)
      modifies this
      ensures Step(db, outcome) == Atomic.RevokeAppToken(old(db), user, id, eventId, now)
    {
      var saved := db;
      changes := 0;
      if id in db.tokens && db.tokens[id].user == user && db.tokens[id].revokedAt.None? && Enabled(db.users, user) {
        db, changes := db.(tokens := db.tokens[id := db.tokens[id].(revokedAt := Some(now))]), 1;
      }
      var revoked := changes;
      var ok := InsertAudit(changes == 1 && id in db.tokens && db.tokens[id].user == user && db.tokens[id].revokedAt == Some(now),
                            eventId, Audit(Some(user), Some(user), TokenRevoked, now));
      if !ok {
        db := saved;
        return StorageFailure;
      }
      outcome := Verdict2(revoked, changes, NotFound);
    }

    // ----- Administration -----

    // The target row is read first; the batch runs only when its state is to change.
    // An early answer other than the refusal of oneself means that the batch, run at once, would update no
    // user.  Without one it does, unless it would lock the last enabled administrator.
    method FindTarget(actor: Id, target: Id, disabled: bool) returns (early: Option<Outcome>)
      ensures early == Some(Forbidden) <==> target == actor && target in db.users
      ensures early == Some(NotFound) <==> target !in db.users
      ensures early.Some? ==> early.value == Forbidden || early.value == NotFound || early.value == Done
      ensures early == Some(Done) ==> db.users[target].disabledAt.Some? == disabled
      ensures early.Some? && early != Some(Forbidden) ==>
        forall eventId, now :: Locking(db, disabled, actor, target, eventId, now).outcome == Conflict
      ensures early.None? ==>
        forall eventId, now :: (Locking(db, disabled, actor, target, eventId, now).outcome == Conflict
          <==> (disabled && ActiveAdmin(db.users, target) && !OtherAdmin(db.users, target)))
    {
      early := if target !in db.users then Some(NotFound)
        else if target == actor then Some(Forbidden)
        else if db.users[target].disabledAt.Some? == disabled then Some(Done) else None;
    }

    method SetUserDisabled(actor: Id, target: Id, disabled: bool, eventId: Id, now: Time) returns (outcome: Outcome)
      modifies this
      ensures Step(db, outcome) == Locking(old(db), disabled, actor, target, eventId, now)
    {
      var saved := db;
      changes := 0;
      if if disabled then MayDisable(db.users, target) else target in db.users && db.users[target].disabledAt.Some? {
        if now < db.users[target].createdAt {
          return StorageFailure;
        }
        var stamp := if disabled then Some(now) else None;
        db, changes := db.(users := db.users[target := db.users[target].(disabledAt := stamp)]), 1;
      }
      var updated := changes;
      var ok := InsertAudit(changes == 1, eventId,
                            Audit(Some(target), Some(actor), if disabled then Disabled else Reactivated, now));
      if !ok {
        db := saved;
        return StorageFailure;
      }
      var logged := changes;
      if disabled {
        db := db.(sessions := RevokeSessions(db.sessions, target, now));
        db := db.(links := RevokeLinks(db.links, target, now));
      }
      outcome := Verdict2(updated, logged, Conflict);
    }

    // ----- Account deletion and reader wipe -----

    predicate Logged(eventId: Id, kind: AuditKind)
      reads this
    {
      HasEvent(db.audits, eventId, kind)
    }

    method WipeReaderData(user: Id, session: Id, eventId: Id, now: Time) returns (outcome: Outcome)
      requires ReaderOk(db.users, db.reader)
      modifies this
      ensures Step(db, outcome) ==
        if !(Enabled(old(db).users, user) && Fresh(old(db).sessions, user, session, now)) && HasEvent(old(db).audits, eventId, ReaderWiped)
        then StaleWipe(old(db), user) else Atomic.WipeReaderData(old(db), user, session, eventId, now)
    {
      var ok := InsertAudit(Enabled(db.users, user) && Fresh(db.sessions, user, session, now),
                            eventId, Audit(Some(user), Some(user), ReaderWiped, now));
      if !ok {
        return StorageFailure;
      }
      var logged := changes;
      if Logged(eventId, ReaderWiped) {
        db := db.(reader := DropJobs(db.reader, JobsOf(db.reader.items, user)));
      }
      if Logged(eventId, ReaderWiped) {
        db := db.(reader := DropImports(db.reader, user));
      }
      if Logged(eventId, ReaderWiped) {
        db := db.(reader := DropSubs(db.reader, user));
      }
      if Logged(eventId, ReaderWiped) {
        // The subscriptions' foreign key on categories does not cascade, so the order matters here.
        assert forall k :: k in db.reader.subs ==> db.reader.categories[db.reader.subs[k]] != user;
        db := db.(reader := DropCategories(db.reader, user));
      }
      if Logged(eventId, ReaderWiped) {
        db := db.(reader := DropOrphanFeeds(db.reader));
      }
      outcome := if logged != 1 then Conflict else Done;
    }

    method DeleteAccount(user: Id, session: Id, eventId: Id, now: Time) returns (outcome: Outcome)
      modifies this
      ensures Step(db, outcome) ==
        if !MayDelete(old(db), user, session, now) && HasEvent(old(db).audits, eventId, AccountDeleted)
        then StaleDelete(old(db), user, eventId) else Atomic.DeleteAccount(old(db), user, session, eventId, now)
    {
      var ok := InsertAudit(MayDelete(db, user, session, now), eventId, Audit(Some(user), Some(user), AccountDeleted, now));
      if !ok {
        return StorageFailure;
      }
      var logged := changes;
      if Logged(eventId, AccountDeleted) {
        db := db.(reader := DropJobs(db.reader, JobsOf(db.reader.items, user)));
      }
      var deleted := 0;
      if user in db.users && Logged(eventId, AccountDeleted) && db.audits[eventId].user == Some(user) {
        db := RemoveUser(db, user);
        deleted := 1;
      }
      if Logged(eventId, AccountDeleted) {
        db := db.(reader := DropOrphanFeeds(db.reader));
      }
      if logged == 1 && deleted == 1 {
        return Done;
      }
      if logged != deleted {
        return InvariantError;
      }
      outcome := if user in db.users then Conflict else NotFound;
    }

    // ----- Retention -----

    method CleanChallengeRows(cut: Time, n: nat) returns (most: nat)
      modifies this
      ensures db == old(db).(challenges := CleanChallenges(old(db).challenges, cut, n)) && most <= n
    {
      var gone := Oldest(ConsumedChallenges(db.challenges, cut), n);
      db, most := db.(challenges := db.challenges - gone), |gone|;
      gone := Oldest(ExpiredChallenges(db.challenges, cut), n);
      db, most := db.(challenges := db.challenges - gone), Larger(most, |gone|);
    }

    method CleanLinkRows(cut: Time, n: nat) returns (most: nat)
      modifies this
      ensures db == old(db).(links := CleanLinks(old(db).links, old(db).challenges, cut, n)) && most <= n
    {
      var gone := Oldest(ConsumedLinks(db.links, db.challenges, cut), n);
      db, most := db.(links := db.links - gone), |gone|;
      gone := Oldest(RevokedLinks(db.links, db.challenges, cut), n);
      db, most := db.(links := db.links - gone), Larger(most, |gone|);
      gone := Oldest(ExpiredLinks(db.links, db.challenges, cut), n);
      db, most := db.(links := db.links - gone), Larger(most, |gone|);
    }

    method CleanSessionRows(revoked: Time, expired: Time, n: nat) returns (most: nat)
      modifies this
      ensures db == old(db).(sessions := CleanSessions(old(db).sessions, revoked, expired, n)) && most <= n
    {
      var gone := Oldest(RevokedSessions(db.sessions, revoked), n);
      db, most := db.(sessions := db.sessions - gone), |gone|;
      gone := Oldest(ExpiredSessions(db.sessions, expired), n);
      db, most := db.(sessions := db.sessions - gone), Larger(most, |gone|);
    }

    method CleanupRetainedRecords(cut: Cutoffs, batchSize: nat) returns (outcome: Outcome)
      modifies this
      ensures Step(db, outcome) == Step(Cleanup(old(db), cut, batchSize), Done)
    {
      var c := CleanChallengeRows(cut.challenge, batchSize);
      var l := CleanLinkRows(cut.link, batchSize);
      var s := CleanSessionRows(cut.revokedSession, cut.expiredSession, batchSize);
      var gone := Oldest(OldAudits(db.audits, cut.audit), batchSize);
      db := db.(audits := db.audits - gone);
      outcome := if Larger(Larger(c, l), Larger(s, |gone|)) > batchSize then InvariantError else Done;
    }
  }
}
