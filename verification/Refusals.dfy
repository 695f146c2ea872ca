/** What a batch leaves behind when its guard refuses it: nothing, for the batches that chain on
    `changes()`; and for the other three, exactly when something. */
module Refusals {
  import opened Schema
  import opened Atomic
  import opened Protocol
  import opened Runs

  // ----- Chained batches are all-or-nothing -----

  // Batches in which every statement after the first needs the previous one to have touched a row.
  predicate Chained(a: Action) {
    a.CompleteAuth? || a.EndSession? || a.Enroll? || a.Recover? || a.EndLink? || a.Bootstrap? || a.OperatorRecover?
    || a.MakeToken? || a.EndToken?
  }

  function EventOf(a: Action): Id
    requires Chained(a)
  {
    if a.CompleteAuth? then a.completion.eventId else a.eventId
  }

  // `after` has one row more, the one under id `e`.
  predicate OneMore(before: map<Id, Audit>, after: map<Id, Audit>, e: Id) {
    e !in before && e in after && after == before[e := after[e]]
  }

  // Either every statement touched a row, one security event among them, or none did.
  lemma AllOrNothing(db: Db, a: Action)
    requires Chained(a)
    ensures var after := Perform(db, a);
      && after.outcome != InvariantError
      && (after.outcome == Done || after.db == db)
      && (after.db == db || OneMore(db.audits, after.db.audits, EventOf(a)))
      && (after.outcome == Done && !a.EndSession? ==> OneMore(db.audits, after.db.audits, EventOf(a)))
  {
    hide CounterHits, Advance, Predates, SessionFails, LinkFails, UserClash, TokenClash, RevokeRows, Unrevoked, Owner;
    if a.CompleteAuth? || a.EndSession? {
      AuthAllOrNothing(db, a);
    } else if a.Enroll? || a.Bootstrap? || a.Recover? || a.OperatorRecover? {
      LinkAllOrNothing(db, a);
    } else {
      assert Perform(db, a).outcome == Done ==> EventOf(a) !in db.audits;
    }
  }

  lemma LinkAllOrNothing(db: Db, a: Action)
    requires a.Enroll? || a.Bootstrap? || a.Recover? || a.OperatorRecover?
    ensures var after := Perform(db, a);
      && after.outcome != InvariantError
      && (after.outcome == Done || after.db == db)
      && (after.outcome == Done ==> OneMore(db.audits, after.db.audits, EventOf(a)))
  {
    hide LinkFails, UserClash;
    assert Perform(db, a).outcome == Done ==> EventOf(a) !in db.audits;
  }

  lemma AuthAllOrNothing(db: Db, a: Action)
    requires a.CompleteAuth? || a.EndSession?
    ensures var after := Perform(db, a);
      && after.outcome != InvariantError
      && (after.outcome == Done || after.db == db)
      && (after.db == db || OneMore(db.audits, after.db.audits, EventOf(a)))
      && (after.outcome == Done && !a.EndSession? ==> OneMore(db.audits, after.db.audits, EventOf(a)))
  {
    hide CounterHits, Advance, Predates, SessionFails, RevokeRows, Unrevoked, Owner;
    if a.CompleteAuth? { assert Perform(db, a).outcome == Done ==> EventOf(a) !in db.audits; }
  }

  // ----- Deleting a passkey -----

  // The final DELETE tests only the timestamp that the first UPDATE would have written.
  predicate Coincides(db: Db, a: Action) {
    && a.DropPasskey? && Owns(db.passkeys, a.user, a.passkey) && db.passkeys[a.passkey].updatedAt == a.now
    && !(OtherPasskey(db.passkeys, a.user, a.passkey) && Enabled(db.users, a.user))
  }

  lemma DeleteAllOrNothing(db: Db, a: Action)
    requires a.DropPasskey?
    ensures var after := Perform(db, a);
      && (Coincides(db, a) <==> after.outcome != Done && after.db != db)
      && (after.outcome == Done ==>
            && after.db.passkeys == db.passkeys - {a.passkey}
            && OneMore(db.audits, after.db.audits, a.eventId)
            && OtherPasskey(db.passkeys, a.user, a.passkey))
      && (Coincides(db, a) ==> after.outcome == InvariantError && after.db == db.(passkeys := db.passkeys - {a.passkey}))
  {
    if Coincides(db, a) {
      assert a.passkey in db.passkeys && a.passkey !in Perform(db, a).db.passkeys;
    }
  }

  // ----- A refused registration -----

  // No key of the completion is taken and its session would outlive `now`.
  predicate FreshKeys(db: Db, r: Registration) {
    && r.passkey.id !in db.passkeys && r.eventId !in db.audits
    && (r.session.Some? ==> !SessionFails(db.sessions, r.session.value, r.now))
  }

  // The refusal is no refusal at all: a session is opened for a passkey that was never stored.
  lemma RefusedRegistrationOpens(db: Db, r: Registration)
    requires !Redeemable(db, r) && FreshKeys(db, r)
    ensures var after := CompleteRegistration(db, r);
      && after.outcome == Refusal(r.proof)
      && (after.db != db <==> !r.proof.NoProof? && Mistaken(db, r) && r.session.Some? && Enabled(db.users, r.user))
      && (after.db != db ==> after.db == db.(sessions := db.sessions[r.session.value.id := SessionRow(r.session.value, r.user, r.now)]))
  {
    if !r.proof.NoProof? && Mistaken(db, r) && r.session.Some? && Enabled(db.users, r.user) {
      assert r.session.value.id in CompleteRegistration(db, r).db.sessions && r.session.value.id !in db.sessions;
    }
  }

  // ----- A refused lock -----

  ghost predicate HoldsLive(db: Db, u: Id) {
    || (exists s :: s in db.sessions && db.sessions[s].user == u && db.sessions[s].revokedAt.None?)
    || (exists l :: l in db.links && db.links[l].user == u && Open(db.links[l]))
  }

  lemma RevokesNothing(db: Db, u: Id, now: Time)
    ensures HoldsLive(db, u) <==> RevokeSessions(db.sessions, u, now) != db.sessions || RevokeLinks(db.links, u, now) != db.links
  {
    var sessions, links := RevokeSessions(db.sessions, u, now), RevokeLinks(db.links, u, now);
    if s :| s in db.sessions && db.sessions[s].user == u && db.sessions[s].revokedAt.None? {
      assert sessions[s] != db.sessions[s];
    } else if l :| l in db.links && db.links[l].user == u && Open(db.links[l]) {
      assert links[l] != db.links[l];
    } else {
      assert sessions == db.sessions && links == db.links;
    }
  }

  // A refused lock changes the database exactly when its target is the last enabled administrator and is
  // signed in or holds an open link: the very account the guard protects is signed out everywhere.
  lemma RefusedLockEvicts(db: Db, a: Action)
    requires a.Lock? && Guarded(db) && !MayDisable(db.users, a.target)
    ensures var after := Perform(db, a);
      && after.outcome == Conflict
      && (after.db != db <==> ActiveAdmin(db.users, a.target) && HoldsLive(db, a.target))
      && !HoldsLive(after.db, a.target) && after.db.users == db.users
  {
    RevokesNothing(db, a.target, a.now);
  }
}
