/** Where rows come from: who was entitled, in the state in which the step ran, to what the step created. */
module Provenance {
  import opened Schema
  import opened Atomic
  import opened Retention
  import opened Protocol
  import opened Ledger

  // A user appears by the bootstrap of an empty database or by an enabled administrator's enrolment.
  lemma NewUsers(db: Db, a: Action, u: Id)
    requires u in Perform(db, a).db.users && u !in db.users
    ensures (a.Bootstrap? && db.users == map[]) || (a.Enroll? && ActiveAdmin(db.users, a.actor))
    ensures u == a.u.id && Perform(db, a).db.users[u].isAdmin == (a.Bootstrap? || a.u.isAdmin)
  {
    if !(a.Enroll? || a.Bootstrap?) {
      if a.Lock? || a.Unlock? || a.Delete? {
        hide Fresh, RevokeSessions, RevokeLinks, OtherAdmin;
      } else {
        hide Perform;
        UsersFrame(db, a);
      }
    }
  }

  // The link was made by the operator, by an enabled administrator, or by an enabled user for himself.
  predicate Entitled(users: map<Id, User>, l: Link) {
    if l.createdBy.None? then users == map[] || ActiveAdmin(users, l.user)
    else ActiveAdmin(users, l.createdBy.value) || (l.createdBy.value == l.user && l.purpose == Enrollment && Enabled(users, l.user))
  }

  // A link appears only by someone entitled to it, open, and never as a recovery of a disabled account.
  lemma NewLinks(db: Db, a: Action, l: Id)
    requires l in Perform(db, a).db.links && l !in db.links
    ensures var row := Perform(db, a).db.links[l];
      && Open(row) && Entitled(db.users, row) && (row.purpose == Recovery ==> Enabled(db.users, row.user))
  {
    if a.IssueRegistration? || a.Enroll? || a.Recover? || a.Bootstrap? || a.OperatorRecover? {
      hide LinkFails, ChallengeFails, UserClash, OtherAdmin;
    } else if a.CompleteReg? || a.EndLink? || a.Lock? || a.Delete? || a.Clean? {
      OldLinksOnly(db, a);
    } else {
      hide Perform;
      LinksFrame(db, a);
    }
  }

  lemma LinkKeys(links: map<Id, Link>, u: Id, now: Time)
    ensures RevokeLinks(links, u, now).Keys == links.Keys && LinksWithout(links, u).Keys <= links.Keys
  {}

  lemma CleanKeys(db: Db, a: Action)
    requires a.Clean?
    ensures Perform(db, a).db.links.Keys <= db.links.Keys && Perform(db, a).db.sessions.Keys <= db.sessions.Keys
  {
    hide Cleanup;
    CleanupShrinks(db, CutoffsAt(a.now), AUTH_CLEANUP_BATCH_SIZE);
  }

  lemma OldLinksOnly(db: Db, a: Action)
    requires a.CompleteReg? || a.EndLink? || a.Lock? || a.Delete? || a.Clean?
    ensures Perform(db, a).db.links.Keys <= db.links.Keys
  {
    hide Cleanup, RevokeLinks, LinksWithout, RevokeSessions, SessionsWithout, SessionFails, PasskeyClash, OtherAdmin;
    if a.Clean? {
      CleanKeys(db, a);
    } else if a.Lock? {
      LinkKeys(db.links, a.target, a.now);
    } else if a.Delete? {
      LinkKeys(db.links, a.user, a.now);
    } else if a.CompleteReg? {
      CompleteRegIs(db, a.registration);
      hide Perform;
    }
  }

  // A session appears only for an enabled user, who presented a passkey of his own with the counter it
  // then had, or a link that named him and is consumed at this very time.
  lemma NewSessions(db: Db, a: Action, s: Id)
    requires OpenLinksOk(db.users, db.links)
    requires s in Perform(db, a).db.sessions && s !in db.sessions
    ensures var after := Perform(db, a).db;
      var row := after.sessions[s];
      && Enabled(db.users, row.user) && row.revokedAt.None?
      && (a.CompleteAuth? || a.CompleteReg?)
      && (a.CompleteAuth? ==> a.completion.user == row.user && CounterHits(db.users, db.passkeys, a.completion) != {})
      && (a.CompleteReg? ==>
        var l := a.registration.link;
        l in after.links && after.links[l].user == row.user && after.links[l].consumedAt == Some(a.registration.now))
  {
    if a.CompleteAuth? {
      hide SessionFails, Predates;
    } else if a.CompleteReg? {
      CompleteRegIs(db, a.registration);
      hide Perform, PasskeyClash, SessionFails;
    } else {
      OldSessionsOnly(db, a);
    }
  }

  lemma SessionKeys(sessions: map<Id, Session>, u: Id, hits: set<Id>, now: Time)
    ensures RevokeSessions(sessions, u, now).Keys == sessions.Keys && SessionsWithout(sessions, u).Keys <= sessions.Keys
    ensures RevokeRows(sessions, hits, now).Keys == sessions.Keys
  {}

  lemma SessionsFrame(db: Db, a: Action)
    requires !(a.CompleteAuth? || a.CompleteReg? || a.SeeSession? || a.EndSession? || a.Lock? || a.Delete? || a.Clean?)
    ensures Perform(db, a).db.sessions == db.sessions
  {}

  lemma OldSessionsOnly(db: Db, a: Action)
    requires !(a.CompleteAuth? || a.CompleteReg?)
    ensures Perform(db, a).db.sessions.Keys <= db.sessions.Keys
  {
    hide Cleanup, RevokeSessions, RevokeRows, SessionsWithout, RevokeLinks, LinksWithout, OtherAdmin, Owner, Touch;
    if a.Clean? {
      CleanKeys(db, a);
    } else if a.Lock? {
      SessionKeys(db.sessions, a.target, {}, a.now);
    } else if a.Delete? {
      SessionKeys(db.sessions, a.user, {}, a.now);
    } else if a.EndSession? {
      SessionKeys(db.sessions, 0, Unrevoked(db.sessions, a.token), a.now);
    } else if !a.SeeSession? {
      hide Perform;
      SessionsFrame(db, a);
    }
  }
}
