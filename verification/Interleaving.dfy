/** Cleanups do their work in the midst of everything else: however the steps of a run fall between them,
    enough cleanups leave no row past the cutoffs of the moment one started from. */
module Interleaving {
  import opened Schema
  import opened Atomic
  import opened Retention
  import opened Protocol
  import opened History
  import opened Runs
  import opened Ledger
  import opened Provenance
  import opened Sweeping
  import opened Aging

  // ----- No step makes a row that is past the cutoffs -----

  // A session made or revoked by a step carries the step's own time.
  ghost predicate SessionsStamped(before: map<Id, Session>, after: map<Id, Session>, now: Time) {
    forall s :: s in after ==>
      if s in before then after[s].expiresAt == before[s].expiresAt && (after[s].revokedAt == before[s].revokedAt || after[s].revokedAt == Some(now))
      else after[s].createdAt == now && after[s].revokedAt.None?
  }

  lemma RevocationsStamped(sessions: map<Id, Session>, u: Id, hits: set<Id>, now: Time)
    ensures SessionsStamped(sessions, RevokeSessions(sessions, u, now), now)
    ensures SessionsStamped(sessions, RevokeRows(sessions, hits, now), now)
    ensures SessionsStamped(sessions, SessionsWithout(sessions, u), now) && SessionsStamped(sessions, sessions, now)
  {}

  lemma PutStamped(sessions: map<Id, Session>, after: map<Id, Session>, id: Id, row: Session, now: Time)
    requires SessionsStamped(sessions, after, now)
    requires if id in sessions then row.expiresAt == sessions[id].expiresAt && row.revokedAt == sessions[id].revokedAt
             else row.createdAt == now && row.revokedAt.None?
    ensures SessionsStamped(sessions, after[id := row], now)
  {}

  lemma FewerStamped(sessions: map<Id, Session>, after: map<Id, Session>, now: Time)
    requires forall s :: s in after ==> s in sessions && after[s] == sessions[s]
    ensures SessionsStamped(sessions, after, now)
  {}

  // Every security event carries the time of the step that wrote it, and keeps it.
  ghost predicate AuditsStamped(before: map<Id, Audit>, after: map<Id, Audit>, now: Time) {
    forall e :: e in after ==> if e in before then after[e].createdAt == before[e].createdAt else after[e].createdAt == now
  }

  // A new link carries the time of the step that made it.
  ghost predicate LinksDated(before: map<Id, Link>, after: map<Id, Link>, now: Time) {
    forall l :: l in after && l !in before ==> after[l].createdAt == now
  }

  // ----- Counting what is past fixed cutoffs -----

  // The keys of the eight kinds of rows past the cutoffs only dwindle.
  ghost predicate NoneOlder(db: Db, after: Db, f: Cutoffs) {
    && ConsumedChallenges(after.challenges, f.challenge).Keys <= ConsumedChallenges(db.challenges, f.challenge).Keys
    && ExpiredChallenges(after.challenges, f.challenge).Keys <= ExpiredChallenges(db.challenges, f.challenge).Keys
    && ConsumedLinks(after.links, map[], f.link).Keys <= ConsumedLinks(db.links, map[], f.link).Keys
    && RevokedLinks(after.links, map[], f.link).Keys <= RevokedLinks(db.links, map[], f.link).Keys
    && ExpiredLinks(after.links, map[], f.link).Keys <= ExpiredLinks(db.links, map[], f.link).Keys
    && RevokedSessions(after.sessions, f.revokedSession).Keys <= RevokedSessions(db.sessions, f.revokedSession).Keys
    && ExpiredSessions(after.sessions, f.expiredSession).Keys <= ExpiredSessions(db.sessions, f.expiredSession).Keys
    && OldAudits(after.audits, f.audit).Keys <= OldAudits(db.audits, f.audit).Keys
  }

  // ----- One cleanup, whose own cutoffs are no earlier, takes a batch of each kind -----

  lemma ConsumedChallengesLeft(ch: map<Id, Challenge>, f: Time, cut: Time, n: nat, after: map<Id, Challenge>)
    requires f <= cut
    requires forall x :: x in after ==> x in ch && x !in Oldest(ConsumedChallenges(ch, cut), n) && after[x] == ch[x]
    ensures |ConsumedChallenges(after, f)| <= Drop(|ConsumedChallenges(ch, f)|, n)
  {
    hide Oldest;
    OldestTakesPast(ConsumedChallenges(ch, cut), ConsumedChallenges(ch, f), f, n);
    FewerRows(ConsumedChallenges(ch, f) - Oldest(ConsumedChallenges(ch, cut), n), ConsumedChallenges(after, f));
  }

  lemma ExpiredChallengesLeft(ch: map<Id, Challenge>, f: Time, cut: Time, n: nat, after: map<Id, Challenge>)
    requires f <= cut
    requires forall x :: x in after ==> x in ch && x !in Oldest(ExpiredChallenges(ch, cut), n) && after[x] == ch[x]
    ensures |ExpiredChallenges(after, f)| <= Drop(|ExpiredChallenges(ch, f)|, n)
  {
    hide Oldest;
    OldestTakesPast(ExpiredChallenges(ch, cut), ExpiredChallenges(ch, f), f, n);
    FewerRows(ExpiredChallenges(ch, f) - Oldest(ExpiredChallenges(ch, cut), n), ExpiredChallenges(after, f));
  }

  lemma ChallengesLeft(ch: map<Id, Challenge>, f: Time, cut: Time, n: nat)
    requires f <= cut
    ensures var after := CleanChallenges(ch, cut, n);
      && |ConsumedChallenges(after, f)| <= Drop(|ConsumedChallenges(ch, f)|, n)
      && |ExpiredChallenges(after, f)| <= Drop(|ExpiredChallenges(ch, f)|, n)
  {
    hide Oldest, ConsumedChallenges, ExpiredChallenges, SweepChallenges;
    var one := Oldest(ConsumedChallenges(ch, cut), n);
    ConsumedGo(ch, cut, one);
    ConsumedChallengesLeft(ch, f, cut, n, CleanChallenges(ch, cut, n));
    ExpiredChallengesLeft(ch, f, cut, n, CleanChallenges(ch, cut, n));
  }

  lemma RevokedSessionsLeft(ss: map<Id, Session>, f: Time, cut: Time, n: nat, after: map<Id, Session>)
    requires f <= cut
    requires forall x :: x in after ==> x in ss && x !in Oldest(RevokedSessions(ss, cut), n) && after[x] == ss[x]
    ensures |RevokedSessions(after, f)| <= Drop(|RevokedSessions(ss, f)|, n)
  {
    hide Oldest;
    OldestTakesPast(RevokedSessions(ss, cut), RevokedSessions(ss, f), f, n);
    FewerRows(RevokedSessions(ss, f) - Oldest(RevokedSessions(ss, cut), n), RevokedSessions(after, f));
  }

  lemma ExpiredSessionsLeft(ss: map<Id, Session>, f: Time, cut: Time, n: nat, after: map<Id, Session>)
    requires f <= cut
    requires forall x :: x in after ==> x in ss && x !in Oldest(ExpiredSessions(ss, cut), n) && after[x] == ss[x]
    ensures |ExpiredSessions(after, f)| <= Drop(|ExpiredSessions(ss, f)|, n)
  {
    hide Oldest;
    OldestTakesPast(ExpiredSessions(ss, cut), ExpiredSessions(ss, f), f, n);
    FewerRows(ExpiredSessions(ss, f) - Oldest(ExpiredSessions(ss, cut), n), ExpiredSessions(after, f));
  }

  lemma AuditsLeft(es: map<Id, Audit>, f: Time, cut: Time, n: nat)
    requires f <= cut
    ensures |OldAudits(CleanAudits(es, cut, n), f)| <= Drop(|OldAudits(es, f)|, n)
  {
    hide Oldest;
    OldestTakesPast(OldAudits(es, cut), OldAudits(es, f), f, n);
    FewerRows(OldAudits(es, f) - Oldest(OldAudits(es, cut), n), OldAudits(CleanAudits(es, cut, n), f));
  }

  lemma RecordsLeft(db: Db, f: Cutoffs, cut: Cutoffs, n: nat, most: nat)
    requires RecordsFit(db, f, most)
    requires f.revokedSession <= cut.revokedSession && f.expiredSession <= cut.expiredSession && f.audit <= cut.audit
    ensures RecordsFit(Cleanup(db, cut, n), f, Drop(most, n))
  {
    hide Oldest, RevokedSessions, ExpiredSessions, OldAudits, SweepSessions, CleanChallenges, CleanLinks, CleanAudits;
    var ss := db.sessions;
    var one := Oldest(RevokedSessions(ss, cut.revokedSession), n);
    RevokedSessionsGo(ss, cut.revokedSession, cut.expiredSession, one);
    var after := CleanSessions(ss, cut.revokedSession, cut.expiredSession, n);
    RevokedSessionsLeft(ss, f.revokedSession, cut.revokedSession, n, after);
    ExpiredSessionsLeft(ss, f.expiredSession, cut.expiredSession, n, after);
    AuditsLeft(db.audits, f.audit, cut.audit, n);
  }

  // ----- What one step does to the tables -----

  lemma CompleteAuthStamped(db: Db, a: Action)
    requires a.CompleteAuth?
    ensures SessionsStamped(db.sessions, Perform(db, a).db.sessions, StepTime(a))
  {
    hide SessionsStamped, CounterHits, Predates, Advance;
    var c := a.completion;
    RevocationsStamped(db.sessions, 0, {}, c.now);
    if Perform(db, a).outcome == Done {
      PutStamped(db.sessions, db.sessions, c.session.id, SessionRow(c.session, c.user, c.now), c.now);
    }
  }

  lemma RefusedStamped(db: Db, r: Registration)
    ensures SessionsStamped(db.sessions, RefusedRegistration(db, r).db.sessions, r.now)
  {
    hide SessionsStamped, Mistaken, SessionClash;
    RevocationsStamped(db.sessions, r.user, {}, r.now);
    if r.session.Some? && !SessionFails(db.sessions, r.session.value, r.now) {
      NotThere(db.sessions, r.session.value);
      PutStamped(db.sessions, db.sessions, r.session.value.id, SessionRow(r.session.value, r.user, r.now), r.now);
    }
  }

  lemma RedeemStamped(db: Db, r: Registration)
    requires r.link in db.links && (r.session.Some? && Enabled(db.users, r.user) ==> !SessionFails(db.sessions, r.session.value, r.now))
    ensures SessionsStamped(db.sessions, Redeem(db, r).sessions, r.now)
  {
    hide SessionsStamped, RevokeSessions, SessionClash;
    var kept := if r.purpose == Recovery then RevokeSessions(db.sessions, r.user, r.now) else db.sessions;
    RevocationsStamped(db.sessions, r.user, {}, r.now);
    if r.session.Some? && Enabled(db.users, r.user) {
      NotThere(db.sessions, r.session.value);
      PutStamped(db.sessions, kept, r.session.value.id, SessionRow(r.session.value, r.user, r.now), r.now);
    }
  }

  lemma CompleteRegStamped(db: Db, r: Registration)
    ensures SessionsStamped(db.sessions, CompleteRegistration(db, r).db.sessions, r.now)
  {
    hide SessionsStamped, PasskeyClash, SessionFails, RefusedRegistration, Redeem;
    RevocationsStamped(db.sessions, r.user, {}, r.now);
    RefusedStamped(db, r);
    if CompleteRegistration(db, r).outcome != StorageFailure && Redeemable(db, r) {
      RedeemStamped(db, r);
    }
  }

  lemma NotThere(sessions: map<Id, Session>, s: NewSession)
    requires !SessionClash(sessions, s.id, s.token)
    ensures s.id !in sessions
  {}

  lemma StepSessions(db: Db, a: Action)
    requires !a.Tick?
    ensures SessionsStamped(db.sessions, Perform(db, a).db.sessions, StepTime(a))
  {
    hide SessionsStamped, Cleanup, RevokeSessions, RevokeRows, SessionsWithout, RevokeLinks, LinksWithout, OtherAdmin, Owner, CompleteRegistration, CompleteAuthentication;
    if a.CompleteAuth? {
      CompleteAuthStamped(db, a);
    } else if a.CompleteReg? {
      CompleteRegStamped(db, a.registration);
    } else if a.Clean? {
      CleanupShrinks(db, CutoffsAt(a.now), AUTH_CLEANUP_BATCH_SIZE);
      FewerStamped(db.sessions, Perform(db, a).db.sessions, a.now);
    } else if a.SeeSession? {
      RevocationsStamped(db.sessions, 0, {}, a.now);
      if a.session in db.sessions {
        PutStamped(db.sessions, db.sessions, a.session, Perform(db, a).db.sessions[a.session], a.now);
      }
    } else if a.EndSession? {
      RevocationsStamped(db.sessions, 0, Unrevoked(db.sessions, a.token), a.now);
    } else if a.Lock? || a.Delete? {
      RevocationsStamped(db.sessions, if a.Lock? then a.target else a.user, {}, a.now);
    } else {
      hide Perform;
      SessionsFrame(db, a);
      RevocationsStamped(db.sessions, 0, {}, StepTime(a));
    }
  }

  lemma PutAudit(audits: map<Id, Audit>, e: Id, row: Audit, now: Time)
    requires row.createdAt == now
    ensures AuditsStamped(audits, audits, now) && (e !in audits ==> AuditsStamped(audits, audits[e := row], now))
  {}

  lemma DeleteStamps(audits: map<Id, Audit>, e: Id, row: Audit, u: Id, now: Time)
    requires e !in audits && row.createdAt == now
    ensures AuditsStamped(audits, AuditsWithout(audits[e := row], u), now)
  {}

  lemma CompletionsStampAudits(db: Db, a: Action)
    requires a.CompleteAuth? || a.CompleteReg?
    ensures AuditsStamped(db.audits, Perform(db, a).db.audits, StepTime(a))
  {
    hide AuditsStamped, SessionFails, PasskeyClash, CounterHits, Predates, Redeemable, Mistaken, Owns, Advance, RevokeSessions;
    if a.CompleteAuth? {
      var c := a.completion;
      PutAudit(db.audits, c.eventId, Audit(Some(c.user), Some(c.user), AuthenticationSucceeded, c.now), c.now);
    } else {
      PutAudit(db.audits, a.registration.eventId, RegistrationAudit(a.registration), a.registration.now);
    }
  }

  predicate WritesLinkEvent(a: Action) {
    a.Enroll? || a.Recover? || a.EndLink? || a.Bootstrap? || a.OperatorRecover?
  }

  predicate WritesLockEvent(a: Action) {
    a.Lock? || a.Unlock?
  }

  predicate WritesEvent(a: Action) {
    WritesLinkEvent(a) || WritesLockEvent(a) || a.EndSession? || a.DropPasskey? || a.MakeToken? || a.EndToken? || a.Wipe?
  }

  lemma AuditsFrame(db: Db, a: Action)
    requires !(WritesEvent(a) || a.CompleteAuth? || a.CompleteReg? || a.Delete? || a.Clean?)
    ensures Perform(db, a).db.audits == db.audits
  {}

  ghost predicate OneMore(before: map<Id, Audit>, after: map<Id, Audit>, e: Id, now: Time) {
    after == before || (e !in before && e in after && after == before[e := after[e]] && after[e].createdAt == now)
  }

  lemma AddsLinkEvent(db: Db, a: Action)
    requires WritesLinkEvent(a)
    ensures OneMore(db.audits, Perform(db, a).db.audits, a.eventId, a.now)
  {
    hide LinkFails, UserClash, ActiveAdmin, Enabled, Open;
  }

  lemma AddsLockEvent(db: Db, a: Action)
    requires WritesLockEvent(a)
    ensures OneMore(db.audits, Perform(db, a).db.audits, a.eventId, a.now)
  {
    hide MayDisable, RevokeSessions, RevokeLinks;
  }

  lemma AddsUserEvent(db: Db, a: Action)
    requires a.EndSession? || a.DropPasskey? || a.MakeToken? || a.EndToken? || a.Wipe?
    ensures OneMore(db.audits, Perform(db, a).db.audits, a.eventId, a.now)
  {
    hide TokenClash, Fresh, Enabled, WipeReader, OtherPasskey, Owner, Owns, RevokeRows, Unrevoked;
  }

  lemma EventStamped(db: Db, a: Action)
    requires WritesEvent(a)
    ensures AuditsStamped(db.audits, Perform(db, a).db.audits, a.now)
  {
    hide Perform;
    if WritesLinkEvent(a) { AddsLinkEvent(db, a); } else if WritesLockEvent(a) { AddsLockEvent(db, a); } else { AddsUserEvent(db, a); }
  }

  lemma StepAudits(db: Db, a: Action)
    requires !a.Tick?
    ensures AuditsStamped(db.audits, Perform(db, a).db.audits, StepTime(a))
  {
    hide Cleanup, AuditsStamped, AuditsWithout, MayDelete;
    if a.Clean? {
      AuditsShrink(db, CutoffsAt(a.now), AUTH_CLEANUP_BATCH_SIZE);
      FewerAudits(db.audits, Perform(db, a).db.audits, a.now);
    } else if a.Delete? {
      var row := Audit(Some(a.user), Some(a.user), AccountDeleted, a.now);
      PutAudit(db.audits, a.eventId, row, a.now);
      if a.eventId !in db.audits { DeleteStamps(db.audits, a.eventId, row, a.user, a.now); }
    } else if a.CompleteAuth? || a.CompleteReg? {
      CompletionsStampAudits(db, a);
    } else {
      hide Perform;
      FewerAudits(db.audits, db.audits, a.now);
      if WritesEvent(a) { EventStamped(db, a); } else { AuditsFrame(db, a); }
    }
  }

  lemma FewerAudits(audits: map<Id, Audit>, after: map<Id, Audit>, now: Time)
    requires forall e :: e in after ==> e in audits && after[e] == audits[e]
    ensures AuditsStamped(audits, after, now)
  {}

  lemma AuditsShrink(db: Db, cut: Cutoffs, n: nat)
    ensures forall e :: e in Cleanup(db, cut, n).audits ==> e in db.audits && Cleanup(db, cut, n).audits[e] == db.audits[e]
  {
    hide Oldest;
  }

  lemma StepDatesLinks(db: Db, a: Action)
    requires !a.Tick?
    ensures LinksDated(db.links, Perform(db, a).db.links, StepTime(a))
  {
    if a.IssueRegistration? || a.Enroll? || a.Recover? || a.Bootstrap? || a.OperatorRecover? {
      hide LinkFails, ChallengeFails, UserClash, ActiveAdmin, Enabled, OwnLink;
    } else if a.CompleteReg? || a.EndLink? || a.Lock? || a.Delete? || a.Clean? {
      hide Perform;
      OldLinksOnly(db, a);
    } else {
      hide Perform;
      LinksFrame(db, a);
    }
  }

  // ----- So the rows past the cutoffs only dwindle -----

  // A challenge after the step is the old one, or the old one consumed now, or one issued now.
  ghost predicate ChallengesDated(before: map<Id, Challenge>, after: map<Id, Challenge>, now: Time) {
    forall c :: c in after ==>
      if c in before then after[c] == before[c] || after[c] == before[c].(consumedAt := Some(now))
      else after[c].consumedAt.None? && now < after[c].expiresAt
  }

  lemma ChallengesDwindle(before: map<Id, Challenge>, after: map<Id, Challenge>, now: Time, f: Time)
    requires ChallengesDated(before, after, now) && f < now
    ensures ConsumedChallenges(after, f).Keys <= ConsumedChallenges(before, f).Keys
    ensures ExpiredChallenges(after, f).Keys <= ExpiredChallenges(before, f).Keys
  {}

  lemma LinksDwindle(before: map<Id, Link>, after: map<Id, Link>, ids: set<Id>, hashes: set<Hash>, now: Time, f: Time)
    requires Stamped(before, after, now) && LinksDated(before, after, now) && LinksLater(before, after, ids, hashes) && f < now
    requires forall l :: l in after ==> after[l].createdAt < after[l].expiresAt
    ensures ConsumedLinks(after, map[], f).Keys <= ConsumedLinks(before, map[], f).Keys
    ensures RevokedLinks(after, map[], f).Keys <= RevokedLinks(before, map[], f).Keys
    ensures ExpiredLinks(after, map[], f).Keys <= ExpiredLinks(before, map[], f).Keys
  {}

  lemma SessionsDwindle(before: map<Id, Session>, after: map<Id, Session>, ids: set<Id>, hashes: set<Hash>, now: Time, f: Cutoffs)
    requires SessionsStamped(before, after, now) && SessionsLater(before, after, ids, hashes)
    requires f.revokedSession < now && f.expiredSession < now
    requires forall s :: s in after ==> after[s].createdAt < after[s].expiresAt
    ensures RevokedSessions(after, f.revokedSession).Keys <= RevokedSessions(before, f.revokedSession).Keys
    ensures ExpiredSessions(after, f.expiredSession).Keys <= ExpiredSessions(before, f.expiredSession).Keys
  {}

  lemma AuditsDwindle(before: map<Id, Audit>, after: map<Id, Audit>, now: Time, f: Time)
    requires AuditsStamped(before, after, now) && f < now
    ensures OldAudits(after, f).Keys <= OldAudits(before, f).Keys
  {}

  lemma StepDatesChallenges(w: World, a: Action)
    requires !a.Tick? && Allowed(w, a) && Base(Next(w, a))
    ensures ChallengesDated(w.db.challenges, Next(w, a).db.challenges, StepTime(a))
  {
    hide Perform, Used, Guarded, Record;
    var after := Perform(w.db, a).db.challenges;
    TimelyThen(w, a);
    forall c | c in after
      ensures if c in w.db.challenges then after[c] == w.db.challenges[c] || after[c] == w.db.challenges[c].(consumedAt := Some(StepTime(a)))
              else after[c].consumedAt.None? && StepTime(a) < after[c].expiresAt
    {
      if c in w.db.challenges { StepConsumes(w.db, a, c); } else { StepIssues(w.db, a, c); }
    }
  }

  lemma TimelyThen(w: World, a: Action)
    requires !a.Tick? && Allowed(w, a)
    ensures Timely(StepTime(a), a) && w.clock - MAX_LAG_MS <= StepTime(a)
  {}

  lemma RowsExpireLater(db: Db)
    requires Constraints(db)
    ensures forall l :: l in db.links ==> db.links[l].createdAt < db.links[l].expiresAt
    ensures forall s :: s in db.sessions ==> db.sessions[s].createdAt < db.sessions[s].expiresAt
  {}

  lemma StepLaterRows(db: Db, a: Action)
    requires CounterVerified(a)
    ensures LinksLater(db.links, Perform(db, a).db.links, NewIds(a), NewHashes(a))
    ensures SessionsLater(db.sessions, Perform(db, a).db.sessions, NewIds(a), NewHashes(a))
  {
    hide Perform, LinksLater, SessionsLater, ChallengesLater, UsersLater, PasskeysLater;
    StepLater(db, a);
  }

  lemma SameOlder(db: Db, f: Cutoffs)
    ensures NoneOlder(db, db, f)
  {}

  lemma StepNoneOlder(w: World, a: Action, t0: Time)
    requires Base(w) && Allowed(w, a) && t0 <= w.clock
    ensures NoneOlder(w.db, Next(w, a).db, CutoffsAt(t0))
  {
    hide Perform, Base, Constraints, Stamped, LinksDated, LinksLater, SessionsLater, SessionsStamped, AuditsStamped, ChallengesDated, Record,
         ConsumedChallenges, ExpiredChallenges, ConsumedLinks, RevokedLinks, ExpiredLinks, RevokedSessions, ExpiredSessions, OldAudits;
    var f := CutoffsAt(t0);
    if a.Tick? {
      TickKeeps(w.db, a);
      SameOlder(w.db, f);
    } else {
      var after := Next(w, a).db;
      var now := StepTime(a);
      BaseStep(w, a);
      TimelyThen(w, a);
      StepDatesChallenges(w, a);
      ChallengesDwindle(w.db.challenges, after.challenges, now, f.challenge);
      BaseHolds(Next(w, a));
      StepLaterRows(w.db, a);
      StepStamps(w.db, a);
      StepDatesLinks(w.db, a);
      LinksDwindle(w.db.links, after.links, NewIds(a), NewHashes(a), now, f.link);
      StepSessions(w.db, a);
      SessionsDwindle(w.db.sessions, after.sessions, NewIds(a), NewHashes(a), now, f);
      StepAudits(w.db, a);
      AuditsDwindle(w.db.audits, after.audits, now, f.audit);
    }
  }

  lemma BaseHolds(w: World)
    requires Base(w)
    ensures forall l :: l in w.db.links ==> w.db.links[l].createdAt < w.db.links[l].expiresAt
    ensures forall s :: s in w.db.sessions ==> w.db.sessions[s].createdAt < w.db.sessions[s].expiresAt
  {
    hide Constraints;
    RowsExpireLater(w.db);
  }

  // ----- And a cleanup takes a batch of them -----

  // Row counts past the cutoffs, kind by kind, at most these.
  predicate Left(db: Db, f: Cutoffs, challenges: nat, links: nat, records: nat) {
    ChallengesFit(db.challenges, f.challenge, challenges) && LinksFit(db.links, f.link, links) && RecordsFit(db, f, records)
  }

  // A cleanup of a request that read its clock no earlier than `t0`.
  predicate Cleans(a: Action, t0: Time) {
    a.Clean? && a.now >= t0
  }

  lemma NoneOlderLeft(db: Db, after: Db, f: Cutoffs, challenges: nat, links: nat, records: nat)
    requires NoneOlder(db, after, f) && Left(db, f, challenges, links, records)
    ensures Left(after, f, challenges, links, records)
  {
    hide ConsumedChallenges, ExpiredChallenges, ConsumedLinks, RevokedLinks, ExpiredLinks, RevokedSessions, ExpiredSessions, OldAudits;
    FewerRows(ConsumedChallenges(db.challenges, f.challenge), ConsumedChallenges(after.challenges, f.challenge));
    FewerRows(ExpiredChallenges(db.challenges, f.challenge), ExpiredChallenges(after.challenges, f.challenge));
    FewerRows(ConsumedLinks(db.links, map[], f.link), ConsumedLinks(after.links, map[], f.link));
    FewerRows(RevokedLinks(db.links, map[], f.link), RevokedLinks(after.links, map[], f.link));
    FewerRows(ExpiredLinks(db.links, map[], f.link), ExpiredLinks(after.links, map[], f.link));
    FewerRows(RevokedSessions(db.sessions, f.revokedSession), RevokedSessions(after.sessions, f.revokedSession));
    FewerRows(ExpiredSessions(db.sessions, f.expiredSession), ExpiredSessions(after.sessions, f.expiredSession));
    FewerRows(OldAudits(db.audits, f.audit), OldAudits(after.audits, f.audit));
  }

  // With no challenge past its cutoff left, none refers to a link past its own.
  lemma NonePastUnreferenced(db: Db, f: Cutoffs, after: map<Id, Challenge>)
    requires Outlived(db, f) && ChallengesFit(db.challenges, f.challenge, 0)
    requires forall c :: c in after ==> c in db.challenges && after[c] == db.challenges[c]
    ensures Unreferenced(db.links, after, f.link)
  {
    NoneLeftC(db.challenges, f.challenge);
    SweptUnreferenced(db, f, db.links);
  }

  lemma CleanTakes(db: Db, t0: Time, now: Time, challenges: nat, links: nat, records: nat)
    requires t0 <= now && Outlived(db, CutoffsAt(t0)) && Left(db, CutoffsAt(t0), challenges, links, records)
    ensures var n := AUTH_CLEANUP_BATCH_SIZE;
      Left(Cleanup(db, CutoffsAt(now), n), CutoffsAt(t0), Drop(challenges, n), if challenges == 0 then Drop(links, n) else links, Drop(records, n))
  {
    hide Outlived, Unreferenced, CleanChallenges, CleanLinks, CleanSessions, CleanAudits, LinksFit, RecordsFit, ConsumedChallenges, ExpiredChallenges;
    var f, cut, n := CutoffsAt(t0), CutoffsAt(now), AUTH_CLEANUP_BATCH_SIZE;
    var ch := CleanChallenges(db.challenges, cut.challenge, n);
    ChallengesLeft(db.challenges, f.challenge, cut.challenge, n);
    RecordsLeft(db, f, cut, n, records);
    if challenges == 0 {
      ChallengesShrink(db.challenges, cut.challenge, n);
      NonePastUnreferenced(db, f, ch);
      LinksLeft(db.links, ch, f.link, cut.link, n, links);
    } else {
      LinksShrink(db.links, ch, cut.link, n);
      FewerFit(db.links, CleanLinks(db.links, ch, cut.link, n), f.link, links);
    }
  }

  lemma StepLeaves(w: World, a: Action, t0: Time, challenges: nat, links: nat, records: nat)
    requires Base(w) && Allowed(w, a) && t0 <= w.clock && AgesOk(w.db.links, w.db.challenges, w.clock)
    requires Left(w.db, CutoffsAt(t0), challenges, links, records)
    ensures var n := if Cleans(a, t0) then AUTH_CLEANUP_BATCH_SIZE else 0;
      Left(Next(w, a).db, CutoffsAt(t0), Drop(challenges, n), if challenges == 0 then Drop(links, n) else links, Drop(records, n))
  {
    hide Base, Allowed, AgesOk, Left, Outlived, Cleanup, NoneOlder, Record, Drop;
    if Cleans(a, t0) {
      AgesOutlive(w.db, w.clock, t0);
      CleanTakes(w.db, t0, a.now, challenges, links, records);
    } else {
      hide Next;
      StepNoneOlder(w, a, t0);
      NoneOlderLeft(w.db, Next(w, a).db, CutoffsAt(t0), challenges, links, records);
      DropNothing(challenges);
      DropNothing(links);
      DropNothing(records);
    }
  }

  lemma DropNothing(x: nat)
    ensures Drop(x, 0) == x
  {}

  // The clock never goes back.
  lemma ClockOnward(w: World, a: Action)
    requires Allowed(w, a)
    ensures w.clock <= Next(w, a).clock
  {
    hide Perform, Record;
  }

  // ----- Along a run -----

  // How many of the steps are such cleanups.
  function CleanupsIn(acts: seq<Action>, t0: Time): nat {
    if acts == [] then 0 else CleanupsIn(acts[..|acts| - 1], t0) + if Cleans(acts[|acts| - 1], t0) then 1 else 0
  }

  // After `c` cleanups: the links wait for the challenges, which are gone after the first `j`.
  lemma {:induction false} LeftAlong(ws: seq<World>, acts: seq<Action>, m: nat, n: nat, t0: Time, j: nat, k: nat)
    requires Trace(ws, acts) && m <= n <= |acts| && t0 <= ws[m].clock
    requires Left(ws[m].db, CutoffsAt(t0), j * AUTH_CLEANUP_BATCH_SIZE, k * AUTH_CLEANUP_BATCH_SIZE, k * AUTH_CLEANUP_BATCH_SIZE)
    ensures t0 <= ws[n].clock
    ensures var c := CleanupsIn(acts[m..n], t0);
      Left(ws[n].db, CutoffsAt(t0), Drop(j, c) * AUTH_CLEANUP_BATCH_SIZE, Drop(k, Drop(c, j)) * AUTH_CLEANUP_BATCH_SIZE,
           Drop(k, c) * AUTH_CLEANUP_BATCH_SIZE)
    decreases n
  {
    hide Base, Allowed, Next, AgesOk, Left, Cleans;
    if m < n {
      LeftAlong(ws, acts, m, n - 1, t0, j, k);
      BaseAlong(ws, acts, n - 1);
      AgesAlong(ws, acts, n - 1);
      StepAt(ws, acts, n - 1);
      ClockOnward(ws[n - 1], acts[n - 1]);
      assert acts[m..n][..n - m - 1] == acts[m..n - 1];
      var c := CleanupsIn(acts[m..n - 1], t0);
      StepLeaves(ws[n - 1], acts[n - 1], t0, Drop(j, c) * AUTH_CLEANUP_BATCH_SIZE, Drop(k, Drop(c, j)) * AUTH_CLEANUP_BATCH_SIZE,
                 Drop(k, c) * AUTH_CLEANUP_BATCH_SIZE);
    }
  }

  // From any point of any run, whatever steps come between: once j + k cleanups have followed, no row past the
  // cutoffs of time `t0` is left, neither of those there at the start nor any other.
  lemma CleanupsCatchUp(ws: seq<World>, acts: seq<Action>, m: nat, n: nat, t0: Time, j: nat, k: nat)
    requires Trace(ws, acts) && m <= n <= |acts| && t0 <= ws[m].clock
    requires Left(ws[m].db, CutoffsAt(t0), j * AUTH_CLEANUP_BATCH_SIZE, k * AUTH_CLEANUP_BATCH_SIZE, k * AUTH_CLEANUP_BATCH_SIZE)
    requires j + k <= CleanupsIn(acts[m..n], t0)
    ensures Sweep(ws[n].db, CutoffsAt(t0)) == ws[n].db
  {
    hide Base, Allowed, Next, ChallengesFit, LinksFit, RecordsFit, SweepChallenges, SweepLinks, SweepSessions, SweepAudits;
    LeftAlong(ws, acts, m, n, t0, j, k);
    NoneLeftC(ws[n].db.challenges, CutoffsAt(t0).challenge);
    NoneLeftL(ws[n].db.links, CutoffsAt(t0).link);
    NoneLeftR(ws[n].db, CutoffsAt(t0));
  }
}
