/** How old the rows of a reachable world can be: a challenge never outlives its link by much, so the
    cleanup never starves. */
module Aging {
  import opened Schema
  import opened Atomic
  import opened Retention
  import opened Protocol
  import opened History
  import opened Runs
  import opened Ledger
  import opened Sweeping

  const LONGEST := MAX_LAG_MS + MAX_CHALLENGE_TTL_MS

  // The challenge was issued before its link expired, and expires soon after the link was closed.
  predicate Bounded(c: Challenge, l: Link) {
    && c.createdAt < l.expiresAt
    && (l.consumedAt.Some? ==> c.expiresAt <= l.consumedAt.value + LONGEST)
    && (l.revokedAt.Some? ==> c.expiresAt <= l.revokedAt.value + LONGEST)
  }

  predicate ShortLived(c: Challenge, clock: Time) {
    && c.createdAt <= clock && c.expiresAt <= c.createdAt + MAX_CHALLENGE_TTL_MS
    && (c.consumedAt.Some? ==> c.consumedAt.value < c.expiresAt)
  }

  predicate AgesOk(links: map<Id, Link>, challenges: map<Id, Challenge>, clock: Time) {
    forall c :: c in challenges ==>
      && ShortLived(challenges[c], clock)
      && (challenges[c].link.Some? && challenges[c].link.value in links ==> Bounded(challenges[c], links[challenges[c].link.value]))
  }

  // ----- One step -----

  predicate ClosedAt(l: Link, m: Link, now: Time) {
    (m.consumedAt == l.consumedAt || m.consumedAt == Some(now)) && (m.revokedAt == l.revokedAt || m.revokedAt == Some(now))
  }

  // A step that closes a link stamps it with its own clock reading.
  ghost predicate Stamped(before: map<Id, Link>, after: map<Id, Link>, now: Time) {
    forall l :: l in before && l in after ==> ClosedAt(before[l], after[l], now) && after[l].expiresAt == before[l].expiresAt
  }

  lemma RevokeStamps(links: map<Id, Link>, user: Id, now: Time)
    ensures Stamped(links, RevokeLinks(links, user, now), now)
  {}

  lemma CloseStamps(links: map<Id, Link>, l: Id, row: Link, now: Time)
    requires l in links ==> ClosedAt(links[l], row, now) && row.expiresAt == links[l].expiresAt
    ensures Stamped(links, links[l := row], now)
  {}

  lemma FewerStamps(links: map<Id, Link>, after: map<Id, Link>, now: Time)
    requires forall l :: l in links && l in after ==> after[l] == links[l].(createdBy := after[l].createdBy)
    ensures Stamped(links, after, now)
  {}

  lemma ClosingStamps(db: Db, a: Action)
    requires a.CompleteReg? || a.EndLink? || a.Lock? || a.Delete?
    ensures Stamped(db.links, Perform(db, a).db.links, StepTime(a))
  {
    hide Stamped;
    FewerStamps(db.links, db.links, StepTime(a));
    if a.CompleteReg? {
      if a.registration.link in db.links {
        CloseStamps(db.links, a.registration.link, db.links[a.registration.link].(consumedAt := Some(StepTime(a))), StepTime(a));
      }
    } else if a.EndLink? {
      if a.link in db.links {
        CloseStamps(db.links, a.link, db.links[a.link].(revokedAt := Some(a.now)), a.now);
      }
    } else if a.Lock? {
      RevokeStamps(db.links, a.target, a.now);
    } else {
      FewerStamps(db.links, Perform(db, a).db.links, a.now);
    }
  }

  lemma StepStamps(db: Db, a: Action)
    requires !a.Tick?
    ensures Stamped(db.links, Perform(db, a).db.links, StepTime(a))
  {
    hide Stamped, Cleanup;
    var after := Perform(db, a).db.links;
    if a.CompleteReg? || a.EndLink? || a.Lock? || a.Delete? {
      ClosingStamps(db, a);
    } else if a.IssueRegistration? || a.Enroll? || a.Recover? || a.Bootstrap? || a.OperatorRecover? {
      if after != db.links { CloseStamps(db.links, a.l.id, after[a.l.id], a.now); } else { FewerStamps(db.links, db.links, a.now); }
    } else {
      if a.Clean? { CleanupShrinks(db, CutoffsAt(a.now), AUTH_CLEANUP_BATCH_SIZE); } else { LinksFrame(db, a); }
      FewerStamps(db.links, after, StepTime(a));
    }
  }

  // A new challenge is unconsumed, short-lived, and for a link that is open and not yet expired.
  predicate JustIssued(c: Challenge, links: map<Id, Link>, now: Time) {
    && c.consumedAt.None? && c.createdAt == now && c.expiresAt <= now + MAX_CHALLENGE_TTL_MS
    && (c.link.Some? ==> c.link.value in links && Open(links[c.link.value]) && now < links[c.link.value].expiresAt)
  }

  lemma IssuedAlone(db: Db, n: NewChallenge, now: Time, c: Id)
    requires n.expiresAt <= now + MAX_CHALLENGE_TTL_MS
    requires c in IssueAuthenticationChallenge(db, n, now).db.challenges && c !in db.challenges
    ensures var after := IssueAuthenticationChallenge(db, n, now).db; JustIssued(after.challenges[c], after.links, now)
  {
    hide ChallengeFails;
  }

  lemma IssuedForLink(db: Db, link: Id, n: NewChallenge, now: Time, c: Id)
    requires n.expiresAt <= now + MAX_CHALLENGE_TTL_MS
    requires c in IssueAccessChallenge(db, link, n, now).db.challenges && c !in db.challenges
    ensures var after := IssueAccessChallenge(db, link, n, now).db; JustIssued(after.challenges[c], after.links, now)
  {
    hide ChallengeFails;
  }

  lemma IssuedForSelf(db: Db, user: Id, l: NewLink, n: NewChallenge, now: Time, c: Id)
    requires n.expiresAt <= now + MAX_CHALLENGE_TTL_MS
    requires c in IssueRegistrationChallenge(db, user, l, n, now).db.challenges && c !in db.challenges
    ensures var after := IssueRegistrationChallenge(db, user, l, n, now).db; JustIssued(after.challenges[c], after.links, now)
  {
    hide ChallengeFails, LinkClash;
  }

  lemma StepIssues(db: Db, a: Action, c: Id)
    requires !a.Tick? && Timely(StepTime(a), a)
    requires c in Perform(db, a).db.challenges && c !in db.challenges
    ensures JustIssued(Perform(db, a).db.challenges[c], Perform(db, a).db.links, StepTime(a))
  {
    hide Oldest, IssueAuthenticationChallenge, IssueAccessChallenge, IssueRegistrationChallenge;
    if a.IssueAuth? {
      IssuedAlone(db, a.c, a.now, c);
    } else if a.IssueAccess? {
      IssuedForLink(db, a.link, a.c, a.now, c);
    } else if a.IssueRegistration? {
      IssuedForSelf(db, a.user, a.l, a.c, a.now, c);
    } else if a.ConsumeAuth? || a.ConsumeReg? {
      ConsumesOne(db, a);
    } else if !a.Delete? && !a.Clean? {
      ChallengesFrame(db, a);
    }
  }

  lemma StepConsumes(db: Db, a: Action, c: Id)
    requires !a.Tick? && c in db.challenges && c in Perform(db, a).db.challenges
    ensures var d := Perform(db, a).db.challenges[c];
      d == db.challenges[c] || (d == db.challenges[c].(consumedAt := Some(StepTime(a))) && StepTime(a) < d.expiresAt)
  {
    if !(a.ConsumeAuth? || a.ConsumeReg?) {
      ChallengesKept(db, a);
    }
  }

  lemma TickKeeps(db: Db, a: Action)
    requires a.Tick?
    ensures Perform(db, a).db == db
  {}

  lemma AgesStep(w: World, a: Action)
    requires ChallengeOwnersOk(w.db.links, w.db.challenges) && AgesOk(w.db.links, w.db.challenges, w.clock) && Allowed(w, a)
    ensures AgesOk(Next(w, a).db.links, Next(w, a).db.challenges, Next(w, a).clock)
  {
    hide Perform, Record, UsersLater, PasskeysLater, SessionsLater, NewIds, NewHashes;
    if a.Tick? {
      TickKeeps(w.db, a);
    } else {
      var after := Perform(w.db, a).db;
      StepStamps(w.db, a);
      StepLater(w.db, a);
      forall c | c in after.challenges
        ensures ShortLived(after.challenges[c], w.clock)
        ensures after.challenges[c].link.Some? && after.challenges[c].link.value in after.links ==>
          Bounded(after.challenges[c], after.links[after.challenges[c].link.value])
      {
        if c in w.db.challenges { StepConsumes(w.db, a, c); } else { StepIssues(w.db, a, c); }
      }
    }
  }

  lemma {:induction false} AgesAlong(ws: seq<World>, acts: seq<Action>, n: nat)
    requires Trace(ws, acts) && n <= |acts|
    ensures AgesOk(ws[n].db.links, ws[n].db.challenges, ws[n].clock)
    decreases n
  {
    hide Base, AgesOk, Next, Allowed;
    if n == 0 {
      NoAges();
    } else {
      AgesAlong(ws, acts, n - 1);
      BaseAlong(ws, acts, n - 1);
      OwnersOk(ws[n - 1]);
      StepAt(ws, acts, n - 1);
      AgesStep(ws[n - 1], acts[n - 1]);
    }
  }

  lemma OwnersOk(w: World)
    requires Base(w)
    ensures ChallengeOwnersOk(w.db.links, w.db.challenges)
  {
    hide Constraints, Used;
  }

  lemma NoAges()
    ensures AgesOk(GENESIS.db.links, GENESIS.db.challenges, GENESIS.clock)
  {}

  // The margin: 30 days for a link against 24 hours, one hour and ten minutes for its challenges.
  lemma AgesOutlive(db: Db, clock: Time, now: Time)
    requires AgesOk(db.links, db.challenges, clock)
    ensures Outlived(db, CutoffsAt(now))
  {}

  // From any state of any run, repeated cleanups with the cutoffs of any one moment remove every row past
  // its cutoff and nothing else; `Converges` says in how many rounds.
  lemma NeverStarves(ws: seq<World>, acts: seq<Action>, i: nat, now: Time)
    requires Trace(ws, acts) && i <= |acts|
    ensures Outlived(ws[i].db, CutoffsAt(now))
    ensures exists k :: Rounds(ws[i].db, CutoffsAt(now), AUTH_CLEANUP_BATCH_SIZE, k) == Sweep(ws[i].db, CutoffsAt(now))
  {
    hide Sweep, Rounds, Outlived, Base, AgesOk, Next, Allowed;
    AgesAlong(ws, acts, i);
    AgesOutlive(ws[i].db, ws[i].clock, now);
    SweepsIff(ws[i].db, CutoffsAt(now), AUTH_CLEANUP_BATCH_SIZE);
  }
}
