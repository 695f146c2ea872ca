/** Whole runs: the world a sequence of steps leads to, with a log of what ever happened. */
module Runs {
  import opened Schema
  import opened Atomic
  import opened Retention
  import opened Protocol
  import opened History
  import Integrity
  import Guarding

  datatype Log = Log(
    bootstraps: nat,            // successful initial-admin links
    consumed: seq<Id>,          // challenges, in the order they were successfully consumed
    authConsumed: set<Id>,      // those consumed to authenticate
    minted: map<Id, Id>,        // session minted by an authentication -> the challenge its request consumed
    passkeys: set<Id>,          // every passkey row that ever appeared
    redeemed: set<Id>,          // every link that ever became consumed
    redeemedBy: map<Id, Id>,    // passkey -> the link its registration redeemed
    holders: set<Id>)           // users who ever had a passkey

  // `tickets` are the challenges consumed by an authentication request that has yet to complete.
  datatype World = World(db: Db, clock: Time, usedIds: set<Id>, usedHashes: set<Hash>, tickets: set<Id>, log: Log)

  const GENESIS := World(EMPTY, 0, {}, {}, {}, Log(0, [], {}, map[], {}, {}, map[], {}))

  function StepTime(a: Action): Time
    requires !a.Tick?
  {
    if a.CompleteAuth? then a.completion.now else if a.CompleteReg? then a.registration.now else a.now
  }

  // A request's clock reading is at most MAX_LAG_MS old when one of its steps commits.
  predicate Timely(clock: Time, a: Action) {
    if a.Tick? then clock <= a.time
    else
      && clock - MAX_LAG_MS <= StepTime(a) <= clock
      && (a.IssueAuth? || a.IssueAccess? || a.IssueRegistration? ==> a.c.expiresAt <= a.now + MAX_CHALLENGE_TTL_MS)
  }

  // Ids and hashes are freshly drawn, and only a request that consumed a challenge completes with it.
  predicate Allowed(w: World, a: Action) {
    && NewIds(a) !! w.usedIds
    && NewHashes(a) !! w.usedHashes
    && CounterVerified(a)
    && Timely(w.clock, a)
    && (a.CompleteAuth? ==> a.challenge in w.tickets)
  }

  function NewlyConsumed(before: map<Id, Link>, after: map<Id, Link>): set<Id> {
    set l | l in after && after[l].consumedAt.Some? && (l in before ==> before[l].consumedAt.None?)
  }

  ghost function Record(log: Log, before: Db, a: Action, after: Step): Log {
    var done := after.outcome == Done;
    var added := after.db.passkeys.Keys - before.passkeys.Keys;
    Log(
      log.bootstraps + (if a.Bootstrap? && done then 1 else 0),
      if (a.ConsumeAuth? || a.ConsumeReg?) && done then log.consumed + [a.challenge] else log.consumed,
      if a.ConsumeAuth? && done then log.authConsumed + {a.challenge} else log.authConsumed,
      if a.CompleteAuth? && done then log.minted[a.completion.session.id := a.challenge] else log.minted,
      log.passkeys + added,
      log.redeemed + NewlyConsumed(before.links, after.db.links),
      if a.CompleteReg? && done then log.redeemedBy[a.registration.passkey.id := a.registration.link] else log.redeemedBy,
      log.holders + set p | p in added :: after.db.passkeys[p].user)
  }

  function Tickets(tickets: set<Id>, a: Action, outcome: Outcome): set<Id> {
    if a.ConsumeAuth? && outcome == Done then tickets + {a.challenge}
    else if a.CompleteAuth? then tickets - {a.challenge}
    else tickets
  }

  ghost function Next(w: World, a: Action): World {
    var after := Perform(w.db, a);
    World(after.db, if a.Tick? then a.time else w.clock, w.usedIds + NewIds(a), w.usedHashes + NewHashes(a),
          Tickets(w.tickets, a, after.outcome), Record(w.log, w.db, a, after))
  }

  // A stretch of a run: the worlds it passes through and the steps between them.
  ghost predicate Steps(ws: seq<World>, acts: seq<Action>) {
    && |ws| == |acts| + 1
    && (forall i {:trigger acts[i]} :: 0 <= i < |acts| ==> Allowed(ws[i], acts[i]) && ws[i + 1] == Next(ws[i], acts[i]))
  }

  // A run starts from the empty database.
  ghost predicate Trace(ws: seq<World>, acts: seq<Action>) {
    Steps(ws, acts) && ws[0] == GENESIS
  }

  ghost predicate Reachable(w: World) {
    exists ws, acts :: Trace(ws, acts) && ws[|acts|] == w
  }

  lemma Extend(ws: seq<World>, acts: seq<Action>, a: Action)
    requires Steps(ws, acts) && Allowed(ws[|acts|], a)
    ensures Steps(ws + [Next(ws[|acts|], a)], acts + [a])
  {
    hide Next, Allowed;
    var more, longer := ws + [Next(ws[|acts|], a)], acts + [a];
    forall i {:trigger longer[i]} | 0 <= i < |longer|
      ensures Allowed(more[i], longer[i]) && more[i + 1] == Next(more[i], longer[i])
    {
      if i < |acts| {
        assert acts[i] == longer[i];
      }
    }
  }

  lemma Prefix(ws: seq<World>, acts: seq<Action>, n: nat)
    requires Steps(ws, acts) && n <= |acts|
    ensures Steps(ws[..n + 1], acts[..n])
  {
    hide Next, Allowed;
    var fewer, shorter := ws[..n + 1], acts[..n];
    forall i {:trigger shorter[i]} | 0 <= i < |shorter|
      ensures Allowed(fewer[i], shorter[i]) && fewer[i + 1] == Next(fewer[i], shorter[i])
    {
      assert acts[i] == shorter[i];
    }
  }

  lemma StepAt(ws: seq<World>, acts: seq<Action>, i: nat)
    requires Steps(ws, acts) && i < |acts|
    ensures Allowed(ws[i], acts[i]) && ws[i + 1] == Next(ws[i], acts[i])
  {}

  // ----- Nothing is drawn twice -----

  predicate SessionsUsed(w: World) {
    forall s :: s in w.db.sessions ==> s in w.usedIds && w.db.sessions[s].token in w.usedHashes
  }

  predicate LinksUsed(w: World) {
    forall l :: l in w.db.links ==> l in w.usedIds && w.db.links[l].token in w.usedHashes
  }

  predicate ChallengesUsed(w: World) {
    forall c :: c in w.db.challenges ==> c in w.usedIds && w.db.challenges[c].hash in w.usedHashes
  }

  predicate Used(w: World) {
    && w.db.users.Keys <= w.usedIds && w.db.passkeys.Keys <= w.usedIds
    && w.db.audits.Keys <= w.usedIds && w.db.tokens.Keys <= w.usedIds
    && SessionsUsed(w) && LinksUsed(w) && ChallengesUsed(w)
  }

  lemma KeepsHashesUsed(w: World, v: World, ids: set<Id>, hashes: set<Hash>)
    requires SessionsUsed(w) && LinksUsed(w) && ChallengesUsed(w)
    requires v.usedIds == w.usedIds + ids && v.usedHashes == w.usedHashes + hashes
    requires SessionsLater(w.db.sessions, v.db.sessions, ids, hashes)
    requires LinksLater(w.db.links, v.db.links, ids, hashes)
    requires ChallengesLater(w.db.challenges, v.db.challenges, ids, hashes)
    ensures SessionsUsed(v) && LinksUsed(v) && ChallengesUsed(v)
  {}

  lemma KeepsUsed(w: World, a: Action)
    requires Used(w) && Allowed(w, a)
    ensures Used(Next(w, a))
  {
    hide Perform, SessionsUsed, LinksUsed, ChallengesUsed, SessionsLater, LinksLater, ChallengesLater, Record, NewIds, NewHashes;
    StepLater(w.db, a);
    KeepsHashesUsed(w, Next(w, a), NewIds(a), NewHashes(a));
  }

  // ----- The base invariant of every run -----

  ghost predicate Base(w: World) {
    Constraints(w.db) && Guarded(w.db) && Used(w)
  }

  lemma BaseStep(w: World, a: Action)
    requires Base(w) && Allowed(w, a)
    ensures Base(Next(w, a))
  {
    hide Constraints, Guarded, Used, Perform, Record;
    Integrity.KeepsConstraints(w.db, a);
    Guarding.KeepsGuarded(w.db, a);
    KeepsUsed(w, a);
  }

  lemma GenesisBase()
    ensures Base(GENESIS)
  {}

  lemma {:induction false} BaseAlong(ws: seq<World>, acts: seq<Action>, n: nat)
    requires Trace(ws, acts) && n <= |acts|
    ensures Base(ws[n])
    decreases n
  {
    hide Base, Next, Allowed;
    if n == 0 {
      GenesisBase();
    } else {
      BaseAlong(ws, acts, n - 1);
      StepAt(ws, acts, n - 1);
      BaseStep(ws[n - 1], acts[n - 1]);
    }
  }

  // So every world that some run leads to satisfies it.
  lemma ReachableIsBase(w: World)
    requires Reachable(w)
    ensures Base(w)
  {
    hide Base;
    var ws, acts :| Trace(ws, acts) && ws[|acts|] == w;
    BaseAlong(ws, acts, |acts|);
  }
}
