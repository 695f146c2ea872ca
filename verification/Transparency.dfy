/** The same for whole runs: no request, in any interleaving, can tell that a cleanup ran. */
module Transparency {
  import opened Schema
  import opened Atomic
  import opened Retention
  import opened Protocol
  import opened History
  import opened Invisible
  import opened Bisimulation
  import opened Runs

  const HORIZON_MS := DAY_MS

  // Two worlds that differ only in rows past their use.
  ghost predicate Twins(w: World, v: World) {
    && Base(w) && Base(v)
    && w.clock == v.clock && w.usedIds == v.usedIds && w.usedHashes == v.usedHashes && w.tickets == v.tickets
    && Alike(w.db, v.db, w.clock - HORIZON_MS)
  }

  lemma UsedMeansUnused(w: World, a: Action)
    requires Base(w) && Allowed(w, a)
    ensures Unused(w.db, NewIds(a), NewHashes(a))
  {
    hide Constraints, Guarded;
  }

  lemma BaseKeepsWell(w: World)
    requires Base(w)
    ensures WellKept(w.db)
  {
    hide Used;
  }

  lemma StepOnTime(w: World, a: Action)
    requires Allowed(w, a)
    ensures if a.Tick? then w.clock <= a.time else
      && w.clock - HORIZON_MS < StepTime(a) - FRESH_MS
      && StepTime(a) - WEBAUTHN_CHALLENGE_RETENTION_MS <= w.clock - HORIZON_MS
  {}

  lemma AllowedAlike(w: World, v: World, a: Action)
    requires Allowed(w, a) && w.clock == v.clock && w.usedIds == v.usedIds && w.usedHashes == v.usedHashes && w.tickets == v.tickets
    ensures Allowed(v, a)
  {}

  lemma TwinDbs(w: World, v: World, a: Action)
    requires Twins(w, v) && Allowed(w, a)
    ensures Alike(Perform(w.db, a).db, Perform(v.db, a).db, (if a.Tick? then a.time else w.clock) - HORIZON_MS)
    ensures !a.EndLink? ==> Perform(w.db, a).outcome == Perform(v.db, a).outcome
  {
    hide Perform, Base, Unused, Alike, WellKept, NewIds, NewHashes, Allowed, StepTime;
    AllowedAlike(w, v, a);
    UsedMeansUnused(w, a);
    UsedMeansUnused(v, a);
    BaseKeepsWell(w);
    BaseKeepsWell(v);
    StepOnTime(w, a);
    StepAlike(w.db, v.db, a, w.clock - HORIZON_MS);
    if a.Tick? {
      StayAlike(Perform(w.db, a).db, Perform(v.db, a).db, w.clock - HORIZON_MS, a.time - HORIZON_MS);
    }
  }

  lemma TicketsAlike(w: World, a: Action, outcome: Outcome)
    requires a.EndLink? || outcome == Perform(w.db, a).outcome
    ensures Next(w, a).tickets == Tickets(w.tickets, a, outcome)
  {
    hide Perform, Record;
  }

  lemma TwinStep(w: World, v: World, a: Action)
    requires Twins(w, v) && Allowed(w, a)
    ensures Allowed(v, a) && Twins(Next(w, a), Next(v, a))
    ensures !a.EndLink? ==> Perform(w.db, a).outcome == Perform(v.db, a).outcome
  {
    hide Perform, Base, Alike, Allowed, NewIds, NewHashes, Record, Tickets;
    AllowedAlike(w, v, a);
    TwinDbs(w, v, a);
    BaseStep(w, a);
    BaseStep(v, a);
    TicketsAlike(w, a, Perform(w.db, a).outcome);
    TicketsAlike(v, a, Perform(w.db, a).outcome);
  }

  lemma CleanPerforms(w: World, now: Time)
    ensures Perform(w.db, Clean(now)) == Step(Cleanup(w.db, CutoffsAt(now), AUTH_CLEANUP_BATCH_SIZE), Done)
    ensures NewIds(Clean(now)) == {} && NewHashes(Clean(now)) == {}
  {}

  lemma CleanMakesTwins(w: World, now: Time)
    requires Base(w) && Allowed(w, Clean(now))
    ensures Twins(w, Next(w, Clean(now)))
  {
    hide Perform, Base, Cleanup, Alike, Record, Allowed, NewIds, NewHashes, CutoffsAt;
    BaseStep(w, Clean(now));
    BaseKeepsWell(w);
    StepOnTime(w, Clean(now));
    CleanPerforms(w, now);
    CleanAlike(w.db, now, w.clock - HORIZON_MS);
  }

  // The steps of a run up to step `n`, with a cleanup inserted before step `c`.
  function WithClean(acts: seq<Action>, c: nat, now: Time, n: nat): seq<Action>
    requires c <= n <= |acts|
  {
    acts[..c] + [Clean(now)] + acts[c..n]
  }

  lemma CleanIsAt(acts: seq<Action>, c: nat, now: Time, n: nat, i: nat)
    requires c <= n <= |acts| && i <= n
    ensures |WithClean(acts, c, now, n)| == n + 1
    ensures WithClean(acts, c, now, n)[i] == if i < c then acts[i] else if i == c then Clean(now) else acts[i - 1]
  {}

  // Step `i` of the run with the cleanup.
  lemma CleanStepAt(vs: seq<World>, acts: seq<Action>, c: nat, now: Time, n: nat, i: nat)
    requires c <= n <= |acts| && i <= n && Trace(vs, WithClean(acts, c, now, n))
    ensures |vs| == n + 2 && vs[i + 1] == Next(vs[i], if i < c then acts[i] else if i == c then Clean(now) else acts[i - 1])
    ensures Allowed(vs[i], if i < c then acts[i] else if i == c then Clean(now) else acts[i - 1])
  {
    hide Next, Allowed, WithClean;
    CleanIsAt(acts, c, now, n, i);
    StepAt(vs, WithClean(acts, c, now, n), i);
  }

  lemma {:induction false} SameStart(ws: seq<World>, vs: seq<World>, acts: seq<Action>, c: nat, now: Time, n: nat, i: nat)
    requires Trace(ws, acts) && i <= c <= n <= |acts| && Trace(vs, WithClean(acts, c, now, n))
    ensures i < |vs| && vs[i] == ws[i]
    decreases i
  {
    hide Next, Allowed, WithClean;
    CleanStepAt(vs, acts, c, now, n, 0);
    if i > 0 {
      SameStart(ws, vs, acts, c, now, n, i - 1);
      StepAt(ws, acts, i - 1);
      CleanStepAt(vs, acts, c, now, n, i - 1);
    }
  }

  // After the cleanup the two runs pass through worlds that differ only in rows past their use.
  lemma {:induction false} TwinsAlong(ws: seq<World>, vs: seq<World>, acts: seq<Action>, c: nat, now: Time, n: nat, i: nat)
    requires Trace(ws, acts) && c <= i <= n <= |acts| && Trace(vs, WithClean(acts, c, now, n))
    ensures |vs| == n + 2 && Twins(ws[i], vs[i + 1])
    decreases i
  {
    hide Next, Allowed, WithClean, Twins, Base;
    CleanStepAt(vs, acts, c, now, n, i);
    if i == c {
      SameStart(ws, vs, acts, c, now, n, c);
      BaseAlong(ws, acts, c);
      CleanMakesTwins(ws[c], now);
    } else {
      TwinsAlong(ws, vs, acts, c, now, n, i - 1);
      StepAt(ws, acts, i - 1);
      TwinStep(ws[i - 1], vs[i], acts[i - 1]);
    }
  }

  // Wherever in a run a cleanup is inserted, the rest of the run remains possible, step for step.
  lemma {:induction false} RunStaysPossible(ws: seq<World>, acts: seq<Action>, c: nat, now: Time, n: nat) returns (vs: seq<World>)
    requires Trace(ws, acts) && c <= n <= |acts| && Timely(ws[c].clock, Clean(now))
    ensures Trace(vs, WithClean(acts, c, now, n))
    decreases n
  {
    hide Next, Allowed, Twins;
    if n == c {
      CleanAllowed(ws[c], now);
      Prefix(ws, acts, c);
      Extend(ws[..c + 1], acts[..c], Clean(now));
      vs := ws[..c + 1] + [Next(ws[c], Clean(now))];
      assert WithClean(acts, c, now, c) == acts[..c] + [Clean(now)];
    } else {
      var us := RunStaysPossible(ws, acts, c, now, n - 1);
      TwinsAlong(ws, us, acts, c, now, n - 1, n - 1);
      StepAt(ws, acts, n - 1);
      TwinStep(ws[n - 1], us[n], acts[n - 1]);
      Extend(us, WithClean(acts, c, now, n - 1), acts[n - 1]);
      vs := us + [Next(us[n], acts[n - 1])];
      assert WithClean(acts, c, now, n) == WithClean(acts, c, now, n - 1) + [acts[n - 1]];
    }
  }

  lemma CleanAllowed(w: World, now: Time)
    requires Timely(w.clock, Clean(now))
    ensures Allowed(w, Clean(now))
  {}

  // And every step of it but a link revocation is answered as it would have been without the cleanup.
  lemma CleanupIsInvisible(ws: seq<World>, vs: seq<World>, acts: seq<Action>, c: nat, now: Time, i: nat)
    requires Trace(ws, acts) && c <= i < |acts| && Trace(vs, WithClean(acts, c, now, |acts|))
    requires !acts[i].EndLink?
    ensures |vs| == |acts| + 2 && Perform(vs[i + 1].db, acts[i]).outcome == Perform(ws[i].db, acts[i]).outcome
  {
    hide Next, Allowed, WithClean, Twins, Perform;
    TwinsAlong(ws, vs, acts, c, now, |acts|, i);
    StepAt(ws, acts, i);
    TwinStep(ws[i], vs[i + 1], acts[i]);
  }

  // ----- The lookups of later requests -----

  lemma SessionsFoundAlike(w: World, v: World, token: Hash, now: Time, idle: Time)
    requires Twins(w, v) && w.clock - MAX_LAG_MS <= now
    ensures FindSession(w.db, token, now, idle) == FindSession(v.db, token, now, idle)
  {
    hide Base;
    forall s
      ensures s in FindSession(w.db, token, now, idle) <==> s in FindSession(v.db, token, now, idle)
    {
      var h := w.clock - HORIZON_MS;
      if s in FindSession(w.db, token, now, idle) { SameAccepts(w.db, v.db, h, s, now, idle); }
      if s in FindSession(v.db, token, now, idle) { SameAccepts(v.db, w.db, h, s, now, idle); }
    }
  }

  function LinksFound(db: Db, token: Hash, now: Time): set<Id> {
    set l | l in db.links && db.links[l].token == token && Issuable(db, l, now)
  }

  lemma LinksFoundAlike(w: World, v: World, token: Hash, now: Time)
    requires Twins(w, v) && w.clock - MAX_LAG_MS <= now
    ensures LinksFound(w.db, token, now) == LinksFound(v.db, token, now)
  {
    hide Base;
    forall l
      ensures l in LinksFound(w.db, token, now) <==> l in LinksFound(v.db, token, now)
    {
      var h := w.clock - HORIZON_MS;
      if l in LinksFound(w.db, token, now) { SameUsable(w.db, v.db, h, l, now); }
      if l in LinksFound(v.db, token, now) { SameUsable(v.db, w.db, h, l, now); }
    }
  }

  // The SELECTs that precede the two consuming updates.
  lemma ConsumablesAlike(w: World, v: World, c: Id, credential: Hash, proof: Proof, now: Time)
    requires Alike(w.db, v.db, w.clock - HORIZON_MS) && w.clock - MAX_LAG_MS <= now
    ensures Consumable(w.db, c, credential, now) == Consumable(v.db, c, credential, now)
    ensures RegistrationConsumable(w.db, c, proof, now) == RegistrationConsumable(v.db, c, proof, now)
  {
    var h := w.clock - HORIZON_MS;
    if Consumable(w.db, c, credential, now) { SameAuthConsumable(w.db, v.db, h, c, credential, now); }
    if Consumable(v.db, c, credential, now) { SameAuthConsumable(v.db, w.db, h, c, credential, now); }
    if RegistrationConsumable(w.db, c, proof, now) { SameConsumable(w.db, v.db, h, c, proof, now); }
    if RegistrationConsumable(v.db, c, proof, now) { SameConsumable(v.db, w.db, h, c, proof, now); }
  }

  // So no lookup at any later point of the run differs: sessions and links are found, and challenges are fit
  // to be consumed, exactly as without the cleanup.
  lemma LookupsNeverDiffer(ws: seq<World>, vs: seq<World>, acts: seq<Action>, c: nat, now: Time, i: nat,
                           token: Hash, at: Time, idle: Time, challenge: Id, credential: Hash, proof: Proof)
    requires Trace(ws, acts) && c <= i <= |acts| && Trace(vs, WithClean(acts, c, now, |acts|))
    requires ws[i].clock - MAX_LAG_MS <= at
    ensures |vs| == |acts| + 2
    ensures FindSession(vs[i + 1].db, token, at, idle) == FindSession(ws[i].db, token, at, idle)
    ensures LinksFound(vs[i + 1].db, token, at) == LinksFound(ws[i].db, token, at)
    ensures Consumable(vs[i + 1].db, challenge, credential, at) == Consumable(ws[i].db, challenge, credential, at)
    ensures RegistrationConsumable(vs[i + 1].db, challenge, proof, at) == RegistrationConsumable(ws[i].db, challenge, proof, at)
  {
    hide Next, Allowed, WithClean, Base, Alike, FindSession, LinksFound, Consumable, RegistrationConsumable;
    TwinsAlong(ws, vs, acts, c, now, |acts|, i);
    SessionsFoundAlike(ws[i], vs[i + 1], token, at, idle);
    LinksFoundAlike(ws[i], vs[i + 1], token, at);
    ConsumablesAlike(ws[i], vs[i + 1], challenge, credential, proof, at);
  }

  // A cleanup never leaves a challenge that points at a deleted link.
  lemma NoDanglingChallenge(w: World, now: Time)
    requires Base(w) && Allowed(w, Clean(now))
    ensures var after := Cleanup(w.db, CutoffsAt(now), AUTH_CLEANUP_BATCH_SIZE);
      forall c :: c in after.challenges && after.challenges[c].link.Some? ==> after.challenges[c].link.value in after.links
  {
    BaseStep(w, Clean(now));
    CleanPerforms(w, now);
    hide Perform, Cleanup, Constraints, Record;
  }
}
