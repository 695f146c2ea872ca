/** The guarantees of every run, from the empty database through any interleaving of steps. */
module Guarantees {
  import opened Schema
  import opened Atomic
  import opened Protocol
  import opened History
  import opened Runs
  import opened Ledger

  // ----- An administrator always exists -----

  lemma EnabledAdminAlways(ws: seq<World>, acts: seq<Action>, n: nat)
    requires Trace(ws, acts) && n <= |acts|
    ensures ws[n].db.users != map[] ==> exists u :: u in ws[n].db.users && ActiveAdmin(ws[n].db.users, u)
    ensures ws[n].log.bootstraps == if ws[n].db.users == map[] then 0 else 1
  {
    hide Next, Allowed;
    LedgerAlong(ws, acts, n);
  }

  lemma {:induction false} NeverEmptyAgain(ws: seq<World>, acts: seq<Action>, m: nat, n: nat)
    requires Trace(ws, acts) && m <= n <= |acts| && ws[m].db.users != map[]
    ensures ws[n].db.users != map[] && ws[n].log.bootstraps == ws[m].log.bootstraps
    decreases n
  {
    hide LedgerOk, Next, Allowed, Perform;
    if m < n {
      NeverEmptyAgain(ws, acts, m, n - 1);
      LedgerAlong(ws, acts, n - 1);
      StepAt(ws, acts, n - 1);
      StaysPeopled(ws[n - 1], acts[n - 1]);
    }
  }

  lemma StaysPeopled(w: World, a: Action)
    requires LedgerOk(w) && Allowed(w, a) && w.db.users != map[]
    ensures Next(w, a).db.users != map[] && Next(w, a).log.bootstraps == w.log.bootstraps
  {
    hide Perform;
    UsersStay(w.db, a);
  }

  // ----- Disabled users hold nothing live -----

  lemma DisabledHoldNothing(ws: seq<World>, acts: seq<Action>, n: nat)
    requires Trace(ws, acts) && n <= |acts|
    ensures forall s :: s in ws[n].db.sessions && ws[n].db.sessions[s].revokedAt.None? ==>
      Enabled(ws[n].db.users, ws[n].db.sessions[s].user)
    ensures forall l :: l in ws[n].db.links && Open(ws[n].db.links[l]) ==> Enabled(ws[n].db.users, ws[n].db.links[l].user)
  {
    hide Next, Allowed;
    BaseAlong(ws, acts, n);
  }

  // So the test on `disabled_at` in the session lookup never changes its answer.
  lemma DisabledTestRedundant(ws: seq<World>, acts: seq<Action>, n: nat, token: Hash, now: Time, idleCutoff: Time)
    requires Trace(ws, acts) && n <= |acts|
    ensures FindSession(ws[n].db, token, now, idleCutoff) ==
      set s | s in ws[n].db.sessions && ws[n].db.sessions[s].token == token && Accepts(ws[n].db.sessions[s], now, idleCutoff)
  {
    hide Next, Allowed;
    DisabledHoldNothing(ws, acts, n);
  }

  // The invariant errors of the batches are unreachable, but for the passkey delete; including that of
  // `completeRegistration`, whose passkey insert never looks at `disabled_at`.
  lemma NoInvariantError(ws: seq<World>, acts: seq<Action>, i: nat)
    requires Trace(ws, acts) && i < |acts| && !acts[i].DropPasskey?
    ensures Perform(ws[i].db, acts[i]).outcome != InvariantError
  {
    hide Perform, Next, Allowed, Base;
    BaseAlong(ws, acts, i);
    StepAt(ws, acts, i);
    OutcomeInOrder(ws[i], acts[i]);
  }

  lemma OutcomeInOrder(w: World, a: Action)
    requires Base(w) && Allowed(w, a) && !a.DropPasskey?
    ensures Perform(w.db, a).outcome != InvariantError
  {
    hide Constraints;
    if a.IssueRegistration? {
      assert a.l.id !in w.db.links;
    } else if a.CompleteReg? {
      assert Redeemable(w.db, a.registration) ==> Enabled(w.db.users, a.registration.user);
    }
  }

  // ----- Single use -----

  lemma ConsumedAtMostOnce(ws: seq<World>, acts: seq<Action>, n: nat)
    requires Trace(ws, acts) && n <= |acts|
    ensures NoDuplicates(ws[n].log.consumed)
  {
    hide Next, Allowed;
    LedgerAlong(ws, acts, n);
  }

  lemma {:induction false} InjectiveSize(m: map<Id, Id>)
    requires Injective(m)
    ensures |m.Keys| == |m.Values|
    decreases |m|
  {
    if m != map[] {
      var k :| k in m;
      var rest := m - {k};
      assert m.Keys == rest.Keys + {k};
      assert m.Values == rest.Values + {m[k]} by {
        forall v | v in m.Values ensures v in rest.Values + {m[k]} {
          var j :| j in m && m[j] == v;
          assert j == k || rest[j] == v;
        }
      }
      assert m[k] !in rest.Values;
      InjectiveSize(rest);
    }
  }

  // Sessions minted by authentication never outnumber the challenges consumed to authenticate, and no two
  // of them come from the same challenge.
  lemma MintedWithinConsumed(ws: seq<World>, acts: seq<Action>, n: nat)
    requires Trace(ws, acts) && n <= |acts|
    ensures Injective(ws[n].log.minted) && ws[n].log.minted.Values <= ws[n].log.authConsumed
    ensures |ws[n].log.minted.Keys| <= |ws[n].log.authConsumed|
  {
    hide Next, Allowed, Base, BootstrapsOk, ConsumedOk, RedeemedOk;
    LedgerAlong(ws, acts, n);
    FitsWithin(ws[n].log.minted, ws[n].log.authConsumed);
  }

  lemma FitsWithin(m: map<Id, Id>, bound: set<Id>)
    requires Injective(m) && m.Values <= bound
    ensures |m.Keys| <= |bound|
  {
    InjectiveSize(m);
    assert bound == m.Values + (bound - m.Values);
  }

  // Over any run the passkeys ever inserted and the links ever consumed are in one-to-one correspondence.
  lemma OnePasskeyPerLink(ws: seq<World>, acts: seq<Action>, n: nat)
    requires Trace(ws, acts) && n <= |acts|
    ensures Injective(ws[n].log.redeemedBy) && |ws[n].log.passkeys| == |ws[n].log.redeemed|
    ensures ws[n].log.redeemedBy.Keys == ws[n].log.passkeys && ws[n].log.redeemedBy.Values == ws[n].log.redeemed
  {
    hide Next, Allowed, Base, BootstrapsOk, ConsumedOk, MintedOk;
    LedgerAlong(ws, acts, n);
    InjectiveSize(ws[n].log.redeemedBy);
  }

  // ----- Closed links and dead tokens stay that way -----

  // Link `l` was consumed or revoked, one of them and not both, at the given time; its row may be gone.
  predicate Settled(w: World, l: Id, consumedAt: Option<Time>, revokedAt: Option<Time>) {
    && l in w.usedIds
    && consumedAt.Some? != revokedAt.Some?
    && (l in w.db.links ==> w.db.links[l].consumedAt == consumedAt && w.db.links[l].revokedAt == revokedAt)
  }

  lemma SettledStep(w: World, a: Action, l: Id, consumedAt: Option<Time>, revokedAt: Option<Time>)
    requires Settled(w, l, consumedAt, revokedAt) && Allowed(w, a)
    ensures Settled(Next(w, a), l, consumedAt, revokedAt)
  {
    hide Perform, SessionsLater, PasskeysLater, ChallengesLater;
    StepLater(w.db, a);
  }

  lemma ClosedIsSettled(w: World, l: Id)
    requires Base(w) && l in w.db.links && !Open(w.db.links[l])
    ensures Settled(w, l, w.db.links[l].consumedAt, w.db.links[l].revokedAt)
  {
    hide Guarded;
  }

  lemma {:induction false} SettledAlong(ws: seq<World>, acts: seq<Action>, m: nat, n: nat, l: Id)
    requires Trace(ws, acts) && m <= n <= |acts| && l in ws[m].db.links && !Open(ws[m].db.links[l])
    ensures Settled(ws[n], l, ws[m].db.links[l].consumedAt, ws[m].db.links[l].revokedAt)
    decreases n
  {
    hide Next, Allowed, Settled, Base;
    if m == n {
      BaseAlong(ws, acts, m);
      ClosedIsSettled(ws[m], l);
    } else {
      SettledAlong(ws, acts, m, n - 1, l);
      StepAt(ws, acts, n - 1);
      SettledStep(ws[n - 1], acts[n - 1], l, ws[m].db.links[l].consumedAt, ws[m].db.links[l].revokedAt);
    }
  }

  // No link is ever both consumed and revoked, and a closed one keeps its one fate, and its time, for ever.
  lemma SettledForever(ws: seq<World>, acts: seq<Action>, m: nat, n: nat, l: Id)
    requires Trace(ws, acts) && m <= n <= |acts| && l in ws[m].db.links && !Open(ws[m].db.links[l])
    ensures ws[m].db.links[l].consumedAt.Some? != ws[m].db.links[l].revokedAt.Some?
    ensures l in ws[n].db.links ==>
      ws[n].db.links[l].consumedAt == ws[m].db.links[l].consumedAt && ws[n].db.links[l].revokedAt == ws[m].db.links[l].revokedAt
  {
    hide Next, Allowed;
    SettledAlong(ws, acts, m, n, l);
  }

  predicate DeadToken(w: World, token: Hash) {
    token in w.usedHashes && forall s :: s in w.db.sessions && w.db.sessions[s].token == token ==> w.db.sessions[s].revokedAt.Some?
  }

  lemma DeadStep(w: World, a: Action, token: Hash)
    requires DeadToken(w, token) && Allowed(w, a)
    ensures DeadToken(Next(w, a), token)
  {
    hide Perform;
    StepLater(w.db, a);
  }

  lemma TokensAreUnique(w: World, s: Id)
    requires Base(w) && s in w.db.sessions && w.db.sessions[s].revokedAt.Some?
    ensures DeadToken(w, w.db.sessions[s].token)
  {
    hide Guarded;
  }

  lemma {:induction false} DeadOnward(ws: seq<World>, acts: seq<Action>, m: nat, n: nat, token: Hash)
    requires Trace(ws, acts) && m <= n <= |acts| && DeadToken(ws[m], token)
    ensures DeadToken(ws[n], token)
    decreases n
  {
    hide Next, Allowed, DeadToken;
    if m < n {
      DeadOnward(ws, acts, m, n - 1, token);
      StepAt(ws, acts, n - 1);
      DeadStep(ws[n - 1], acts[n - 1], token);
    }
  }

  // The token of a revoked session is rejected in all later states.
  lemma DeadForever(ws: seq<World>, acts: seq<Action>, m: nat, n: nat, s: Id, now: Time, idle: Time)
    requires Trace(ws, acts) && m <= n <= |acts| && s in ws[m].db.sessions && ws[m].db.sessions[s].revokedAt.Some?
    ensures FindSession(ws[n].db, ws[m].db.sessions[s].token, now, idle) == {}
  {
    hide Next, Allowed, Base;
    BaseAlong(ws, acts, m);
    TokensAreUnique(ws[m], s);
    DeadOnward(ws, acts, m, n, ws[m].db.sessions[s].token);
  }

  // ----- Recovery and locking evict -----

  lemma RecoveryLeavesOne(db: Db, r: Registration)
    requires r.purpose == Recovery && CompleteRegistration(db, r).outcome == Done
    ensures var after := CompleteRegistration(db, r).db;
      (set s | s in after.sessions && after.sessions[s].user == r.user && after.sessions[s].revokedAt.None?)
        == if r.session.Some? then {r.session.value.id} else {}
    ensures var after := CompleteRegistration(db, r).db;
      forall s :: s in db.sessions && db.sessions[s].user == r.user ==>
        s in after.sessions && after.sessions[s].token == db.sessions[s].token && after.sessions[s].revokedAt.Some?
  {}

  // Step `i` of a run evicts user `u`: a successful recovery, or an attempt to lock the account, even one
  // that its guard refused.
  ghost predicate Evicts(db: Db, a: Action, u: Id) {
    || (a.CompleteReg? && a.registration.purpose == Recovery && a.registration.user == u && Perform(db, a).outcome == Done)
    || (a.Lock? && a.target == u && Perform(db, a).outcome != StorageFailure)
  }

  lemma EvictsRevokes(db: Db, a: Action, u: Id, s: Id)
    requires Evicts(db, a, u) && s in db.sessions && db.sessions[s].user == u
    ensures var after := Perform(db, a).db.sessions;
      s in after && after[s].token == db.sessions[s].token && after[s].revokedAt.Some?
  {
    if a.CompleteReg? {
      CompleteRegIs(db, a.registration);
      hide Perform;
      RecoveryLeavesOne(db, a.registration);
    } else {
      LockRevokes(db, a);
      hide Perform;
    }
  }

  lemma LockRevokes(db: Db, a: Action)
    requires a.Lock? && Perform(db, a).outcome != StorageFailure
    ensures Perform(db, a).db.sessions == RevokeSessions(db.sessions, a.target, a.now)
  {}

  // The token has been drawn, and whatever session bears it is user u's.
  predicate TokenOf(w: World, token: Hash, u: Id) {
    token in w.usedHashes && forall s :: s in w.db.sessions && w.db.sessions[s].token == token ==> w.db.sessions[s].user == u
  }

  lemma TokenOfStep(w: World, a: Action, token: Hash, u: Id)
    requires TokenOf(w, token, u) && Allowed(w, a)
    ensures TokenOf(Next(w, a), token, u)
  {
    hide Perform, PasskeysLater, LinksLater, ChallengesLater;
    StepLater(w.db, a);
  }

  lemma BearersAre(w: World, s: Id)
    requires Base(w) && s in w.db.sessions
    ensures TokenOf(w, w.db.sessions[s].token, w.db.sessions[s].user)
  {
    hide Guarded;
  }

  lemma {:induction false} TokenOfAlong(ws: seq<World>, acts: seq<Action>, j: nat, n: nat, s: Id)
    requires Trace(ws, acts) && j <= n <= |acts| && s in ws[j].db.sessions
    ensures TokenOf(ws[n], ws[j].db.sessions[s].token, ws[j].db.sessions[s].user)
    decreases n
  {
    hide Next, Allowed, TokenOf, Base;
    if n == j {
      BaseAlong(ws, acts, j);
      BearersAre(ws[j], s);
    } else {
      TokenOfAlong(ws, acts, j, n - 1, s);
      StepAt(ws, acts, n - 1);
      TokenOfStep(ws[n - 1], acts[n - 1], ws[j].db.sessions[s].token, ws[j].db.sessions[s].user);
    }
  }

  // No row that bears an earlier token of the user's survives the eviction unrevoked.
  lemma EvictionKills(w: World, a: Action, token: Hash, u: Id)
    requires Base(w) && Allowed(w, a) && TokenOf(w, token, u) && Evicts(w.db, a, u)
    ensures DeadToken(Next(w, a), token)
  {
    TokenOfStep(w, a, token, u);
    BaseStep(w, a);
    StepLater(w.db, a);
    hide Perform, Evicts, Base, Record, NewIds, PasskeysLater, LinksLater, ChallengesLater, UsersLater;
    forall s | s in Next(w, a).db.sessions && Next(w, a).db.sessions[s].token == token
      ensures Next(w, a).db.sessions[s].revokedAt.Some?
    {
      assert s in w.db.sessions;
      EvictsRevokes(w.db, a, u, s);
    }
  }

  // Every session token the user was ever given before is rejected in all later states, whether or not its
  // row was still there, whatever happens next, and also when a locked account is reactivated.
  lemma EvictedForever(ws: seq<World>, acts: seq<Action>, j: nat, i: nat, n: nat, s: Id, now: Time, idle: Time)
    requires Trace(ws, acts) && j <= i < n <= |acts| && s in ws[j].db.sessions
    requires Evicts(ws[i].db, acts[i], ws[j].db.sessions[s].user)
    ensures FindSession(ws[n].db, ws[j].db.sessions[s].token, now, idle) == {}
  {
    hide Perform, Allowed, Evicts, Base, Next, TokenOf;
    var token := ws[j].db.sessions[s].token;
    StepAt(ws, acts, i);
    BaseAlong(ws, acts, i);
    TokenOfAlong(ws, acts, j, i, s);
    EvictionKills(ws[i], acts[i], token, ws[j].db.sessions[s].user);
    DeadOnward(ws, acts, i + 1, n, token);
  }

  // ----- Passkeys are kept, and their counters never drop -----

  lemma {:induction false} HolderAlong(ws: seq<World>, acts: seq<Action>, n: nat, u: Id)
    requires Trace(ws, acts) && n <= |acts|
    requires forall i {:trigger acts[i]} :: 0 <= i < n ==> Spares(ws[i].db, acts[i], u)
    ensures HolderOk(ws[n], u)
    decreases n
  {
    hide Base, HolderOk, Next, Allowed, Spares;
    if n == 0 {
      GenesisLedger();
    } else {
      HolderAlong(ws, acts, n - 1, u);
      BaseAlong(ws, acts, n - 1);
      StepAt(ws, acts, n - 1);
      HolderStep(ws[n - 1], acts[n - 1], u);
    }
  }

  // A user who ever had a passkey keeps at least one until the account is deleted, unless a delete of his
  // own only passkey came in the very millisecond in which that passkey was last written.
  lemma HoldersKeepOne(ws: seq<World>, acts: seq<Action>, n: nat, u: Id)
    requires Trace(ws, acts) && n <= |acts|
    requires forall i {:trigger acts[i]} :: 0 <= i < n ==> Spares(ws[i].db, acts[i], u)
    ensures u in ws[n].log.holders && u in ws[n].db.users ==> Holds(ws[n].db.passkeys, u)
  {
    hide Next, Allowed, Spares;
    HolderAlong(ws, acts, n, u);
  }

  // The row is still the one it was, and its counter has not dropped; or it is gone for good.
  predicate Continues(w: World, p: Id, row: Passkey) {
    p in w.usedIds && (p in w.db.passkeys ==> PasskeyLater(row, w.db.passkeys[p]))
  }

  lemma ContinuesStep(w: World, a: Action, p: Id, row: Passkey)
    requires Continues(w, p, row) && Allowed(w, a)
    ensures Continues(Next(w, a), p, row)
  {
    hide Perform, SessionsLater, LinksLater, ChallengesLater;
    StepLater(w.db, a);
  }

  lemma {:induction false} ContinuesAlong(ws: seq<World>, acts: seq<Action>, m: nat, n: nat, p: Id)
    requires Trace(ws, acts) && m <= n <= |acts| && p in ws[m].db.passkeys
    ensures Continues(ws[n], p, ws[m].db.passkeys[p])
    decreases n
  {
    hide Next, Allowed, Constraints, Guarded;
    if m == n {
      BaseAlong(ws, acts, m);
    } else {
      ContinuesAlong(ws, acts, m, n - 1, p);
      StepAt(ws, acts, n - 1);
      ContinuesStep(ws[n - 1], acts[n - 1], p, ws[m].db.passkeys[p]);
    }
  }

  lemma CountersNeverDrop(ws: seq<World>, acts: seq<Action>, m: nat, n: nat, p: Id)
    requires Trace(ws, acts) && m <= n <= |acts| && p in ws[m].db.passkeys && p in ws[n].db.passkeys
    ensures ws[m].db.passkeys[p].signCount <= ws[n].db.passkeys[p].signCount
    ensures ws[m].db.passkeys[p].credential == ws[n].db.passkeys[p].credential
  {
    hide Next, Allowed;
    ContinuesAlong(ws, acts, m, n, p);
  }

  // The completion `a` advanced the counter of passkey `p`.
  ghost predicate Advances(db: Db, a: Action, p: Id) {
    a.CompleteAuth? && Perform(db, a).outcome == Done && p in CounterHits(db.users, db.passkeys, a.completion)
    && a.completion.readCount < a.completion.newCount
  }

  lemma AdvancesTo(db: Db, a: Action, p: Id)
    requires Advances(db, a, p)
    ensures var after := Perform(db, a).db.passkeys;
      p in after && after[p].signCount == a.completion.newCount && after[p].credential == a.completion.credential
  {}

  // Two completions that read the same counter value cannot both succeed once the first advances it,
  // however much happens in between, while the passkey exists.
  lemma SecondReadIsStale(ws: seq<World>, acts: seq<Action>, i: nat, n: nat, p: Id, b: Completion)
    requires Trace(ws, acts) && i < n <= |acts| && Advances(ws[i].db, acts[i], p) && p in ws[n].db.passkeys
    requires b.credential == acts[i].completion.credential && b.readCount == acts[i].completion.readCount
    ensures CompleteAuthentication(ws[n].db, b) == Step(ws[n].db, AuthenticationFailed)
  {
    assert acts[i].completion.readCount < acts[i].completion.newCount;
    hide Perform, Allowed, Advances, Base, CompleteAuthentication, Record, NewIds, NewHashes;
    StepAt(ws, acts, i);
    AdvancesTo(ws[i].db, acts[i], p);
    CountersNeverDrop(ws, acts, i + 1, n, p);
    BaseAlong(ws, acts, n);
    NoOtherRow(ws[n], p, b);
  }

  lemma NoOtherRow(w: World, p: Id, b: Completion)
    requires Base(w) && p in w.db.passkeys && w.db.passkeys[p].credential == b.credential && b.readCount < w.db.passkeys[p].signCount
    ensures CompleteAuthentication(w.db, b) == Step(w.db, AuthenticationFailed)
  {
    hide Guarded, Used;
    assert CounterHits(w.db.users, w.db.passkeys, b) == {};
  }
}
