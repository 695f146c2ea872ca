/** The throttled `last_seen_at` against exact tracking, for one session and any interleaving of requests.
    A request first looks the session up; when the stored time is old enough it then updates it, in a
    second step that other requests may overtake. */
module Throttle {
  import opened Schema
  import opened Atomic
  import opened Protocol

  const IDLE := SESSION_IDLE_TIMEOUT_MS
  const GRAIN := SESSION_LAST_SEEN_THROTTLE_MS

  // `seen` is the true last access: the latest clock reading of an accepted lookup.  `settled` is the
  // latest among the accesses that are over, `pending` the readings of those yet to write.
  datatype Tracker = Tracker(row: Session, seen: Time, settled: Time, pending: multiset<Time>, writes: nat)

  datatype Event = Look(t: Time) | Write(t: Time) | Revoke(t: Time)

  function Opened(user: Id, token: Hash, created: Time, expires: Time): Tracker {
    Tracker(Session(user, token, expires, created, None, created), created, created, multiset{}, 0)
  }

  function Latest(x: Time, y: Time): Time {
    if x < y then y else x
  }

  predicate Admits(k: Tracker, t: Time) {
    Accepts(k.row, t, t - IDLE)
  }

  predicate Due(k: Tracker, t: Time) {
    k.row.lastSeenAt <= t - GRAIN
  }

  predicate Possible(k: Tracker, e: Event) {
    e.Write? ==> e.t in k.pending
  }

  function After(k: Tracker, e: Event): Tracker {
    match e
    case Look(t) =>
      if !Admits(k, t) then k
      else if Due(k, t) then k.(seen := Latest(k.seen, t), pending := k.pending + multiset{t})
      else k.(seen := Latest(k.seen, t), settled := Latest(k.settled, t))
    case Write(t) =>
      var row := Touch(k.row, t, t - IDLE, t - GRAIN);
      k.(row := row, settled := Latest(k.settled, t), pending := k.pending - multiset{t},
         writes := k.writes + if row == k.row then 0 else 1)
    case Revoke(t) => k.(row := if k.row.revokedAt.None? then k.row.(revokedAt := Some(t)) else k.row)
  }

  predicate Legal(k: Tracker, run: seq<Event>)
    decreases |run|
  {
    run != [] ==> Possible(k, run[0]) && Legal(After(k, run[0]), run[1..])
  }

  function Replay(k: Tracker, run: seq<Event>): Tracker
    decreases |run|
  {
    if run == [] then k else Replay(After(k, run[0]), run[1..])
  }

  // A Write event is the UPDATE of the repository, whose CHECK on the new value cannot fail.
  lemma WriteIsTouch(db: Db, id: Id, now: Time)
    requires id in db.sessions && db.sessions[id].createdAt <= db.sessions[id].lastSeenAt
    ensures TouchSession(db, id, now, now - IDLE, now - GRAIN)
      == Step(db.(sessions := db.sessions[id := Touch(db.sessions[id], now, now - IDLE, now - GRAIN)]), Done)
  {
    if Touch(db.sessions[id], now, now - IDLE, now - GRAIN) == db.sessions[id] {
      assert db.sessions[id := db.sessions[id]] == db.sessions;
    }
  }

  // ----- The sandwich -----

  // The stored time never overtakes the true last access, and lags behind a finished one by less than
  // the throttle; each write moved it by at least the throttle, and never to the expiry.
  ghost predicate Sandwiched(k: Tracker) {
    && k.row.lastSeenAt <= k.seen && k.settled <= k.seen
    && (k.row.revokedAt.None? ==> k.settled < k.row.lastSeenAt + GRAIN)
    && (forall t :: t in k.pending ==> t <= k.seen && t < k.row.expiresAt && t - IDLE < k.row.lastSeenAt)
    && k.row.createdAt + k.writes * GRAIN <= k.row.lastSeenAt < k.row.expiresAt
    && (k.pending == multiset{} ==> k.settled == k.seen)
    && (k.seen == k.settled || k.seen in k.pending)
  }

  // The order of the times alone, once the row has moved from `old` to `new`.
  lemma WriteSettles(k: Tracker, t: Time)
    requires Sandwiched(k) && t in k.pending
    ensures var row := Touch(k.row, t, t - IDLE, t - GRAIN);
      && (row == k.row || row == k.row.(lastSeenAt := t))
      && (row != k.row ==> k.row.lastSeenAt + GRAIN <= t)
      && (row.revokedAt.None? ==> Latest(k.settled, t) < row.lastSeenAt + GRAIN)
  {}

  lemma PendingLeft(k: Tracker, t: Time)
    requires Sandwiched(k) && t in k.pending
    ensures var left, settled := k.pending - multiset{t}, Latest(k.settled, t);
      && (forall u :: u in left ==> u in k.pending)
      && (k.seen == settled || k.seen in left)
      && (left == multiset{} ==> settled == k.seen)
  {
    if k.seen != k.settled && k.seen != t {
      assert k.seen in k.pending - multiset{t};
    }
  }

  lemma SandwichedWrite(k: Tracker, t: Time)
    requires Sandwiched(k) && t in k.pending
    ensures Sandwiched(After(k, Write(t)))
  {
    WriteSettles(k, t);
    PendingLeft(k, t);
    assert (k.writes + 1) * GRAIN == k.writes * GRAIN + GRAIN;
    hide Touch;
  }

  lemma SandwichedStep(k: Tracker, e: Event)
    requires Sandwiched(k) && Possible(k, e)
    ensures Sandwiched(After(k, e))
  {
    match e
    case Look(t) =>
      if Admits(k, t) && Due(k, t) { assert t in After(k, e).pending; }
    case Write(t) => SandwichedWrite(k, t);
    case Revoke(_) =>
  }

  lemma {:induction false} SandwichedRun(k: Tracker, run: seq<Event>)
    requires Sandwiched(k) && Legal(k, run)
    ensures Sandwiched(Replay(k, run))
    decreases |run|
  {
    hide Sandwiched, After, Possible;
    if run != [] {
      SandwichedStep(k, run[0]);
      SandwichedRun(After(k, run[0]), run[1..]);
    }
  }

  lemma OpenedSandwiched(user: Id, token: Hash, created: Time, expires: Time)
    requires created < expires
    ensures Sandwiched(Opened(user, token, created, expires))
  {}

  // A gap from the true last access that leaves room for the throttle is refused only when the row still
  // shows an idle session, and that is so only while the last access has yet to write.
  lemma RefusedWhilePending(k: Tracker, t: Time)
    requires Sandwiched(k) && k.row.revokedAt.None? && t < k.row.expiresAt && t - k.seen <= IDLE - GRAIN
    ensures Admits(k, t) <==> t - IDLE < k.row.lastSeenAt
    ensures !Admits(k, t) ==> k.seen in k.pending && k.settled < k.seen
  {}

  // After any run: an accepted lookup means a true gap below the idle timeout.  A gap that leaves room for
  // the throttle is always accepted before expiry when it is measured from the last finished access, and
  // when it is measured from the true last access, unless that access has yet to write.
  lemma GapsAccepted(user: Id, token: Hash, created: Time, expires: Time, run: seq<Event>, t: Time)
    requires created < expires && Legal(Opened(user, token, created, expires), run)
    ensures var k := Replay(Opened(user, token, created, expires), run);
      && (Admits(k, t) ==> t - k.seen < IDLE)
      && (k.row.revokedAt.None? && t < expires ==>
            && (t - k.settled <= IDLE - GRAIN ==> Admits(k, t))
            && (t - k.seen <= IDLE - GRAIN ==> (Admits(k, t) <==> t - IDLE < k.row.lastSeenAt))
            && (t - k.seen <= IDLE - GRAIN && k.seen !in k.pending ==> Admits(k, t)))
  {
    var start := Opened(user, token, created, expires);
    OpenedSandwiched(user, token, created, expires);
    SandwichedRun(start, run);
    SameExpiry(start, run);
    hide After, Legal;
  }

  // The true gap alone does not suffice.  A lookup one millisecond short of the idle timeout is accepted;
  // while its write is pending, a lookup one millisecond later is refused.
  lemma PendingGapRefused(user: Id, token: Hash)
    ensures var start := Opened(user, token, 0, 30 * DAY_MS);
      var k := Replay(start, [Look(IDLE - 1)]);
      && Legal(start, [Look(IDLE - 1)]) && Admits(start, IDLE - 1)
      && k.row.revokedAt.None? && IDLE < k.row.expiresAt && IDLE - k.seen == 1 && k.pending == multiset{IDLE - 1}
      && !Admits(k, IDLE)
  {
    var start := Opened(user, token, 0, 30 * DAY_MS);
    var run := [Look(IDLE - 1)];
    assert run[1..] == [];
    assert Replay(start, run) == After(start, run[0]);
  }

  lemma {:induction false} SameExpiry(k: Tracker, run: seq<Event>)
    ensures Replay(k, run).row.expiresAt == k.row.expiresAt && Replay(k, run).row.createdAt == k.row.createdAt
    decreases |run|
  {
    if run != [] { SameExpiry(After(k, run[0]), run[1..]); }
  }

  // No lookup of the run reads a clock before `t`.
  predicate NotBefore(run: seq<Event>, t: Time) {
    forall i :: 0 <= i < |run| && run[i].Look? ==> t <= run[i].t
  }

  // A session left alone for the idle timeout is rejected, and rejected ever after, whatever writes are
  // still under way.
  lemma {:induction false} GapsRejected(k: Tracker, run: seq<Event>, t: Time, later: Time)
    requires Sandwiched(k) && t - k.seen >= IDLE && Legal(k, run) && NotBefore(run, t) && t <= later
    ensures !Admits(Replay(k, run), later) && Replay(k, run).seen == k.seen
    decreases |run|
  {
    if run != [] {
      SandwichedStep(k, run[0]);
      assert run[0].Look? ==> t <= run[0].t;
      assert forall i :: 0 <= i < |run[1..]| ==> run[1..][i] == run[i + 1];
      GapsRejected(After(k, run[0]), run[1..], t, later);
    }
  }

  // The throttle writes fewer times than its interval fits into the session's lifetime.
  lemma FewWrites(user: Id, token: Hash, created: Time, expires: Time, run: seq<Event>)
    requires created < expires && Legal(Opened(user, token, created, expires), run)
    ensures Replay(Opened(user, token, created, expires), run).writes * GRAIN < expires - created
  {
    var start := Opened(user, token, created, expires);
    OpenedSandwiched(user, token, created, expires);
    SandwichedRun(start, run);
    SameExpiry(start, run);
    hide After, Legal;
  }

  // ----- The tracker and the repository -----

  // A lookup is admitted exactly when the repository finds the session, and a write becomes due exactly
  // when the throttled UPDATE, run at once, changes the database.
  lemma LookIsFind(db: Db, s: Id, k: Tracker, t: Time)
    requires SessionsOk(db.users, db.sessions) && s in db.sessions && db.sessions[s] == k.row && Enabled(db.users, k.row.user)
    ensures Admits(k, t) <==> s in FindSession(db, k.row.token, t, t - SESSION_IDLE_TIMEOUT_MS)
    ensures Admits(k, t) && Due(k, t) <==> Perform(db, SeeSession(s, t)).db != db
  {
    if Admits(k, t) && Due(k, t) {
      assert Perform(db, SeeSession(s, t)).db.sessions[s].lastSeenAt == t != db.sessions[s].lastSeenAt;
    }
  }

  // A revoked session is never admitted again.
  lemma {:induction false} RevokedForGood(k: Tracker, run: seq<Event>, t: Time, later: Time)
    requires run != [] ==> run[0] == Revoke(t) || k.row.revokedAt.Some?
    requires run == [] ==> k.row.revokedAt.Some?
    ensures !Admits(Replay(k, run), later)
    decreases |run|
  {
    if run != [] { RevokedForGood(After(k, run[0]), run[1..], t, later); }
  }

  // ----- One request at a time -----

  // A request that runs to its end before the next one starts.
  function Serve(k: Tracker, t: Time): Tracker {
    if Admits(k, t) && Due(k, t) then After(After(k, Look(t)), Write(t)) else After(k, Look(t))
  }

  function ServeAll(k: Tracker, times: seq<Time>): Tracker
    decreases |times|
  {
    if times == [] then k else ServeAll(Serve(k, times[0]), times[1..])
  }

  lemma {:induction false} NothingPends(k: Tracker, times: seq<Time>)
    requires Sandwiched(k) && k.pending == multiset{}
    ensures Sandwiched(ServeAll(k, times)) && ServeAll(k, times).pending == multiset{}
    ensures ServeAll(k, times).row.revokedAt == k.row.revokedAt && ServeAll(k, times).row.expiresAt == k.row.expiresAt
    decreases |times|
  {
    if times != [] {
      var t := times[0];
      SandwichedStep(k, Look(t));
      if Admits(k, t) && Due(k, t) { SandwichedStep(After(k, Look(t)), Write(t)); }
      NothingPends(Serve(k, t), times[1..]);
      hide Sandwiched, Admits, Due;
    }
  }

  // Then the true gap alone decides: within the timeout less the throttle the session is accepted, from the
  // timeout on it is rejected, as long as it is unexpired.
  lemma OneAtATime(user: Id, token: Hash, created: Time, expires: Time, times: seq<Time>, t: Time)
    requires created < expires && t < expires
    ensures var k := ServeAll(Opened(user, token, created, expires), times);
      && (t - k.seen <= 603_900_000 ==> Admits(k, t))
      && (t - k.seen >= 604_800_000 ==> !Admits(k, t))
  {
    var start := Opened(user, token, created, expires);
    OpenedSandwiched(user, token, created, expires);
    NothingPends(start, times);
    hide ServeAll;
  }
}
