/** The way in stays open: an invitation leads to a session whatever other requests do in between, as long as
    nobody closes its link, locks or deletes its user, or uses its challenge first. */
module Journeys {
  import opened Schema
  import opened Atomic
  import opened Protocol
  import opened History
  import opened Runs
  import opened Ledger
  import opened Effects
  import Isolation
  import Interleaving

  // ----- Links -----

  // The steps that can close or remove a link of that user before it is past use.
  predicate Closes(a: Action, l: Id, owner: Id) {
    || (a.EndLink? && a.link == l) || (a.CompleteReg? && a.registration.link == l)
    || (a.Lock? && a.target == owner) || (a.Delete? && a.user == owner)
  }

  // The deletion of its maker leaves a link without a maker's name.
  predicate SameButMaker(l: Link, m: Link) {
    m == l.(createdBy := m.createdBy)
  }

  lemma MakersAdd(w: World, a: Action, l: Id)
    requires Base(w) && l in w.db.links
    requires a.Enroll? || a.Recover? || a.Bootstrap? || a.OperatorRecover? || a.IssueRegistration?
    ensures l in Perform(w.db, a).db.links && Perform(w.db, a).db.links[l] == w.db.links[l]
  {
    hide Perform, LinkFits, ChallengeFits, UserFits, Administers, Constraints, Used;
    match a
    case Enroll(actor, u, m, e, now) => Enrolls(w.db, actor, u, m, e, now); Apart(w.db, m, now, l);
    case Recover(actor, target, m, e, now) => Recovers(w.db, actor, target, m, e, now); Apart(w.db, m, now, l);
    case Bootstrap(u, m, e, now) => Boots(w.db, u, m, e, now); Apart(w.db, m, now, l);
    case OperatorRecover(target, m, e, now) => OperatorRecovers(w.db, target, m, e, now); Apart(w.db, m, now, l);
    case IssueRegistration(u, m, c, now) => IssuesForSelf(w.db, u, m, c, now); Apart(w.db, m, now, l);
  }

  lemma Apart(db: Db, m: NewLink, now: Time, l: Id)
    requires l in db.links
    ensures LinkFits(db, m, now) ==> m.id != l
  {}

  lemma LinkStays(w: World, a: Action, l: Id)
    requires Base(w) && Allowed(w, a) && l in w.db.links && Open(w.db.links[l])
    requires !Closes(a, l, w.db.links[l].user) && w.clock < w.db.links[l].expiresAt + 2_592_000_000
    ensures l in Perform(w.db, a).db.links && SameButMaker(w.db.links[l], Perform(w.db, a).db.links[l])
  {
    hide Perform, Constraints, Used, Redeems;
    if a.Enroll? || a.Recover? || a.Bootstrap? || a.OperatorRecover? || a.IssueRegistration? {
      MakersAdd(w, a, l);
    } else if a.CompleteReg? {
      if Redeems(w.db, a.registration) { Registers(w.db, a.registration); } else { RefusedToRegister(w.db, a.registration); }
    } else if a.EndLink? {
      EndsLink(w.db, a.actor, a.link, a.eventId, a.now);
    } else if a.Lock? {
      Locks(w.db, a.actor, a.target, a.eventId, a.now);
    } else if a.Delete? {
      Isolation.DeleteSparesOthers(w.db, a);
    } else if a.Clean? {
      CleanupKeeps(w.db, a.now);
    } else {
      LinksFrame(w.db, a);
    }
  }

  lemma {:induction false} LinkStaysAlong(ws: seq<World>, acts: seq<Action>, m: nat, n: nat, l: Id)
    requires Trace(ws, acts) && m <= n <= |acts| && l in ws[m].db.links && Open(ws[m].db.links[l])
    requires forall x {:trigger acts[x]} :: m <= x < n ==> !Closes(acts[x], l, ws[m].db.links[l].user)
    requires ws[n].clock < ws[m].db.links[l].expiresAt + 2_592_000_000
    ensures ws[m].clock <= ws[n].clock
    ensures l in ws[n].db.links && SameButMaker(ws[m].db.links[l], ws[n].db.links[l])
    decreases n
  {
    hide Base, Allowed, Next, Closes;
    if m < n {
      StepAt(ws, acts, n - 1);
      Interleaving.ClockOnward(ws[n - 1], acts[n - 1]);
      LinkStaysAlong(ws, acts, m, n - 1, l);
      BaseAlong(ws, acts, n - 1);
      LinkStays(ws[n - 1], acts[n - 1], l);
      NextDb(ws[n - 1], acts[n - 1]);
    }
  }

  lemma NextDb(w: World, a: Action)
    ensures Next(w, a).db == Perform(w.db, a).db
  {
    hide Perform, Record;
  }

  // ----- Challenges -----

  // The steps that can consume a challenge, or remove it before it is past use.
  predicate Uses(a: Action, c: Id, owner: Option<Id>) {
    ((a.ConsumeAuth? || a.ConsumeReg?) && a.challenge == c) || (a.Delete? && Some(a.user) == owner)
  }

  lemma ChallengeStays(w: World, a: Action, c: Id)
    requires Base(w) && Allowed(w, a) && c in w.db.challenges
    requires !Uses(a, c, w.db.challenges[c].user) && w.clock < w.db.challenges[c].expiresAt + 86_400_000
    requires w.db.challenges[c].consumedAt.None?
    ensures c in Perform(w.db, a).db.challenges && Perform(w.db, a).db.challenges[c] == w.db.challenges[c]
  {
    hide Perform, Constraints, Used, LinkFits, Active, LinkGood, Entitles;
    match a
    case IssueAuth(n, now) => IssuesChallenge(w.db, n, now);
    case IssueAccess(l, n, now) => IssuesForLink(w.db, l, n, now);
    case IssueRegistration(u, l, n, now) => IssuesForSelf(w.db, u, l, n, now);
    case ConsumeAuth(d, credential, now) => ConsumesToSignIn(w.db, d, credential, now);
    case ConsumeReg(d, proof, now) => ConsumesToRegister(w.db, d, proof, now);
    case Delete(_, _, _, _) => Isolation.DeleteSparesOthers(w.db, a);
    case Clean(now) => CleanupKeeps(w.db, now);
    case _ => ChallengesFrame(w.db, a);
  }

  lemma {:induction false} ChallengeStaysAlong(ws: seq<World>, acts: seq<Action>, m: nat, n: nat, c: Id)
    requires Trace(ws, acts) && m <= n <= |acts| && c in ws[m].db.challenges && ws[m].db.challenges[c].consumedAt.None?
    requires forall x {:trigger acts[x]} :: m <= x < n ==> !Uses(acts[x], c, ws[m].db.challenges[c].user)
    requires ws[n].clock < ws[m].db.challenges[c].expiresAt + 86_400_000
    ensures c in ws[n].db.challenges && ws[n].db.challenges[c] == ws[m].db.challenges[c]
    decreases n
  {
    hide Base, Allowed, Next, Uses;
    if m < n {
      StepAt(ws, acts, n - 1);
      Interleaving.ClockOnward(ws[n - 1], acts[n - 1]);
      ChallengeStaysAlong(ws, acts, m, n - 1, c);
      BaseAlong(ws, acts, n - 1);
      ChallengeStays(ws[n - 1], acts[n - 1], c);
      NextDb(ws[n - 1], acts[n - 1]);
    }
  }

  // ----- From a link to a session -----

  // What is freshly drawn fits.
  lemma DrawnChallengeFits(w: World, a: Action)
    requires Base(w) && Allowed(w, a) && a.IssueAccess? && a.now < a.c.expiresAt
    ensures ChallengeFits(w.db, a.c, a.now)
  {
    hide Constraints, Guarded;
    assert a.c.id in NewIds(a) && a.c.hash in NewHashes(a);
  }

  lemma DrawnKeysFit(w: World, a: Action)
    requires Base(w) && Allowed(w, a) && a.CompleteReg? && a.registration.session.Some?
    requires a.registration.now < a.registration.session.value.expiresAt
    ensures var r := a.registration;
      SessionFits(w.db, r.session.value, r.now) && r.eventId !in w.db.audits && r.passkey.id !in w.db.passkeys
  {
    hide Constraints, Guarded;
    var r := a.registration;
    assert r.session.value.id in NewIds(a) && r.session.value.token in NewHashes(a) && r.eventId in NewIds(a) && r.passkey.id in NewIds(a);
  }

  // Asking for a challenge works while the link stands.
  lemma AskWorks(w: World, a: Action)
    requires Base(w) && Allowed(w, a) && a.IssueAccess? && a.now < a.c.expiresAt
    requires a.link in w.db.links && Open(w.db.links[a.link]) && a.now < w.db.links[a.link].expiresAt
    ensures Perform(w.db, a).outcome == Done
    ensures a.c.id in Perform(w.db, a).db.challenges
    ensures Perform(w.db, a).db.challenges[a.c.id] ==
      Challenge(Some(w.db.links[a.link].user), Some(a.link), w.db.links[a.link].purpose, a.c.hash, a.c.expiresAt, None, a.now)
  {
    hide Perform, Constraints, Used, ChallengeFits;
    DrawnChallengeFits(w, a);
    IssuesForLink(w.db, a.link, a.c, a.now);
  }

  // Answering it works while link and challenge stand, for whoever knows the link's secret.
  lemma AnswerWorks(w: World, a: Action)
    requires Base(w) && a.ConsumeReg? && a.challenge in w.db.challenges
    requires var c := w.db.challenges[a.challenge];
      && c.consumedAt.None? && a.now < c.expiresAt && c.link.Some? && c.link.value in w.db.links
      && Open(w.db.links[c.link.value]) && a.now < w.db.links[c.link.value].expiresAt
      && a.proof == ByToken(w.db.links[c.link.value].token)
    ensures Perform(w.db, a).outcome == Done
  {
    hide Perform, Constraints, Used;
    ConsumesToRegister(w.db, a.challenge, a.proof, a.now);
  }

  // Registering works while the link stands, and opens a session.
  lemma RegisterWorks(w: World, a: Action, t: Time)
    requires Base(w) && Allowed(w, a) && a.CompleteReg?
    requires var r := a.registration;
      && r.link in w.db.links && Open(w.db.links[r.link]) && r.now < w.db.links[r.link].expiresAt
      && r.user == w.db.links[r.link].user && r.purpose == w.db.links[r.link].purpose && r.proof == ByToken(w.db.links[r.link].token)
      && (forall p :: p in w.db.passkeys ==> w.db.passkeys[p].credential != r.passkey.credential)
      && r.session.Some? && r.now < r.session.value.expiresAt
    requires t < a.registration.session.value.expiresAt && t < a.registration.now + 604_800_000
    ensures Perform(w.db, a).outcome == Done
    ensures var r := a.registration; r.session.value.id in FindSession(Perform(w.db, a).db, r.session.value.token, t, t - SESSION_IDLE_TIMEOUT_MS)
  {
    hide Perform, Constraints, Used, SessionFits, FindSession;
    var r := a.registration;
    DrawnKeysFit(w, a);
    Registers(w.db, r);
    assert Perform(w.db, a).outcome == Done;
    FindsSession(Perform(w.db, a).db, r.session.value.token, t, t - SESSION_IDLE_TIMEOUT_MS, r.session.value.id);
  }

  // The challenge that a step issued for a link is still there, until it is used or past use.
  lemma AskedStays(ws: seq<World>, acts: seq<Action>, i: nat, j: nat)
    requires Trace(ws, acts) && i < j <= |acts| && acts[i].IssueAccess? && acts[i].now < acts[i].c.expiresAt
    requires acts[i].link in ws[i].db.links && Open(ws[i].db.links[acts[i].link]) && acts[i].now < ws[i].db.links[acts[i].link].expiresAt
    requires forall x {:trigger acts[x]} :: i < x < j ==> !Uses(acts[x], acts[i].c.id, Some(ws[i].db.links[acts[i].link].user))
    requires ws[j].clock < acts[i].c.expiresAt + 86_400_000
    ensures Perform(ws[i].db, acts[i]).outcome == Done
    ensures var l, c := acts[i].link, acts[i].c;
      && c.id in ws[j].db.challenges && ws[j].db.challenges[c.id].consumedAt.None?
      && ws[j].db.challenges[c.id].link == Some(l) && ws[j].db.challenges[c.id].expiresAt == c.expiresAt
  {
    hide Base, Next, Uses, Perform, Allowed;
    StepAt(ws, acts, i);
    BaseAlong(ws, acts, i);
    AskWorks(ws[i], acts[i]);
    NextDb(ws[i], acts[i]);
    ChallengeStaysAlong(ws, acts, i + 1, j, acts[i].c.id);
  }

  // Three requests of a visitor who has a link: he asks for a challenge, answers it and registers.
  datatype Visit = Visit(link: Id, c: NewChallenge, asked: Time, answered: Time, r: Registration)

  // They are the steps i, j and n of the run.
  predicate Takes(acts: seq<Action>, v: Visit, i: nat, j: nat, n: nat)
    requires i < j < n < |acts|
  {
    && acts[i..i + 1] == [IssueAccess(v.link, v.c, v.asked)]
    && acts[j..j + 1] == [ConsumeReg(v.c.id, v.r.proof, v.answered)]
    && acts[n..n + 1] == [CompleteReg(v.r)]
  }

  // He knows the secret of the link, and each request comes before the link and the challenge expire.
  predicate InTime(v: Visit, row: Link) {
    && v.asked < v.c.expiresAt && v.asked < row.expiresAt && v.answered < v.c.expiresAt && v.answered < row.expiresAt
    && v.r.link == v.link && v.r.user == row.user && v.r.purpose == row.purpose && v.r.proof == ByToken(row.token)
    && v.r.now < row.expiresAt && v.r.session.Some? && v.r.now < v.r.session.value.expiresAt
  }

  // Whatever else happens in between: all three succeed, and the session is accepted until it expires or
  // seven days have passed.
  lemma LinkLeadsIn(ws: seq<World>, acts: seq<Action>, v: Visit, m: nat, i: nat, j: nat, n: nat, t: Time)
    requires Trace(ws, acts) && m <= i < j < n < |acts| && v.link in ws[m].db.links && Open(ws[m].db.links[v.link])
    requires Takes(acts, v, i, j, n) && InTime(v, ws[m].db.links[v.link])
    requires forall x {:trigger acts[x]} :: m <= x < n ==> !Closes(acts[x], v.link, v.r.user)
    requires forall x {:trigger acts[x]} :: i < x < j ==> !Uses(acts[x], v.c.id, Some(v.r.user))
    requires forall p :: p in ws[n].db.passkeys ==> ws[n].db.passkeys[p].credential != v.r.passkey.credential
    requires t < v.r.session.value.expiresAt && t < v.r.now + 604_800_000
    ensures Perform(ws[i].db, IssueAccess(v.link, v.c, v.asked)).outcome == Done
    ensures Perform(ws[j].db, ConsumeReg(v.c.id, v.r.proof, v.answered)).outcome == Done
    ensures Perform(ws[n].db, CompleteReg(v.r)).outcome == Done
    ensures v.r.session.value.id in FindSession(ws[n + 1].db, v.r.session.value.token, t, t - SESSION_IDLE_TIMEOUT_MS)
  {
    assert acts[i] == acts[i..i + 1][0] && acts[j] == acts[j..j + 1][0] && acts[n] == acts[n..n + 1][0];
    hide Base, Next, Closes, Uses, Perform, Allowed, FindSession;
    StepAt(ws, acts, i);
    StepAt(ws, acts, j);
    StepAt(ws, acts, n);
    Punctual(ws[i], acts[i]);
    Punctual(ws[j], acts[j]);
    Punctual(ws[n], acts[n]);
    BaseAlong(ws, acts, i);
    BaseAlong(ws, acts, j);
    BaseAlong(ws, acts, n);
    LinkStaysAlong(ws, acts, m, i, v.link);
    AskedStays(ws, acts, i, j);
    LinkStaysAlong(ws, acts, m, j, v.link);
    AnswerWorks(ws[j], acts[j]);
    LinkStaysAlong(ws, acts, m, n, v.link);
    RegisterWorks(ws[n], acts[n], t);
    NextDb(ws[n], acts[n]);
  }

  lemma Punctual(w: World, a: Action)
    requires Allowed(w, a) && !a.Tick?
    ensures w.clock <= StepTime(a) + 3_600_000
  {}

  // ----- From a passkey to a session -----

  lemma LoginAskWorks(w: World, a: Action)
    requires Base(w) && Allowed(w, a) && a.IssueAuth? && a.now < a.c.expiresAt
    ensures Perform(w.db, a).outcome == Done && a.c.id in Perform(w.db, a).db.challenges
    ensures Perform(w.db, a).db.challenges[a.c.id] == Challenge(None, None, Authentication, a.c.hash, a.c.expiresAt, None, a.now)
  {
    hide Perform, Constraints, Guarded;
    assert a.c.id in NewIds(a) && a.c.hash in NewHashes(a);
    IssuesChallenge(w.db, a.c, a.now);
  }

  // Completing works while the passkey is as it was read, and opens a session.
  lemma SignInWorks(w: World, a: Action, p: Id, t: Time)
    requires Base(w) && Allowed(w, a) && a.CompleteAuth?
    requires Presented(w.db, p, a.completion) && w.db.passkeys[p].createdAt <= a.completion.now < a.completion.session.expiresAt
    requires t < a.completion.session.expiresAt && t < a.completion.now + 604_800_000
    ensures Perform(w.db, a).outcome == Done
    ensures var c := a.completion;
      c.session.id in FindSession(Perform(w.db, a).db, c.session.token, t, t - SESSION_IDLE_TIMEOUT_MS)
  {
    hide Perform, FindSession, Guarded;
    var c := a.completion;
    assert c.session.id in NewIds(a) && c.session.token in NewHashes(a) && c.eventId in NewIds(a);
    SignsIn(w.db, a.challenge, c);
    hide Constraints, Used, SessionFits;
    FindsSession(Perform(w.db, a).db, c.session.token, t, t - SESSION_IDLE_TIMEOUT_MS, c.session.id);
  }

  lemma LoginStays(ws: seq<World>, acts: seq<Action>, i: nat, j: nat)
    requires Trace(ws, acts) && i < j <= |acts| && acts[i].IssueAuth? && acts[i].now < acts[i].c.expiresAt
    requires forall x {:trigger acts[x]} :: i < x < j ==> !Uses(acts[x], acts[i].c.id, None)
    requires ws[j].clock < acts[i].c.expiresAt + 86_400_000
    ensures Perform(ws[i].db, acts[i]).outcome == Done
    ensures var c := acts[i].c;
      c.id in ws[j].db.challenges && ws[j].db.challenges[c.id] == Challenge(None, None, Authentication, c.hash, c.expiresAt, None, acts[i].now)
  {
    hide Base, Next, Uses, Perform, Allowed;
    StepAt(ws, acts, i);
    BaseAlong(ws, acts, i);
    LoginAskWorks(ws[i], acts[i]);
    NextDb(ws[i], acts[i]);
    ChallengeStaysAlong(ws, acts, i + 1, j, acts[i].c.id);
  }

  lemma SignInEnds(ws: seq<World>, acts: seq<Action>, n: nat, p: Id, t: Time)
    requires Trace(ws, acts) && n < |acts| && acts[n].CompleteAuth?
    requires Presented(ws[n].db, p, acts[n].completion)
    requires ws[n].db.passkeys[p].createdAt <= acts[n].completion.now < acts[n].completion.session.expiresAt
    requires t < acts[n].completion.session.expiresAt && t < acts[n].completion.now + 604_800_000
    ensures Perform(ws[n].db, acts[n]).outcome == Done
    ensures var s := acts[n].completion.session; s.id in FindSession(ws[n + 1].db, s.token, t, t - SESSION_IDLE_TIMEOUT_MS)
  {
    hide Base, Next, Perform, Allowed, FindSession, Presented;
    StepAt(ws, acts, n);
    BaseAlong(ws, acts, n);
    SignInWorks(ws[n], acts[n], p, t);
    NextDb(ws[n], acts[n]);
  }

  // The steps i, j and n of the run are one user's sign-in.
  predicate SignsInBy(acts: seq<Action>, c: NewChallenge, asked: Time, answered: Time, a: Completion, i: nat, j: nat, n: nat)
    requires i < j < n < |acts|
  {
    && acts[i..i + 1] == [IssueAuth(c, asked)]
    && acts[j..j + 1] == [ConsumeAuth(c.id, a.credential, answered)]
    && acts[n..n + 1] == [CompleteAuth(c.id, a)]
  }

  // A passkey of an enabled user signs him in, whatever else happens, as long as nobody uses his challenge
  // first and the passkey is, at the end, as it was read.
  lemma PasskeyLeadsIn(ws: seq<World>, acts: seq<Action>, c: NewChallenge, asked: Time, answered: Time, a: Completion,
                       i: nat, j: nat, n: nat, p: Id, t: Time)
    requires Trace(ws, acts) && i < j < n < |acts| && SignsInBy(acts, c, asked, answered, a, i, j, n)
    requires asked < c.expiresAt && answered < c.expiresAt && a.now < a.session.expiresAt
    requires forall x {:trigger acts[x]} :: i < x < j ==> !Uses(acts[x], c.id, None)
    requires p in ws[j].db.passkeys && ws[j].db.passkeys[p].credential == a.credential && Active(ws[j].db, ws[j].db.passkeys[p].user)
    requires Presented(ws[n].db, p, a) && ws[n].db.passkeys[p].createdAt <= a.now
    requires t < a.session.expiresAt && t < a.now + 604_800_000
    ensures Perform(ws[i].db, IssueAuth(c, asked)).outcome == Done
    ensures Perform(ws[j].db, ConsumeAuth(c.id, a.credential, answered)).outcome == Done
    ensures Perform(ws[n].db, CompleteAuth(c.id, a)).outcome == Done
    ensures a.session.id in FindSession(ws[n + 1].db, a.session.token, t, t - SESSION_IDLE_TIMEOUT_MS)
  {
    assert acts[i] == acts[i..i + 1][0] && acts[j] == acts[j..j + 1][0] && acts[n] == acts[n..n + 1][0];
    hide Base, Next, Uses, Perform, Allowed, FindSession, Presented, Active;
    StepAt(ws, acts, j);
    Punctual(ws[j], acts[j]);
    LoginStays(ws, acts, i, j);
    ConsumesToSignIn(ws[j].db, c.id, a.credential, answered);
    SignInEnds(ws, acts, n, p, t);
  }
}
