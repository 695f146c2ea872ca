/** Concrete runs, from the empty database, in which a refused batch is not a no-op, and one in which a
    cleanup shows. */
module Mishaps {
  import opened Schema
  import opened Atomic
  import opened Retention
  import opened Protocol
  import opened History
  import opened Runs

  // ----- Building runs step by step -----

  lemma Continue(w: World, a: Action)
    requires Reachable(w) && Allowed(w, a)
    ensures Reachable(Next(w, a))
  {
    hide Next, Allowed;
    var ws, acts :| Trace(ws, acts) && ws[|acts|] == w;
    Extend(ws, acts, a);
    assert Trace(ws + [Next(w, a)], acts + [a]);
  }

  // What later steps need of a world: its tables, its clock, and that nothing from `top` on has been drawn.
  ghost predicate Is(w: World, db: Db, clock: Time, top: nat) {
    && Reachable(w) && w.db == db && w.clock == clock
    && (forall x :: x in w.usedIds ==> x < top) && (forall h :: h in w.usedHashes ==> h < top)
  }

  // The step takes one database to the other at that time, drawing numbers from `top` up to `next`.
  ghost predicate Leads(db: Db, clock: Time, top: nat, a: Action, after: Db, next: nat) {
    && !a.Tick? && Timely(clock, a) && CounterVerified(a) && Perform(db, a).db == after && top <= next
    && (forall x :: x in NewIds(a) ==> top <= x < next) && (forall h :: h in NewHashes(a) ==> top <= h < next)
  }

  lemma Onward(w: World, db: Db, clock: Time, top: nat, a: Action, after: Db, next: nat) returns (v: World)
    requires Is(w, db, clock, top) && Leads(db, clock, top, a, after, next)
    requires a.CompleteAuth? ==> a.challenge in w.tickets
    ensures Allowed(w, a) && v == Next(w, a) && Is(v, after, clock, next)
    ensures a.ConsumeAuth? && Perform(db, a).outcome == Done ==> a.challenge in v.tickets
  {
    hide Perform, Reachable, NewIds, NewHashes, Record;
    Continue(w, a);
    v := Next(w, a);
  }

  lemma Wait(w: World, db: Db, clock: Time, top: nat, time: Time) returns (v: World)
    requires Is(w, db, clock, top) && clock <= time
    ensures Is(v, db, time, top)
  {
    hide Reachable, Record;
    Continue(w, Tick(time));
    v := Next(w, Tick(time));
  }

  lemma Start() returns (w: World)
    ensures Is(w, EMPTY, 0, 0)
  {
    assert Trace([GENESIS], []);
    w := GENESIS;
  }

  // ----- A first administrator signs up -----

  const FAR := 100_000_000   // an expiry well past the steps below

  const ADA := User("ada", "ada@example.org", true, None, 1000)
  const ADA_LINK := Link(1, None, Enrollment, 2, FAR, None, None, 1000)
  const ADA_EVENT := Audit(Some(1), None, OperatorEnrollment, 1000)
  const SET_UP := Bootstrap(NewUser(1, "ada", "ada@example.org", true), NewLink(2, 2, FAR), 3, 1000)
  const BOOTED := EMPTY.(users := map[1 := ADA], links := map[2 := ADA_LINK], audits := map[3 := ADA_EVENT])

  lemma SetUpStep()
    ensures Leads(EMPTY, 1000, 0, SET_UP, BOOTED, 4)
  {}

  lemma Boot() returns (w: World)
    ensures Is(w, BOOTED, 1000, 4)
  {
    hide Leads, Is, Perform, Allowed, Next;
    w := Start();
    w := Wait(w, EMPTY, 0, 0, 1000);
    SetUpStep();
    w := Onward(w, EMPTY, 1000, 0, SET_UP, BOOTED, 4);
  }

  // Two browsers ask for a challenge on the same link, and both answer it in the same millisecond.
  const FIRST_CHALLENGE := Challenge(Some(1), Some(2), Enrollment, 4, 301_000, None, 1000)
  const OTHER_CHALLENGE := Challenge(Some(1), Some(2), Enrollment, 5, 301_000, None, 1000)
  const ASKED := BOOTED.(challenges := map[4 := FIRST_CHALLENGE])
  const ASKED_TWICE := BOOTED.(challenges := map[4 := FIRST_CHALLENGE, 5 := OTHER_CHALLENGE])
  const ANSWERED := BOOTED.(challenges := map[4 := FIRST_CHALLENGE.(consumedAt := Some(5000)), 5 := OTHER_CHALLENGE])
  const SPENT := map[4 := FIRST_CHALLENGE.(consumedAt := Some(5000)), 5 := OTHER_CHALLENGE.(consumedAt := Some(5000))]
  const ANSWERED_TWICE := BOOTED.(challenges := SPENT)

  const ONE := Registration(2, 1, Enrollment, ByToken(2), NewPasskey(6, 6, 0, false), Some(NewSession(7, 7, FAR)), 8, 5000)
  const TWO := Registration(2, 1, Enrollment, ByToken(2), NewPasskey(9, 9, 0, false), Some(NewSession(10, 10, FAR)), 11, 5000)

  const SIGNED := ANSWERED_TWICE.(
    links := map[2 := ADA_LINK.(consumedAt := Some(5000))],
    passkeys := map[6 := Passkey(1, 6, 0, false, None, 5000, 5000)],
    sessions := map[7 := Session(1, 7, FAR, 5000, None, 5000)],
    audits := map[3 := ADA_EVENT, 8 := Audit(Some(1), Some(1), PasskeyRegistered, 5000)])

  lemma AskSteps()
    ensures Leads(BOOTED, 1000, 4, IssueAccess(2, NewChallenge(4, 4, 301_000), 1000), ASKED, 5)
    ensures Leads(ASKED, 1000, 5, IssueAccess(2, NewChallenge(5, 5, 301_000), 1000), ASKED_TWICE, 6)
  {}

  lemma AnswerSteps()
    ensures Leads(ASKED_TWICE, 5000, 6, ConsumeReg(4, ByToken(2), 5000), ANSWERED, 6)
    ensures Leads(ANSWERED, 5000, 6, ConsumeReg(5, ByToken(2), 5000), ANSWERED_TWICE, 6)
  {}

  lemma SignUpStep()
    ensures Leads(ANSWERED_TWICE, 5000, 6, CompleteReg(ONE), SIGNED, 9)
  {
    Registers();
    hide CompleteRegistration;
  }

  lemma Registers()
    ensures CompleteRegistration(ANSWERED_TWICE, ONE).db == SIGNED
  {
    hide RevokeSessions;
  }

  lemma SignUp() returns (w: World)
    ensures Is(w, SIGNED, 5000, 9)
  {
    hide Leads, Is, Perform, Allowed, Next;
    w := Boot();
    AskSteps();
    w := Onward(w, BOOTED, 1000, 4, IssueAccess(2, NewChallenge(4, 4, 301_000), 1000), ASKED, 5);
    w := Onward(w, ASKED, 1000, 5, IssueAccess(2, NewChallenge(5, 5, 301_000), 1000), ASKED_TWICE, 6);
    w := Wait(w, ASKED_TWICE, 1000, 6, 5000);
    AnswerSteps();
    w := Onward(w, ASKED_TWICE, 5000, 6, ConsumeReg(4, ByToken(2), 5000), ANSWERED, 6);
    w := Onward(w, ANSWERED, 5000, 6, ConsumeReg(5, ByToken(2), 5000), ANSWERED_TWICE, 6);
    SignUpStep();
    w := Onward(w, ANSWERED_TWICE, 5000, 6, CompleteReg(ONE), SIGNED, 9);
  }

  // ----- The second completion of the link -----

  lemma OrphanStep()
    ensures var after := CompleteRegistration(SIGNED, TWO);
      && after.outcome == AccessLinkInvalid && after.db == SIGNED.(sessions := SIGNED.sessions[10 := Session(1, 10, FAR, 5000, None, 5000)])
  {}

  lemma OrphanLeads()
    ensures Leads(SIGNED, 5000, 9, CompleteReg(TWO), SIGNED.(sessions := SIGNED.sessions[10 := Session(1, 10, FAR, 5000, None, 5000)]), 12)
    ensures Perform(SIGNED, CompleteReg(TWO)).outcome == AccessLinkInvalid
  {
    OrphanStep();
    hide CompleteRegistration;
  }

  // It is told that the link is invalid, and leaves a working session behind.
  lemma OrphanSession() returns (w: World)
    ensures Reachable(w) && Allowed(w, CompleteReg(TWO))
    ensures var after := Perform(w.db, CompleteReg(TWO));
      && after.outcome == AccessLinkInvalid && after.db.passkeys == w.db.passkeys
      && FindSession(w.db, 10, 5000, 0) == {} && FindSession(after.db, 10, 5000, 0) == {10}
  {
    hide Reachable, Perform, Allowed, Next, Leads;
    w := SignUp();
    OrphanLeads();
    var more := SIGNED.(sessions := SIGNED.sessions[10 := Session(1, 10, FAR, 5000, None, 5000)]);
    var v := Onward(w, SIGNED, 5000, 9, CompleteReg(TWO), more, 12);
    SameOutcome(w, SIGNED, more, CompleteReg(TWO), 5000, 9, 12);
  }

  lemma SameOutcome(w: World, db: Db, after: Db, a: Action, clock: Time, top: nat, next: nat)
    requires Is(w, db, clock, top) && Leads(db, clock, top, a, after, next)
    ensures w.db == db && Perform(w.db, a).db == after
  {}

  // ----- Two passkeys deleted at once, while one of them signs in -----

  const OWN_LINK := Link(1, Some(1), Enrollment, 9, FAR, None, None, 9000)
  const OWN_CHALLENGE := Challenge(Some(1), Some(9), Enrollment, 10, 309_000, None, 9000)
  const ADD_KEY := IssueRegistration(1, NewLink(9, 9, FAR), NewChallenge(10, 10, 309_000), 9000)
  const SECOND := Registration(9, 1, Enrollment, ByUser(1), NewPasskey(11, 11, 0, false), None, 12, 12_000)

  const ADDING := SIGNED.(links := SIGNED.links[9 := OWN_LINK], challenges := SPENT[10 := OWN_CHALLENGE])
  const ADDED := ADDING.(challenges := SPENT[10 := OWN_CHALLENGE.(consumedAt := Some(12_000))])
  const TWO_KEYS := ADDED.(
    links := SIGNED.links[9 := OWN_LINK.(consumedAt := Some(12_000))],
    passkeys := SIGNED.passkeys[11 := Passkey(1, 11, 0, false, None, 12_000, 12_000)],
    audits := SIGNED.audits[12 := Audit(Some(1), Some(1), PasskeyRegistered, 12_000)])

  const LOGIN := Challenge(None, None, Authentication, 13, 319_000, None, 19_000)
  const SIGN_IN := Completion(1, 6, 0, 1, false, NewSession(14, 14, FAR), 15, 20_000)
  const WAITING := TWO_KEYS.(challenges := TWO_KEYS.challenges[13 := LOGIN])
  const TICKETED := TWO_KEYS.(challenges := TWO_KEYS.challenges[13 := LOGIN.(consumedAt := Some(20_000))])
  const USED_KEY := TICKETED.(
    passkeys := TWO_KEYS.passkeys[6 := Passkey(1, 6, 1, false, Some(20_000), 5000, 20_000)],
    sessions := SIGNED.sessions[14 := Session(1, 14, FAR, 20_000, None, 20_000)],
    audits := TWO_KEYS.audits[15 := Audit(Some(1), Some(1), AuthenticationSucceeded, 20_000)])
  const ONE_KEY := USED_KEY.(
    passkeys := map[6 := Passkey(1, 6, 1, false, Some(20_000), 5000, 20_000)],
    audits := USED_KEY.audits[16 := Audit(Some(1), Some(1), PasskeyDeleted, 20_000)])

  lemma AddingStep()
    ensures Leads(SIGNED, 9000, 9, ADD_KEY, ADDING, 11)
  {
    assert IssueRegistrationChallenge(SIGNED, 1, ADD_KEY.l, ADD_KEY.c, 9000).db == ADDING;
    hide IssueRegistrationChallenge;
  }

  lemma AddingAnswer()
    ensures Leads(ADDING, 12_000, 11, ConsumeReg(10, ByUser(1), 12_000), ADDED, 11)
  {
    assert RegistrationConsumable(ADDING, 10, ByUser(1), 12_000);
    hide RegistrationConsumable;
  }

  lemma AddedStep()
    ensures Leads(ADDED, 12_000, 11, CompleteReg(SECOND), TWO_KEYS, 13)
  {
    RegistersSecond();
    hide CompleteRegistration;
  }

  lemma RegistersSecond()
    ensures CompleteRegistration(ADDED, SECOND).db == TWO_KEYS
  {
    hide PasskeyClash, Redeem, RefusedRegistration;
    SecondRedeems();
    NoClash(ADDED.passkeys, 11);
  }

  lemma SecondRedeems()
    ensures Redeemable(ADDED, SECOND) && Redeem(ADDED, SECOND) == TWO_KEYS
  {
    hide RevokeSessions;
  }

  lemma NoClash(passkeys: map<Id, Passkey>, n: Id)
    requires forall p :: p in passkeys ==> p < n && passkeys[p].credential < n
    ensures !PasskeyClash(passkeys, n, n)
  {}

  lemma LoginAsked()
    ensures Leads(TWO_KEYS, 19_000, 13, IssueAuth(NewChallenge(13, 13, 319_000), 19_000), WAITING, 14)
  {}

  lemma LoginAnswered()
    ensures Leads(WAITING, 20_000, 14, ConsumeAuth(13, 6, 20_000), TICKETED, 14)
    ensures Perform(WAITING, ConsumeAuth(13, 6, 20_000)).outcome == Done
  {
    hide ConsumeAuthentication;
    ConsumesLogin();
  }

  lemma ConsumesLogin()
    ensures ConsumeAuthentication(WAITING, 13, 6, 20_000) == Step(TICKETED, Done)
  {
    assert 6 in PasskeysOf(WAITING.users, WAITING.passkeys, 6);
    assert Consumable(WAITING, 13, 6, 20_000);
    hide Consumable;
  }

  lemma SignInStep()
    ensures Leads(TICKETED, 20_000, 14, CompleteAuth(13, SIGN_IN), USED_KEY, 16)
  {
    SignsIn();
    hide CompleteAuthentication;
  }

  lemma SignsIn()
    ensures CompleteAuthentication(TICKETED, SIGN_IN).db == USED_KEY
  {
    Hits();
    hide CounterHits, Advance;
  }

  lemma Hits()
    ensures CounterHits(TICKETED.users, TICKETED.passkeys, SIGN_IN) == {6}
    ensures Advance(TICKETED.passkeys, {6}, SIGN_IN) == USED_KEY.passkeys
  {
    assert forall p :: p in TICKETED.passkeys <==> p == 6 || p == 11;
    assert Enabled(TICKETED.users, 1);
    assert 6 in CounterHits(TICKETED.users, TICKETED.passkeys, SIGN_IN);
  }

  lemma FirstDrop()
    ensures Leads(USED_KEY, 20_000, 16, DropPasskey(1, 11, 16, 20_000), ONE_KEY, 17)
    ensures Perform(USED_KEY, DropPasskey(1, 11, 16, 20_000)).outcome == Done
  {
    hide DeletePasskey;
    Drops();
  }

  lemma Drops()
    ensures DeletePasskey(USED_KEY, 1, 11, 16, 20_000) == Step(ONE_KEY, Done)
    ensures DeletePasskey(ONE_KEY, 1, 6, 17, 20_000) == Step(ONE_KEY.(passkeys := map[]), InvariantError)
  {
    Remaining();
    hide OtherPasskey;
  }

  lemma Remaining()
    ensures OtherPasskey(USED_KEY.passkeys, 1, 11) && USED_KEY.passkeys - {11} == ONE_KEY.passkeys
    ensures !OtherPasskey(ONE_KEY.passkeys, 1, 6) && ONE_KEY.passkeys - {6} == map[]
  {
    assert 6 in USED_KEY.passkeys;
  }

  lemma LastDrop()
    ensures Leads(ONE_KEY, 20_000, 17, DropPasskey(1, 6, 17, 20_000), ONE_KEY.(passkeys := map[]), 18)
    ensures Perform(ONE_KEY, DropPasskey(1, 6, 17, 20_000)).outcome == InvariantError
  {
    hide DeletePasskey;
    Drops();
  }

  lemma SignInAgain() returns (w: World)
    ensures Is(w, USED_KEY, 20_000, 16)
  {
    hide Leads, Is, Perform, Allowed, Next;
    w := SignUp();
    AddingStep();
    AddingAnswer();
    w := Wait(w, SIGNED, 5000, 9, 9000);
    w := Onward(w, SIGNED, 9000, 9, ADD_KEY, ADDING, 11);
    w := Wait(w, ADDING, 9000, 11, 12_000);
    w := Onward(w, ADDING, 12_000, 11, ConsumeReg(10, ByUser(1), 12_000), ADDED, 11);
    AddedStep();
    w := Onward(w, ADDED, 12_000, 11, CompleteReg(SECOND), TWO_KEYS, 13);
    LoginAsked();
    LoginAnswered();
    w := Wait(w, TWO_KEYS, 12_000, 13, 19_000);
    w := Onward(w, TWO_KEYS, 19_000, 13, IssueAuth(NewChallenge(13, 13, 319_000), 19_000), WAITING, 14);
    w := Wait(w, WAITING, 19_000, 14, 20_000);
    w := Onward(w, WAITING, 20_000, 14, ConsumeAuth(13, 6, 20_000), TICKETED, 14);
    SignInStep();
    w := Onward(w, TICKETED, 20_000, 14, CompleteAuth(13, SIGN_IN), USED_KEY, 16);
  }

  // Both deletes count two passkeys; one of the two has just signed in.  The first delete succeeds; the
  // second, refused by its guard, reports an invariant error and yet takes the last passkey away.
  lemma LastPasskeyGone() returns (w: World, v: World)
    ensures Reachable(w) && (set p | p in w.db.passkeys && w.db.passkeys[p].user == 1) == {6, 11}
    ensures Allowed(w, DropPasskey(1, 11, 16, 20_000)) && Perform(w.db, DropPasskey(1, 11, 16, 20_000)).outcome == Done
    ensures Reachable(v) && v == Next(w, DropPasskey(1, 11, 16, 20_000))
    ensures var a := DropPasskey(1, 6, 17, 20_000);
      Allowed(v, a) && Perform(v.db, a).outcome == InvariantError && Perform(v.db, a).db.passkeys == map[]
  {
    hide Reachable, Perform, Allowed, Next, Leads;
    w := SignInAgain();
    FirstDrop();
    LastDrop();
    v := Onward(w, USED_KEY, 20_000, 16, DropPasskey(1, 11, 16, 20_000), ONE_KEY, 17);
    var u := Onward(v, ONE_KEY, 20_000, 17, DropPasskey(1, 6, 17, 20_000), ONE_KEY.(passkeys := map[]), 18);
    SameOutcome(v, ONE_KEY, ONE_KEY.(passkeys := map[]), DropPasskey(1, 6, 17, 20_000), 20_000, 17, 18);
  }

  // ----- Two administrators lock each other out -----

  const BOB := User("bob", "bob@example.org", true, None, 9000)
  const BOB_LINK := Link(9, Some(1), Enrollment, 10, FAR, None, None, 9000)
  const BOB_CHALLENGE := Challenge(Some(9), Some(10), Enrollment, 12, 309_000, None, 9000)
  const INVITE := Enroll(1, NewUser(9, "bob", "bob@example.org", true), NewLink(10, 10, FAR), 11, 9000)
  const JOIN := Registration(10, 9, Enrollment, ByToken(10), NewPasskey(13, 13, 0, false), Some(NewSession(14, 14, FAR)), 15, 12_000)

  const INVITED := SIGNED.(
    users := map[1 := ADA, 9 := BOB],
    links := SIGNED.links[10 := BOB_LINK],
    audits := SIGNED.audits[11 := Audit(Some(9), Some(1), EnrollmentCreated, 9000)])
  const OPENED := INVITED.(challenges := SPENT[12 := BOB_CHALLENGE])
  const REPLIED := INVITED.(challenges := SPENT[12 := BOB_CHALLENGE.(consumedAt := Some(12_000))])
  const JOINED := REPLIED.(
    links := SIGNED.links[10 := BOB_LINK.(consumedAt := Some(12_000))],
    passkeys := SIGNED.passkeys[13 := Passkey(9, 13, 0, false, None, 12_000, 12_000)],
    sessions := SIGNED.sessions[14 := Session(9, 14, FAR, 12_000, None, 12_000)],
    audits := INVITED.audits[15 := Audit(Some(9), Some(9), PasskeyRegistered, 12_000)])
  const LOCKED := JOINED.(
    users := map[1 := ADA, 9 := BOB.(disabledAt := Some(20_000))],
    sessions := SIGNED.sessions[14 := Session(9, 14, FAR, 12_000, Some(20_000), 12_000)],
    audits := JOINED.audits[16 := Audit(Some(9), Some(1), Disabled, 20_000)])
  const EMPTIED := LOCKED.(
    sessions := map[7 := Session(1, 7, FAR, 5000, Some(20_000), 5000), 14 := Session(9, 14, FAR, 12_000, Some(20_000), 12_000)])

  lemma InviteStep()
    ensures Leads(SIGNED, 9000, 9, INVITE, INVITED, 12)
  {
    BobIsInvited();
    hide CreateEnrollmentLink;
  }

  lemma BobIsInvited()
    ensures CreateEnrollmentLink(SIGNED, 1, INVITE.u, INVITE.l, 11, 9000).db == INVITED
  {}

  lemma OpenStep()
    ensures Leads(INVITED, 9000, 12, IssueAccess(10, NewChallenge(12, 12, 309_000), 9000), OPENED, 13)
  {
    hide IssueAccessChallenge;
    IssuesOpen();
  }

  lemma IssuesOpen()
    ensures IssueAccessChallenge(INVITED, 10, NewChallenge(12, 12, 309_000), 9000).db == OPENED
  {}

  lemma ReplyStep()
    ensures Leads(OPENED, 12_000, 13, ConsumeReg(12, ByToken(10), 12_000), REPLIED, 13)
  {
    hide ConsumeRegistration;
    ConsumesReply();
  }

  lemma ConsumesReply()
    ensures ConsumeRegistration(OPENED, 12, ByToken(10), 12_000).db == REPLIED
  {
    assert RegistrationConsumable(OPENED, 12, ByToken(10), 12_000);
    hide RegistrationConsumable;
  }

  lemma JoinStep()
    ensures Leads(REPLIED, 12_000, 13, CompleteReg(JOIN), JOINED, 16)
  {
    BobJoins();
    hide CompleteRegistration;
  }

  lemma BobJoins()
    ensures CompleteRegistration(REPLIED, JOIN).db == JOINED
  {
    hide RevokeSessions, PasskeyClash, SessionFails, Redeem;
    RedeemsJoin();
    assert !PasskeyClash(REPLIED.passkeys, 13, 13) by { NoClash(REPLIED.passkeys, 13); }
    assert !SessionFails(REPLIED.sessions, JOIN.session.value, 12_000) by { NoFailure(REPLIED.sessions, JOIN.session.value, 12_000); }
  }

  lemma RedeemsJoin()
    ensures Redeem(REPLIED, JOIN) == JOINED
  {
    hide RevokeSessions;
  }

  lemma NoFailure(sessions: map<Id, Session>, s: NewSession, now: Time)
    requires forall x :: x in sessions ==> x < s.id && sessions[x].token < s.token
    requires now < s.expiresAt
    ensures !SessionFails(sessions, s, now)
  {}

  lemma LockStep()
    ensures Leads(JOINED, 20_000, 16, Lock(1, 9, 16, 20_000), LOCKED, 17)
  {
    AdaLocksBob();
    hide Disable;
  }

  lemma AdaLocksBob()
    ensures Disable(JOINED, 1, 9, 16, 20_000).db == LOCKED
  {
    BobIsRevoked();
    hide RevokeSessions, RevokeLinks;
    assert ActiveAdmin(JOINED.users, 1);
  }

  lemma BobIsRevoked()
    ensures RevokeSessions(JOINED.sessions, 9, 20_000) == LOCKED.sessions
    ensures RevokeLinks(JOINED.links, 9, 20_000) == JOINED.links
  {}

  lemma LockBackStep()
    ensures Leads(LOCKED, 20_000, 17, Lock(9, 1, 17, 20_000), EMPTIED, 18)
    ensures Perform(LOCKED, Lock(9, 1, 17, 20_000)).outcome == Conflict
  {
    BobLocksAda();
    hide Disable;
  }

  lemma BobLocksAda()
    ensures Disable(LOCKED, 9, 1, 17, 20_000) == Step(EMPTIED, Conflict)
  {
    AdaIsRevoked();
    hide RevokeSessions, RevokeLinks;
  }

  lemma AdaIsRevoked()
    ensures RevokeSessions(LOCKED.sessions, 1, 20_000) == EMPTIED.sessions
    ensures RevokeLinks(LOCKED.links, 1, 20_000) == LOCKED.links
  {}

  lemma Duel() returns (w: World)
    ensures Is(w, LOCKED, 20_000, 17)
  {
    hide Leads, Is, Perform, Allowed, Next;
    w := SignUp();
    w := Wait(w, SIGNED, 5000, 9, 9000);
    InviteStep();
    w := Onward(w, SIGNED, 9000, 9, INVITE, INVITED, 12);
    OpenStep();
    w := Onward(w, INVITED, 9000, 12, IssueAccess(10, NewChallenge(12, 12, 309_000), 9000), OPENED, 13);
    w := Wait(w, OPENED, 9000, 13, 12_000);
    ReplyStep();
    w := Onward(w, OPENED, 12_000, 13, ConsumeReg(12, ByToken(10), 12_000), REPLIED, 13);
    JoinStep();
    w := Onward(w, REPLIED, 12_000, 13, CompleteReg(JOIN), JOINED, 16);
    w := Wait(w, JOINED, 12_000, 16, 20_000);
    LockStep();
    w := Onward(w, JOINED, 20_000, 16, Lock(1, 9, 16, 20_000), LOCKED, 17);
  }

  // The loser's request is refused, and yet it signs the surviving administrator out: nobody is left signed in.
  lemma NobodySignedIn() returns (w: World)
    ensures Reachable(w) && Allowed(w, Lock(9, 1, 17, 20_000))
    ensures exists s :: s in w.db.sessions && w.db.sessions[s].user == 1 && w.db.sessions[s].revokedAt.None?
    ensures var after := Perform(w.db, Lock(9, 1, 17, 20_000));
      && after.outcome == Conflict && ActiveAdmin(after.db.users, 1)
      && forall s :: s in after.db.sessions ==> after.db.sessions[s].revokedAt.Some?
  {
    hide Reachable, Perform, Allowed, Next, Leads;
    w := Duel();
    LockBackStep();
    var v := Onward(w, LOCKED, 20_000, 17, Lock(9, 1, 17, 20_000), EMPTIED, 18);
    SameOutcome(w, LOCKED, EMPTIED, Lock(9, 1, 17, 20_000), 20_000, 17, 18);
    assert 7 in w.db.sessions;
  }

  // ----- The one answer that a cleanup changes -----

  const MUCH_LATER := FAR + 31 * DAY_MS

  lemma StaleGoes()
    ensures 2 !in Cleanup(BOOTED, CutoffsAt(MUCH_LATER), AUTH_CLEANUP_BATCH_SIZE).links
  {
    hide Oldest;
    hide CleanSessions, CleanAudits, CleanLinks, CleanChallenges;
    var cut := CutoffsAt(MUCH_LATER).link;
    var ch := CleanChallenges(BOOTED.challenges, CutoffsAt(MUCH_LATER).challenge, AUTH_CLEANUP_BATCH_SIZE);
    ChallengesShrink(BOOTED.challenges, CutoffsAt(MUCH_LATER).challenge, AUTH_CLEANUP_BATCH_SIZE);
    assert ch == map[];
    StaleLinkGoes(cut);
  }

  lemma StaleLinkGoes(cut: Time)
    requires FAR <= cut
    ensures 2 !in CleanLinks(BOOTED.links, map[], cut, AUTH_CLEANUP_BATCH_SIZE)
  {
    hide Oldest;
    assert ConsumedLinks(BOOTED.links, map[], cut) == map[];
    assert BOOTED.links - Oldest(map[], AUTH_CLEANUP_BATCH_SIZE) == BOOTED.links;
    assert RevokedLinks(BOOTED.links, map[], cut) == map[];
    assert ExpiredLinks(BOOTED.links, map[], cut) == map[2 := FAR];
    AllTaken(map[2 := FAR], AUTH_CLEANUP_BATCH_SIZE);
  }

  lemma AllTaken(rows: map<Id, Time>, n: nat)
    requires |rows| <= n
    ensures Oldest(rows, n) == rows.Keys
  {
    hide Oldest;
    var rest := rows.Keys - Oldest(rows, n);
    assert rows.Keys == Oldest(rows, n) + rest;
  }

  lemma StaleSteps()
    ensures Leads(BOOTED, MUCH_LATER, 4, Clean(MUCH_LATER), Cleanup(BOOTED, CutoffsAt(MUCH_LATER), AUTH_CLEANUP_BATCH_SIZE), 4)
    ensures Perform(BOOTED, EndLink(1, 2, 4, MUCH_LATER)).outcome == Done
    ensures Perform(Cleanup(BOOTED, CutoffsAt(MUCH_LATER), AUTH_CLEANUP_BATCH_SIZE), EndLink(1, 2, 4, MUCH_LATER)).outcome == NotFound
  {
    hide Cleanup;
    StaleGoes();
  }

  lemma StaleAllowed(w: World, db: Db)
    requires Is(w, db, MUCH_LATER, 4)
    ensures Allowed(w, EndLink(1, 2, 4, MUCH_LATER))
  {
    hide Reachable;
  }

  // The sign-up link was never used.  A month after its expiry it can still be revoked; a cleanup later it
  // is not found.
  lemma OneAnswerChanges() returns (w: World)
    ensures Reachable(w) && Allowed(w, Clean(MUCH_LATER)) && Allowed(w, EndLink(1, 2, 4, MUCH_LATER))
    ensures Allowed(Next(w, Clean(MUCH_LATER)), EndLink(1, 2, 4, MUCH_LATER))
    ensures Perform(w.db, EndLink(1, 2, 4, MUCH_LATER)).outcome == Done
    ensures Perform(Next(w, Clean(MUCH_LATER)).db, EndLink(1, 2, 4, MUCH_LATER)).outcome == NotFound
  {
    hide Reachable, Perform, Allowed, Next, Leads, Cleanup;
    w := Boot();
    w := Wait(w, BOOTED, 1000, 4, MUCH_LATER);
    StaleSteps();
    var cleaned := Cleanup(BOOTED, CutoffsAt(MUCH_LATER), AUTH_CLEANUP_BATCH_SIZE);
    var v := Onward(w, BOOTED, MUCH_LATER, 4, Clean(MUCH_LATER), cleaned, 4);
    StaleAllowed(w, BOOTED);
    StaleAllowed(v, cleaned);
  }
}
