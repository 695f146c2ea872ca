/** Step by step: alike databases give the same answers and stay alike. */
module Bisimulation {
  import opened Schema
  import opened Atomic
  import opened Retention
  import opened Protocol
  import opened History
  import opened Invisible
  import opened Runs

  // None of the ids and hashes occurs in the tables.
  ghost predicate Unused(db: Db, ids: set<Id>, hashes: set<Hash>) {
    && ids !! db.users.Keys && ids !! db.passkeys.Keys && ids !! db.sessions.Keys && ids !! db.links.Keys
    && ids !! db.challenges.Keys && ids !! db.tokens.Keys && ids !! db.audits.Keys
    && (forall s :: s in db.sessions ==> db.sessions[s].token !in hashes)
    && (forall l :: l in db.links ==> db.links[l].token !in hashes)
    && (forall c :: c in db.challenges ==> db.challenges[c].hash !in hashes)
  }

  ghost predicate Related(a: Db, b: Db, act: Action, h: Time) {
    Alike(a, b, h) && Unused(a, NewIds(act), NewHashes(act)) && Unused(b, NewIds(act), NewHashes(act))
  }

  ghost predicate StillAlike(a: Db, b: Db, act: Action, h: Time) {
    Alike(Perform(a, act).db, Perform(b, act).db, h) && Perform(a, act).outcome == Perform(b, act).outcome
  }

  lemma AlikeSymmetric(a: Db, b: Db, h: Time)
    requires Alike(a, b, h)
    ensures Alike(b, a, h)
  {
    hide LiveSessions, LiveChallenges, LiveLinks;
  }

  lemma SameUsable(a: Db, b: Db, h: Time, l: Id, now: Time)
    requires Alike(a, b, h) && h <= now && l in a.links && Usable(a.links[l], now)
    ensures l in b.links && b.links[l] == a.links[l]
  {
    SameLink(a.links, b.links, h, l);
  }

  // ----- The same row written to both -----

  lemma PutAlikeS(s: map<Id, Session>, t: map<Id, Session>, h: Time, x: Id, row: Session)
    requires AlikeS(s, t, h)
    ensures AlikeS(s[x := row], t[x := row], h)
  {
    hide LiveSessions;
    PutSession(s, h, x, row);
    PutSession(t, h, x, row);
  }

  lemma PutAlikeL(s: map<Id, Link>, t: map<Id, Link>, h: Time, x: Id, row: Link)
    requires AlikeL(s, t, h)
    ensures AlikeL(s[x := row], t[x := row], h)
  {
    hide LiveLinks;
    PutLink(s, h, x, row);
    PutLink(t, h, x, row);
  }

  lemma PutAlikeC(s: map<Id, Challenge>, t: map<Id, Challenge>, h: Time, x: Id, row: Challenge)
    requires AlikeC(s, t, h)
    ensures AlikeC(s[x := row], t[x := row], h)
  {
    hide LiveChallenges;
    PutChallenge(s, h, x, row);
    PutChallenge(t, h, x, row);
  }

  lemma RevokeAlike(a: Db, b: Db, h: Time, user: Id, now: Time)
    requires AlikeS(a.sessions, b.sessions, h) && AlikeL(a.links, b.links, h)
    ensures AlikeS(RevokeSessions(a.sessions, user, now), RevokeSessions(b.sessions, user, now), h)
    ensures AlikeL(RevokeLinks(a.links, user, now), RevokeLinks(b.links, user, now), h)
  {
    RevokeUser(a.sessions, h, user, now);
    RevokeUser(b.sessions, h, user, now);
    RevokeUserLinks(a.links, h, user, now);
    RevokeUserLinks(b.links, h, user, now);
  }

  // ----- Freshly drawn keys never clash -----

  lemma NoChallengeClash(db: Db, ids: set<Id>, hashes: set<Hash>, c: NewChallenge, now: Time)
    requires Unused(db, ids, hashes) && c.id in ids && c.hash in hashes
    ensures ChallengeFails(db.challenges, c, now) == (c.expiresAt <= now)
  {}

  lemma NoLinkClash(db: Db, ids: set<Id>, hashes: set<Hash>, l: NewLink, now: Time)
    requires Unused(db, ids, hashes) && l.id in ids && l.token in hashes
    ensures LinkFails(db.links, l, now) == (l.expiresAt <= now)
  {}

  lemma NoSessionClash(db: Db, ids: set<Id>, hashes: set<Hash>, s: NewSession, now: Time)
    requires Unused(db, ids, hashes) && s.id in ids && s.token in hashes
    ensures SessionFails(db.sessions, s, now) == (s.expiresAt <= now)
  {}

  // ----- Ceremonies -----

  lemma IssueAlike(a: Db, b: Db, act: Action, h: Time)
    requires Related(a, b, act, h) && (act.IssueAuth? || act.IssueAccess? || act.IssueRegistration?) && h <= act.now
    ensures StillAlike(a, b, act, h)
  {
    NoChallengeClash(a, NewIds(act), NewHashes(act), act.c, act.now);
    NoChallengeClash(b, NewIds(act), NewHashes(act), act.c, act.now);
    hide AlikeS, AlikeL, AlikeC, ChallengeFails, LinkFails;
    if act.IssueAccess? {
      if Issuable(a, act.link, act.now) { SameUsable(a, b, h, act.link, act.now); }
      if Issuable(b, act.link, act.now) { SameUsable(b, a, h, act.link, act.now); }
    } else if act.IssueRegistration? {
      NoLinkClash(a, NewIds(act), NewHashes(act), act.l, act.now);
      NoLinkClash(b, NewIds(act), NewHashes(act), act.l, act.now);
      var row := Link(act.user, Some(act.user), Enrollment, act.l.token, act.l.expiresAt, None, None, act.now);
      PutAlikeL(a.links, b.links, h, act.l.id, row);
    }
    if Perform(a, act).outcome == Done {
      PutAlikeC(a.challenges, b.challenges, h, act.c.id, Perform(a, act).db.challenges[act.c.id]);
    }
  }

  lemma SameConsumable(a: Db, b: Db, h: Time, c: Id, proof: Proof, now: Time)
    requires Alike(a, b, h) && h <= now && RegistrationConsumable(a, c, proof, now)
    ensures RegistrationConsumable(b, c, proof, now) && b.challenges[c] == a.challenges[c]
  {
    SameChallenge(a.challenges, b.challenges, h, c);
    SameUsable(a, b, h, a.challenges[c].link.value, now);
    hide AlikeS, AlikeL, AlikeC;
  }

  lemma SameAuthConsumable(a: Db, b: Db, h: Time, c: Id, credential: Hash, now: Time)
    requires Alike(a, b, h) && h <= now && Consumable(a, c, credential, now)
    ensures Consumable(b, c, credential, now) && b.challenges[c] == a.challenges[c]
  {
    SameChallenge(a.challenges, b.challenges, h, c);
    hide AlikeS, AlikeL, AlikeC;
  }

  lemma ConsumeAlike(a: Db, b: Db, act: Action, h: Time)
    requires Related(a, b, act, h) && (act.ConsumeAuth? || act.ConsumeReg?) && h <= act.now
    ensures StillAlike(a, b, act, h)
  {
    if act.ConsumeAuth? {
      if Consumable(a, act.challenge, act.credential, act.now) { SameAuthConsumable(a, b, h, act.challenge, act.credential, act.now); }
      if Consumable(b, act.challenge, act.credential, act.now) { SameAuthConsumable(b, a, h, act.challenge, act.credential, act.now); }
    } else {
      if RegistrationConsumable(a, act.challenge, act.proof, act.now) { SameConsumable(a, b, h, act.challenge, act.proof, act.now); }
      if RegistrationConsumable(b, act.challenge, act.proof, act.now) { SameConsumable(b, a, h, act.challenge, act.proof, act.now); }
    }
    hide AlikeS, AlikeL, AlikeC, Consumable, RegistrationConsumable, Unused;
    if Perform(a, act).outcome == Done {
      PutAlikeC(a.challenges, b.challenges, h, act.challenge, Perform(a, act).db.challenges[act.challenge]);
    }
  }

  lemma CompleteAuthAlike(a: Db, b: Db, act: Action, h: Time)
    requires Related(a, b, act, h) && act.CompleteAuth?
    ensures StillAlike(a, b, act, h)
  {
    var c := act.completion;
    NoSessionClash(a, NewIds(act), NewHashes(act), c.session, c.now);
    NoSessionClash(b, NewIds(act), NewHashes(act), c.session, c.now);
    PutAlikeS(a.sessions, b.sessions, h, c.session.id, SessionRow(c.session, c.user, c.now));
    hide AlikeS, AlikeL, AlikeC, CounterHits, Advance, SessionFails;
  }

  lemma SameRedeemable(a: Db, b: Db, h: Time, r: Registration)
    requires Alike(a, b, h) && h < r.now
    ensures Redeemable(a, r) ==> Redeemable(b, r) && b.links[r.link] == a.links[r.link]
    ensures Mistaken(a, r) ==> Mistaken(b, r)
  {
    if Redeemable(a, r) || Mistaken(a, r) { SameLink(a.links, b.links, h, r.link); }
    hide AlikeS, AlikeL, AlikeC;
  }

  lemma RedeemAlike(a: Db, b: Db, r: Registration, h: Time)
    requires Alike(a, b, h) && r.link in a.links && r.link in b.links && a.links[r.link] == b.links[r.link]
    ensures Alike(Redeem(a, r), Redeem(b, r), h)
  {
    hide AlikeS, AlikeL, AlikeC, RevokeSessions;
    PutAlikeL(a.links, b.links, h, r.link, a.links[r.link].(consumedAt := Some(r.now)));
    RevokeAlike(a, b, h, r.user, r.now);
    if r.session.Some? {
      var row := SessionRow(r.session.value, r.user, r.now);
      PutAlikeS(a.sessions, b.sessions, h, r.session.value.id, row);
      PutAlikeS(RevokeSessions(a.sessions, r.user, r.now), RevokeSessions(b.sessions, r.user, r.now), h, r.session.value.id, row);
    }
  }

  lemma RefusedAlike(a: Db, b: Db, r: Registration, h: Time)
    requires Alike(a, b, h) && Mistaken(a, r) == Mistaken(b, r) && r.eventId !in a.audits && r.eventId !in b.audits
    requires r.session.Some? ==> SessionFails(a.sessions, r.session.value, r.now) == SessionFails(b.sessions, r.session.value, r.now)
    ensures Alike(RefusedRegistration(a, r).db, RefusedRegistration(b, r).db, h)
    ensures RefusedRegistration(a, r).outcome == RefusedRegistration(b, r).outcome
  {
    hide AlikeS, AlikeL, AlikeC, Mistaken, SessionFails, Enabled, Owns;
    assert Owns(a.passkeys, r.user, r.passkey.id) == Owns(b.passkeys, r.user, r.passkey.id);
    assert Enabled(a.users, r.user) == Enabled(b.users, r.user);
    if r.session.Some? {
      PutAlikeS(a.sessions, b.sessions, h, r.session.value.id, SessionRow(r.session.value, r.user, r.now));
    }
  }

  lemma CompletesAlike(a: Db, b: Db, r: Registration, h: Time)
    requires Alike(a, b, h) && h < r.now && r.eventId !in a.audits && r.eventId !in b.audits
    requires r.session.Some? ==> SessionFails(a.sessions, r.session.value, r.now) == SessionFails(b.sessions, r.session.value, r.now)
    ensures Alike(CompleteRegistration(a, r).db, CompleteRegistration(b, r).db, h)
    ensures CompleteRegistration(a, r).outcome == CompleteRegistration(b, r).outcome
  {
    AlikeSymmetric(a, b, h);
    hide AlikeS, AlikeL, AlikeC, Mistaken, SessionFails, PasskeyClash, RefusedRegistration, Redeem, Enabled;
    SameRedeemable(a, b, h, r);
    SameRedeemable(b, a, h, r);
    if Redeemable(a, r) {
      RedeemAlike(a, b, r, h);
    } else {
      RefusedAlike(a, b, r, h);
    }
    hide Redeemable;
  }

  lemma CompleteRegAlike(a: Db, b: Db, act: Action, h: Time)
    requires Related(a, b, act, h) && act.CompleteReg? && h < act.registration.now
    ensures StillAlike(a, b, act, h)
  {
    hide Alike, CompleteRegistration, SessionFails;
    var r := act.registration;
    if r.session.Some? {
      NoSessionClash(a, NewIds(act), NewHashes(act), r.session.value, r.now);
      NoSessionClash(b, NewIds(act), NewHashes(act), r.session.value, r.now);
    }
    assert r.eventId in NewIds(act);
    CompletesAlike(a, b, r, h);
  }

  // ----- Sessions -----

  lemma SameAccepts(a: Db, b: Db, h: Time, s: Id, now: Time, idle: Time)
    requires Alike(a, b, h) && h <= now && s in a.sessions && Accepts(a.sessions[s], now, idle)
    ensures s in b.sessions && b.sessions[s] == a.sessions[s]
  {
    SameSession(a.sessions, b.sessions, h, s);
  }

  lemma SeeAlike(a: Db, b: Db, act: Action, h: Time)
    requires Related(a, b, act, h) && act.SeeSession? && h <= act.now
    ensures StillAlike(a, b, act, h)
  {
    var idle := act.now - SESSION_IDLE_TIMEOUT_MS;
    if act.session in a.sessions && Accepts(a.sessions[act.session], act.now, idle) { SameAccepts(a, b, h, act.session, act.now, idle); }
    if act.session in b.sessions && Accepts(b.sessions[act.session], act.now, idle) { SameAccepts(b, a, h, act.session, act.now, idle); }
    hide AlikeS, AlikeL, AlikeC, Unused;
    if Perform(a, act).db != a {
      PutAlikeS(a.sessions, b.sessions, h, act.session, Perform(a, act).db.sessions[act.session]);
    }
  }

  lemma NoneToEnd(s: map<Id, Session>, h: Time, token: Hash)
    requires Unrevoked(s, token) == {}
    ensures LiveSessions(s, h) == NotBearing(LiveSessions(s, h), token)
  {
    assert forall x :: x in s && s[x].token == token ==> x !in Unrevoked(s, token);
  }

  // One may find a session to revoke that the other no longer holds; the answer is the same.
  lemma EndsAs(db: Db, act: Action, h: Time)
    requires act.EndSession? && act.eventId !in db.audits
    ensures var after := Perform(db, act);
      && after.outcome == Done && after.db == db.(sessions := after.db.sessions, audits := after.db.audits)
      && LiveSessions(after.db.sessions, h) == NotBearing(LiveSessions(db.sessions, h), act.token)
  {
    RevokeToken(db.sessions, h, act.token, act.now);
    if Unrevoked(db.sessions, act.token) == {} { NoneToEnd(db.sessions, h, act.token); }
    hide LiveSessions, NotBearing, RevokeRows, Unrevoked, Owner;
  }

  lemma EndAlike(a: Db, b: Db, act: Action, h: Time)
    requires Related(a, b, act, h) && act.EndSession?
    ensures StillAlike(a, b, act, h)
  {
    EndsAs(a, act, h);
    EndsAs(b, act, h);
    hide Perform, LiveSessions, LiveLinks, LiveChallenges, NotBearing;
  }

  // ----- Keys, tokens and links -----

  // Nothing but the passkeys and the security events is touched, and the same in both.
  lemma DeletesAs(db: Db, user: Id, passkey: Id, eventId: Id, now: Time)
    requires eventId !in db.audits
    ensures var after := DeletePasskey(db, user, passkey, eventId, now);
      after.db == db.(passkeys := after.db.passkeys, audits := after.db.audits)
  {
    hide OtherPasskey, Owns, Enabled;
  }

  lemma DeletesTheSame(a: Db, b: Db, user: Id, passkey: Id, eventId: Id, now: Time)
    requires a.users == b.users && a.passkeys == b.passkeys && eventId !in a.audits && eventId !in b.audits
    ensures var x, y := DeletePasskey(a, user, passkey, eventId, now), DeletePasskey(b, user, passkey, eventId, now);
      x.outcome == y.outcome && x.db.passkeys == y.db.passkeys
  {
    hide OtherPasskey, Owns, Enabled;
  }

  lemma DeletesAlike(a: Db, b: Db, user: Id, passkey: Id, eventId: Id, now: Time, h: Time)
    requires Alike(a, b, h) && eventId !in a.audits && eventId !in b.audits
    ensures Alike(DeletePasskey(a, user, passkey, eventId, now).db, DeletePasskey(b, user, passkey, eventId, now).db, h)
    ensures DeletePasskey(a, user, passkey, eventId, now).outcome == DeletePasskey(b, user, passkey, eventId, now).outcome
  {
    hide AlikeS, AlikeL, AlikeC, DeletePasskey;
    DeletesAs(a, user, passkey, eventId, now);
    DeletesAs(b, user, passkey, eventId, now);
    DeletesTheSame(a, b, user, passkey, eventId, now);
  }

  lemma PasskeyAlike(a: Db, b: Db, act: Action, h: Time)
    requires Related(a, b, act, h) && act.DropPasskey?
    ensures StillAlike(a, b, act, h)
  {
    assert act.eventId in NewIds(act);
    DeletesAlike(a, b, act.user, act.passkey, act.eventId, act.now, h);
    hide Alike, DeletePasskey;
  }

  lemma TokenAlike(a: Db, b: Db, act: Action, h: Time)
    requires Related(a, b, act, h) && (act.MakeToken? || act.EndToken? || act.Unlock?)
    ensures StillAlike(a, b, act, h)
  {
    assert act.eventId in NewIds(act);
    assert act.eventId !in a.audits && act.eventId !in b.audits;
    hide AlikeS, AlikeL, AlikeC, TokenClash, Unused, NewIds, NewHashes;
  }

  lemma LinkAlike(a: Db, b: Db, act: Action, h: Time)
    requires Related(a, b, act, h) && (act.Enroll? || act.Recover? || act.Bootstrap? || act.OperatorRecover?)
    ensures StillAlike(a, b, act, h)
  {
    NoLinkClash(a, NewIds(act), NewHashes(act), act.l, act.now);
    NoLinkClash(b, NewIds(act), NewHashes(act), act.l, act.now);
    hide AlikeS, AlikeL, AlikeC, LinkFails, UserClash, OtherAdmin;
    if Perform(a, act).outcome == Done {
      PutAlikeL(a.links, b.links, h, act.l.id, Perform(a, act).db.links[act.l.id]);
    }
  }

  lemma LocksAlike(a: Db, b: Db, actor: Id, target: Id, eventId: Id, now: Time, h: Time)
    requires Alike(a, b, h) && eventId !in a.audits && eventId !in b.audits
    ensures Alike(Disable(a, actor, target, eventId, now).db, Disable(b, actor, target, eventId, now).db, h)
    ensures Disable(a, actor, target, eventId, now).outcome == Disable(b, actor, target, eventId, now).outcome
  {
    hide AlikeS, AlikeL, AlikeC, RevokeSessions, RevokeLinks, OtherAdmin;
    RevokeAlike(a, b, h, target, now);
  }

  lemma LockAlike(a: Db, b: Db, act: Action, h: Time)
    requires Related(a, b, act, h) && act.Lock?
    ensures StillAlike(a, b, act, h)
  {
    hide Alike, Disable;
    assert act.eventId in NewIds(act);
    LocksAlike(a, b, act.actor, act.target, act.eventId, act.now, h);
  }

  // ----- Account deletion and reader wipe -----

  lemma SameFresh(a: Db, b: Db, h: Time, user: Id, session: Id, now: Time)
    requires Alike(a, b, h) && SessionsOk(a.users, a.sessions) && h <= now - FRESH_MS && Fresh(a.sessions, user, session, now)
    ensures Fresh(b.sessions, user, session, now)
  {
    SameSession(a.sessions, b.sessions, h, session);
  }

  lemma FreshAlike(a: Db, b: Db, h: Time, user: Id, session: Id, now: Time)
    requires Alike(a, b, h) && SessionsOk(a.users, a.sessions) && SessionsOk(b.users, b.sessions) && h <= now - FRESH_MS
    ensures Fresh(a.sessions, user, session, now) == Fresh(b.sessions, user, session, now)
  {
    if Fresh(a.sessions, user, session, now) { SameFresh(a, b, h, user, session, now); }
    if Fresh(b.sessions, user, session, now) { SameFresh(b, a, h, user, session, now); }
  }

  lemma WipeAlike(a: Db, b: Db, act: Action, h: Time)
    requires Related(a, b, act, h) && act.Wipe? && h <= act.now - FRESH_MS
    requires SessionsOk(a.users, a.sessions) && SessionsOk(b.users, b.sessions)
    ensures StillAlike(a, b, act, h)
  {
    FreshAlike(a, b, h, act.user, act.session, act.now);
    hide AlikeS, AlikeL, AlikeC, Fresh, WipeReader, SessionsOk;
  }

  lemma RemoveAlike(a: Db, b: Db, h: Time, u: Id)
    requires Alike(a, b, h) && ChallengeOwnersOk(a.links, a.challenges) && ChallengeOwnersOk(b.links, b.challenges)
    ensures Alike(RemoveUser(a, u), RemoveUser(b, u), h)
  {
    SessionsOfOthers(a.sessions, h, u);
    SessionsOfOthers(b.sessions, h, u);
    LinksOfOthers(a.links, h, u);
    LinksOfOthers(b.links, h, u);
    ChallengesOfOthers(a.challenges, a.links, h, u);
    ChallengesOfOthers(b.challenges, b.links, h, u);
    hide LiveSessions, LiveLinks, LiveChallenges, SessionsWithout, LinksWithout, ChallengesWithout, NotOf, ReaderWithout, ChallengeOwnersOk;
  }

  lemma DeleteAlike(a: Db, b: Db, act: Action, h: Time)
    requires Related(a, b, act, h) && act.Delete? && h <= act.now - FRESH_MS
    requires SessionsOk(a.users, a.sessions) && SessionsOk(b.users, b.sessions)
    requires ChallengeOwnersOk(a.links, a.challenges) && ChallengeOwnersOk(b.links, b.challenges)
    ensures StillAlike(a, b, act, h)
  {
    hide AlikeS, AlikeL, AlikeC, Fresh, ReaderWithout, DropJobs, SessionsOk, ChallengeOwnersOk, OtherAdmin;
    FreshAlike(a, b, h, act.user, act.session, act.now);
    RemoveAlike(a, b, h, act.user);
  }

  // ----- The one step whose answer may differ -----

  function Ended(s: map<Id, Link>, link: Id): map<Id, Link> {
    map x | x in s && !(x == link && Open(s[x])) :: s[x]
  }

  lemma EndsLinkAs(db: Db, act: Action, h: Time)
    requires act.EndLink? && act.eventId !in db.audits
    ensures var after := Perform(db, act);
      && after.db == db.(links := after.db.links, audits := after.db.audits)
      && LiveLinks(after.db.links, h) == (if ActiveAdmin(db.users, act.actor) then Ended(LiveLinks(db.links, h), act.link) else LiveLinks(db.links, h))
      && after.outcome == (if act.link in db.links && Open(db.links[act.link]) && ActiveAdmin(db.users, act.actor) then Done else NotFound)
  {
    if act.link in db.links && Open(db.links[act.link]) && ActiveAdmin(db.users, act.actor) {
      PutLink(db.links, h, act.link, db.links[act.link].(revokedAt := Some(act.now)));
    }
  }

  lemma EndLinkAlike(a: Db, b: Db, act: Action, h: Time)
    requires Related(a, b, act, h) && act.EndLink?
    ensures Alike(Perform(a, act).db, Perform(b, act).db, h)
  {
    EndsLinkAs(a, act, h);
    EndsLinkAs(b, act, h);
    hide Perform, LiveSessions, LiveLinks, LiveChallenges, Ended;
  }

  // Revoking a link tells the two apart exactly when the link is open in one of them only; then it has
  // long expired there.
  lemma OnlyLongExpired(a: Db, b: Db, act: Action, h: Time)
    requires Related(a, b, act, h) && act.EndLink?
    ensures var held, gone := act.link in a.links && Open(a.links[act.link]), act.link in b.links && Open(b.links[act.link]);
      && (Perform(a, act).outcome != Perform(b, act).outcome <==> ActiveAdmin(a.users, act.actor) && held != gone)
      && (held && !gone ==> a.links[act.link].expiresAt <= h)
  {
    EndsLinkAs(a, act, h);
    EndsLinkAs(b, act, h);
    hide Perform, LiveSessions, LiveChallenges;
    if act.link in a.links && LiveLink(a.links[act.link], h) { SameLink(a.links, b.links, h, act.link); }
  }

  // ----- Cleaning and the passage of time -----

  lemma CleanAlike(db: Db, now: Time, h: Time)
    requires now - WEBAUTHN_CHALLENGE_RETENTION_MS <= h && OneFate(db.links)
    ensures Alike(db, Cleanup(db, CutoffsAt(now), AUTH_CLEANUP_BATCH_SIZE), h)
  {
    var cut, n := CutoffsAt(now), AUTH_CLEANUP_BATCH_SIZE;
    hide LiveSessions, LiveLinks, LiveChallenges, CleanSessions, CleanLinks, CleanChallenges, CleanAudits;
    CleanUnseenS(db.sessions, cut.revokedSession, cut.expiredSession, n, h);
    CleanUnseenC(db.challenges, cut.challenge, n, h);
    CleanUnseenL(db.links, CleanChallenges(db.challenges, cut.challenge, n), cut.link, n, h);
  }

  lemma StayAlike(a: Db, b: Db, h: Time, later: Time)
    requires Alike(a, b, h) && h <= later
    ensures Alike(a, b, later)
  {
    NarrowSessions(a.sessions, h, later);
    NarrowSessions(b.sessions, h, later);
    NarrowLinks(a.links, h, later);
    NarrowLinks(b.links, h, later);
    NarrowChallenges(a.challenges, h, later);
    NarrowChallenges(b.challenges, h, later);
    hide LiveSessions, LiveLinks, LiveChallenges;
  }

  // ----- Any step -----

  predicate WellKept(db: Db) {
    SessionsOk(db.users, db.sessions) && OneFate(db.links) && ChallengeOwnersOk(db.links, db.challenges)
  }

  lemma TicksAlike(a: Db, b: Db, act: Action, h: Time)
    requires Alike(a, b, h) && (act.Tick? || act.Clean?)
    requires WellKept(a) && WellKept(b) && (act.Clean? ==> act.now - WEBAUTHN_CHALLENGE_RETENTION_MS <= h)
    ensures StillAlike(a, b, act, h)
  {
    hide LiveSessions, LiveLinks, LiveChallenges, Cleanup, CutoffsAt;
    if act.Clean? {
      CleanAlike(a, act.now, h);
      CleanAlike(b, act.now, h);
    }
  }

  lemma StepAlike(a: Db, b: Db, act: Action, h: Time)
    requires Related(a, b, act, h) && WellKept(a) && WellKept(b)
    requires !act.Tick? ==> h < StepTime(act) - FRESH_MS && StepTime(act) - WEBAUTHN_CHALLENGE_RETENTION_MS <= h
    ensures Alike(Perform(a, act).db, Perform(b, act).db, h)
    ensures !act.EndLink? ==> Perform(a, act).outcome == Perform(b, act).outcome
  {
    hide Alike, Perform, Unused;
    if act.Tick? || act.Clean? { hide Alike; TicksAlike(a, b, act, h); }
    else if act.IssueAuth? || act.IssueAccess? || act.IssueRegistration? { IssueAlike(a, b, act, h); }
    else if act.ConsumeAuth? || act.ConsumeReg? { ConsumeAlike(a, b, act, h); }
    else if act.CompleteAuth? { CompleteAuthAlike(a, b, act, h); }
    else if act.CompleteReg? { CompleteRegAlike(a, b, act, h); }
    else if act.SeeSession? { SeeAlike(a, b, act, h); }
    else if act.EndSession? { EndAlike(a, b, act, h); }
    else if act.DropPasskey? { PasskeyAlike(a, b, act, h); }
    else if act.MakeToken? || act.EndToken? || act.Unlock? { TokenAlike(a, b, act, h); }
    else if act.Lock? { LockAlike(a, b, act, h); }
    else if act.EndLink? { EndLinkAlike(a, b, act, h); }
    else if act.Wipe? { WipeAlike(a, b, act, h); }
    else if act.Delete? { DeleteAlike(a, b, act, h); }
    else { LinkAlike(a, b, act, h); }
  }
}
