/** Cleanup is invisible: with or without an intervening cleanup, every later step of every run gets the
    same answer.  Two databases that agree on the rows still alive behave alike for ever. */
module Invisible {
  import opened Schema
  import opened Atomic
  import opened Retention
  import opened Protocol
  import opened History
  import opened Runs

  // ----- The rows that a step with a clock reading after `h` can still see -----

  predicate LiveSession(s: Session, h: Time) {
    s.revokedAt.None? && s.expiresAt > h
  }

  predicate LiveChallenge(c: Challenge, h: Time) {
    c.consumedAt.None? && c.expiresAt > h
  }

  // A link that was consumed a moment ago can still be mistaken for one's own.
  predicate LiveLink(l: Link, h: Time) {
    (Open(l) && l.expiresAt > h) || (l.consumedAt.Some? && l.consumedAt.value > h)
  }

  function LiveSessions(t: map<Id, Session>, h: Time): map<Id, Session> {
    map x | x in t && LiveSession(t[x], h) :: t[x]
  }

  function LiveChallenges(t: map<Id, Challenge>, h: Time): map<Id, Challenge> {
    map x | x in t && LiveChallenge(t[x], h) :: t[x]
  }

  function LiveLinks(t: map<Id, Link>, h: Time): map<Id, Link> {
    map x | x in t && LiveLink(t[x], h) :: t[x]
  }

  predicate AlikeS(s: map<Id, Session>, t: map<Id, Session>, h: Time) {
    LiveSessions(s, h) == LiveSessions(t, h)
  }

  predicate AlikeC(s: map<Id, Challenge>, t: map<Id, Challenge>, h: Time) {
    LiveChallenges(s, h) == LiveChallenges(t, h)
  }

  predicate AlikeL(s: map<Id, Link>, t: map<Id, Link>, h: Time) {
    LiveLinks(s, h) == LiveLinks(t, h)
  }

  // Nothing but rows past their use, and security events, tells the two apart.
  predicate Alike(a: Db, b: Db, h: Time) {
    && a.users == b.users && a.passkeys == b.passkeys && a.tokens == b.tokens && a.reader == b.reader
    && AlikeS(a.sessions, b.sessions, h) && AlikeL(a.links, b.links, h) && AlikeC(a.challenges, b.challenges, h)
  }

  // ----- What being alike lets through, row by row -----

  lemma SameSession(s: map<Id, Session>, t: map<Id, Session>, h: Time, x: Id)
    requires AlikeS(s, t, h) && x in s && LiveSession(s[x], h)
    ensures x in t && t[x] == s[x]
  {
    assert x in LiveSessions(s, h);
  }

  lemma SameLink(s: map<Id, Link>, t: map<Id, Link>, h: Time, x: Id)
    requires AlikeL(s, t, h) && x in s && LiveLink(s[x], h)
    ensures x in t && t[x] == s[x]
  {
    assert x in LiveLinks(s, h);
  }

  lemma SameChallenge(s: map<Id, Challenge>, t: map<Id, Challenge>, h: Time, x: Id)
    requires AlikeC(s, t, h) && x in s && LiveChallenge(s[x], h)
    ensures x in t && t[x] == s[x]
  {
    assert x in LiveChallenges(s, h);
  }

  // ----- Every operation acts on the live view alone -----

  lemma PutSession(s: map<Id, Session>, h: Time, x: Id, row: Session)
    ensures LiveSessions(s[x := row], h) == if LiveSession(row, h) then LiveSessions(s, h)[x := row] else LiveSessions(s, h) - {x}
  {}

  lemma PutLink(s: map<Id, Link>, h: Time, x: Id, row: Link)
    ensures LiveLinks(s[x := row], h) == if LiveLink(row, h) then LiveLinks(s, h)[x := row] else LiveLinks(s, h) - {x}
  {}

  lemma PutChallenge(s: map<Id, Challenge>, h: Time, x: Id, row: Challenge)
    ensures LiveChallenges(s[x := row], h) ==
      if LiveChallenge(row, h) then LiveChallenges(s, h)[x := row] else LiveChallenges(s, h) - {x}
  {}

  lemma RevokeUser(s: map<Id, Session>, h: Time, user: Id, now: Time)
    ensures LiveSessions(RevokeSessions(s, user, now), h) == SessionsWithout(LiveSessions(s, h), user)
  {}

  lemma SessionsOfOthers(s: map<Id, Session>, h: Time, user: Id)
    ensures LiveSessions(SessionsWithout(s, user), h) == SessionsWithout(LiveSessions(s, h), user)
  {}

  function NotBearing(s: map<Id, Session>, token: Hash): map<Id, Session> {
    map x | x in s && s[x].token != token :: s[x]
  }

  lemma RevokeToken(s: map<Id, Session>, h: Time, token: Hash, now: Time)
    ensures LiveSessions(RevokeRows(s, Unrevoked(s, token), now), h) == NotBearing(LiveSessions(s, h), token)
  {}

  function ClosedFor(s: map<Id, Link>, user: Id): map<Id, Link> {
    map x | x in s && !(s[x].user == user && Open(s[x])) :: s[x]
  }

  lemma RevokeUserLinks(s: map<Id, Link>, h: Time, user: Id, now: Time)
    ensures LiveLinks(RevokeLinks(s, user, now), h) == ClosedFor(LiveLinks(s, h), user)
  {}

  lemma LinksOfOthers(s: map<Id, Link>, h: Time, user: Id)
    ensures LiveLinks(LinksWithout(s, user), h) == LinksWithout(LiveLinks(s, h), user)
  {}

  // A challenge goes with its user exactly when it names that user, whichever links are still there.
  function NotOf(s: map<Id, Challenge>, user: Id): map<Id, Challenge> {
    map x | x in s && s[x].user != Some(user) :: s[x]
  }

  lemma ChallengesOfOthers(s: map<Id, Challenge>, links: map<Id, Link>, h: Time, user: Id)
    requires ChallengeOwnersOk(links, s)
    ensures LiveChallenges(ChallengesWithout(s, links, user), h) == NotOf(LiveChallenges(s, h), user)
  {}

  lemma NarrowSessions(s: map<Id, Session>, h: Time, later: Time)
    requires h <= later
    ensures LiveSessions(s, later) == LiveSessions(LiveSessions(s, h), later)
  {}

  lemma NarrowLinks(s: map<Id, Link>, h: Time, later: Time)
    requires h <= later
    ensures LiveLinks(s, later) == LiveLinks(LiveLinks(s, h), later)
  {}

  lemma NarrowChallenges(s: map<Id, Challenge>, h: Time, later: Time)
    requires h <= later
    ensures LiveChallenges(s, later) == LiveChallenges(LiveChallenges(s, h), later)
  {}

  lemma DropDeadS(s: map<Id, Session>, h: Time, gone: set<Id>)
    requires forall x :: x in gone && x in s ==> !LiveSession(s[x], h)
    ensures LiveSessions(s - gone, h) == LiveSessions(s, h)
  {}

  lemma DropDeadC(s: map<Id, Challenge>, h: Time, gone: set<Id>)
    requires forall x :: x in gone && x in s ==> !LiveChallenge(s[x], h)
    ensures LiveChallenges(s - gone, h) == LiveChallenges(s, h)
  {}

  lemma DropDeadL(s: map<Id, Link>, h: Time, gone: set<Id>)
    requires forall x :: x in gone && x in s ==> !LiveLink(s[x], h)
    ensures LiveLinks(s - gone, h) == LiveLinks(s, h)
  {}

  // Rows past cutoffs no later than `h` are not live.
  lemma CleanUnseenS(s: map<Id, Session>, revoked: Time, expired: Time, n: nat, h: Time)
    requires expired <= h
    ensures LiveSessions(CleanSessions(s, revoked, expired, n), h) == LiveSessions(s, h)
  {
    hide Oldest, LiveSessions;
    var one := Oldest(RevokedSessions(s, revoked), n);
    DropDeadS(s, h, one);
    DropDeadS(s - one, h, Oldest(ExpiredSessions(s - one, expired), n));
  }

  lemma CleanUnseenC(s: map<Id, Challenge>, cut: Time, n: nat, h: Time)
    requires cut <= h
    ensures LiveChallenges(CleanChallenges(s, cut, n), h) == LiveChallenges(s, h)
  {
    hide Oldest, LiveChallenges;
    var one := Oldest(ConsumedChallenges(s, cut), n);
    DropDeadC(s, h, one);
    DropDeadC(s - one, h, Oldest(ExpiredChallenges(s - one, cut), n));
  }

  // No link is both consumed and revoked, so a revoked one was not consumed a moment ago either.
  predicate OneFate(s: map<Id, Link>) {
    forall l :: l in s ==> s[l].consumedAt.None? || s[l].revokedAt.None?
  }

  lemma CleanUnseenL(s: map<Id, Link>, ch: map<Id, Challenge>, cut: Time, n: nat, h: Time)
    requires cut <= h && OneFate(s)
    ensures LiveLinks(CleanLinks(s, ch, cut, n), h) == LiveLinks(s, h)
  {
    hide Oldest, LiveLinks, Referenced;
    var one := Oldest(ConsumedLinks(s, ch, cut), n);
    DropDeadL(s, h, one);
    var a := s - one;
    var two := Oldest(RevokedLinks(a, ch, cut), n);
    DropDeadL(a, h, two);
    DropDeadL(a - two, h, Oldest(ExpiredLinks(a - two, ch, cut), n));
  }
}
