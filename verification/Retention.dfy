/** The batched retention cleanup: eight DELETEs, each removing at most `n` of the oldest eligible rows. */
module Retention {
  import opened Schema

  datatype Cutoffs = Cutoffs(expiredSession: Time, revokedSession: Time, challenge: Time, link: Time, audit: Time)

  // ----- ORDER BY key, id LIMIT n -----

  predicate Before(rows: map<Id, Time>, x: Id, y: Id)
    requires x in rows && y in rows
  {
    rows[x] < rows[y] || (rows[x] == rows[y] && x <= y)
  }

  predicate IsFirst(rows: map<Id, Time>, ids: set<Id>, x: Id)
    requires ids <= rows.Keys
  {
    x in ids && forall y :: y in ids ==> Before(rows, x, y)
  }

  lemma {:induction false} FirstExists(rows: map<Id, Time>, ids: set<Id>)
    requires ids != {} && ids <= rows.Keys
    ensures exists x :: IsFirst(rows, ids, x)
    decreases ids
  {
    var z :| z in ids;
    var rest := ids - {z};
    if rest == {} {
      assert ids == {z};
      assert IsFirst(rows, ids, z);
    } else {
      FirstExists(rows, rest);
      var x :| IsFirst(rows, rest, x);
      var first := if Before(rows, z, x) then z else x;
      forall y | y in ids
        ensures Before(rows, first, y)
      {
        assert y == z || y in rest;
      }
      assert IsFirst(rows, ids, first);
    }
  }

  function First(rows: map<Id, Time>): (x: Id)
    requires rows != map[]
    ensures IsFirst(rows, rows.Keys, x)
  {
    FirstExists(rows, rows.Keys);
    var x :| x in rows && IsFirst(rows, rows.Keys, x);
    x
  }

  function Oldest(rows: map<Id, Time>, n: nat): (ids: set<Id>)
    ensures ids <= rows.Keys
    ensures |ids| == if n < |rows| then n else |rows|
    decreases n
  {
    if n == 0 || rows == map[] then {}
    else
      var x := First(rows);
      var rest := rows - {x};
      assert rows.Keys == rest.Keys + {x} && x !in rest.Keys;
      var more := Oldest(rest, n - 1);
      assert x !in more;
      {x} + more
  }

  lemma {:induction false} OldestBefore(rows: map<Id, Time>, n: nat, x: Id, y: Id)
    requires x in Oldest(rows, n) && y in rows && y !in Oldest(rows, n)
    ensures Before(rows, x, y)
    decreases n
  {
    var z := First(rows);
    if x != z {
      OldestBefore(rows - {z}, n - 1, x, y);
    }
  }

  // LIMIT takes the rows that come first in the ordering.
  lemma OldestComeFirst(rows: map<Id, Time>, n: nat, x: Id, y: Id)
    requires x in Oldest(rows, n) && y in rows && y !in Oldest(rows, n)
    ensures rows[x] < rows[y] || (rows[x] == rows[y] && x < y)
  {
    OldestBefore(rows, n, x, y);
    hide Oldest;
  }

  // ----- Eligible rows, with the column they are ordered by -----

  function ConsumedChallenges(ch: map<Id, Challenge>, cut: Time): map<Id, Time> {
    map c | c in ch && ch[c].consumedAt.Some? && ch[c].consumedAt.value <= cut :: ch[c].consumedAt.value
  }

  function ExpiredChallenges(ch: map<Id, Challenge>, cut: Time): map<Id, Time> {
    map c | c in ch && ch[c].consumedAt.None? && ch[c].expiresAt <= cut :: ch[c].expiresAt
  }

  predicate Referenced(ch: map<Id, Challenge>, l: Id) {
    exists c :: c in ch && ch[c].link == Some(l)
  }

  function ConsumedLinks(links: map<Id, Link>, ch: map<Id, Challenge>, cut: Time): map<Id, Time> {
    map l | l in links && links[l].consumedAt.Some? && links[l].consumedAt.value <= cut && !Referenced(ch, l)
      :: links[l].consumedAt.value
  }

  function RevokedLinks(links: map<Id, Link>, ch: map<Id, Challenge>, cut: Time): map<Id, Time> {
    map l | l in links && links[l].revokedAt.Some? && links[l].revokedAt.value <= cut && !Referenced(ch, l)
      :: links[l].revokedAt.value
  }

  function ExpiredLinks(links: map<Id, Link>, ch: map<Id, Challenge>, cut: Time): map<Id, Time> {
    map l | l in links && Open(links[l]) && links[l].expiresAt <= cut && !Referenced(ch, l) :: links[l].expiresAt
  }

  function RevokedSessions(ss: map<Id, Session>, cut: Time): map<Id, Time> {
    map s | s in ss && ss[s].revokedAt.Some? && ss[s].revokedAt.value <= cut :: ss[s].revokedAt.value
  }

  function ExpiredSessions(ss: map<Id, Session>, cut: Time): map<Id, Time> {
    map s | s in ss && ss[s].revokedAt.None? && ss[s].expiresAt <= cut :: ss[s].expiresAt
  }

  function OldAudits(es: map<Id, Audit>, cut: Time): map<Id, Time> {
    map e | e in es && es[e].createdAt <= cut :: es[e].createdAt
  }

  // ----- One cleanup, table by table -----

  function CleanChallenges(ch: map<Id, Challenge>, cut: Time, n: nat): map<Id, Challenge> {
    var a := ch - Oldest(ConsumedChallenges(ch, cut), n);
    a - Oldest(ExpiredChallenges(a, cut), n)
  }

  function CleanLinks(links: map<Id, Link>, ch: map<Id, Challenge>, cut: Time, n: nat): map<Id, Link> {
    var a := links - Oldest(ConsumedLinks(links, ch, cut), n);
    var b := a - Oldest(RevokedLinks(a, ch, cut), n);
    b - Oldest(ExpiredLinks(b, ch, cut), n)
  }

  function CleanSessions(ss: map<Id, Session>, revoked: Time, expired: Time, n: nat): map<Id, Session> {
    var a := ss - Oldest(RevokedSessions(ss, revoked), n);
    a - Oldest(ExpiredSessions(a, expired), n)
  }

  function CleanAudits(es: map<Id, Audit>, cut: Time, n: nat): map<Id, Audit> {
    es - Oldest(OldAudits(es, cut), n)
  }

  function Cleanup(db: Db, cut: Cutoffs, n: nat): Db {
    var ch := CleanChallenges(db.challenges, cut.challenge, n);
    db.(challenges := ch,
        links := CleanLinks(db.links, ch, cut.link, n),
        sessions := CleanSessions(db.sessions, cut.revokedSession, cut.expiredSession, n),
        audits := CleanAudits(db.audits, cut.audit, n))
  }

  // ----- A cleanup only removes rows -----

  lemma ChallengesShrink(ch: map<Id, Challenge>, cut: Time, n: nat)
    ensures var after := CleanChallenges(ch, cut, n); forall x :: x in after ==> x in ch && after[x] == ch[x]
  {}

  lemma LinksShrink(links: map<Id, Link>, ch: map<Id, Challenge>, cut: Time, n: nat)
    ensures var after := CleanLinks(links, ch, cut, n); forall x :: x in after ==> x in links && after[x] == links[x]
  {}

  lemma SessionsShrink(ss: map<Id, Session>, revoked: Time, expired: Time, n: nat)
    ensures var after := CleanSessions(ss, revoked, expired, n); forall x :: x in after ==> x in ss && after[x] == ss[x]
  {}

  lemma CleanupShrinks(db: Db, cut: Cutoffs, n: nat)
    ensures var after := Cleanup(db, cut, n);
      && after.users == db.users && after.passkeys == db.passkeys && after.tokens == db.tokens && after.reader == db.reader
      && (forall x :: x in after.sessions ==> x in db.sessions && after.sessions[x] == db.sessions[x])
      && (forall x :: x in after.links ==> x in db.links && after.links[x] == db.links[x])
      && (forall x :: x in after.challenges ==> x in db.challenges && after.challenges[x] == db.challenges[x])
      && after.audits.Keys <= db.audits.Keys
  {
    hide CleanChallenges, CleanLinks, CleanSessions;
    var ch := CleanChallenges(db.challenges, cut.challenge, n);
    ChallengesShrink(db.challenges, cut.challenge, n);
    LinksShrink(db.links, ch, cut.link, n);
    SessionsShrink(db.sessions, cut.revokedSession, cut.expiredSession, n);
  }
}
