/** Repeating the batched cleanup with fixed cutoffs converges to the exact sweep: every row past its
    cutoff is gone and every other row is still there, in a number of rounds known beforehand. */
module Sweeping {
  import opened Schema
  import opened Retention

  // ----- The exact sweep -----

  predicate PastChallenge(c: Challenge, cut: Time) {
    if c.consumedAt.Some? then c.consumedAt.value <= cut else c.expiresAt <= cut
  }

  predicate PastLink(l: Link, cut: Time) {
    || (l.consumedAt.Some? && l.consumedAt.value <= cut)
    || (l.revokedAt.Some? && l.revokedAt.value <= cut)
    || (Open(l) && l.expiresAt <= cut)
  }

  predicate PastSession(s: Session, revoked: Time, expired: Time) {
    if s.revokedAt.Some? then s.revokedAt.value <= revoked else s.expiresAt <= expired
  }

  function SweepChallenges(ch: map<Id, Challenge>, cut: Time): map<Id, Challenge> {
    map c | c in ch && !PastChallenge(ch[c], cut) :: ch[c]
  }

  function SweepLinks(links: map<Id, Link>, cut: Time): map<Id, Link> {
    map l | l in links && !PastLink(links[l], cut) :: links[l]
  }

  function SweepSessions(ss: map<Id, Session>, revoked: Time, expired: Time): map<Id, Session> {
    map s | s in ss && !PastSession(ss[s], revoked, expired) :: ss[s]
  }

  function SweepAudits(es: map<Id, Audit>, cut: Time): map<Id, Audit> {
    map e | e in es && es[e].createdAt > cut :: es[e]
  }

  function Sweep(db: Db, cut: Cutoffs): Db {
    db.(challenges := SweepChallenges(db.challenges, cut.challenge),
        links := SweepLinks(db.links, cut.link),
        sessions := SweepSessions(db.sessions, cut.revokedSession, cut.expiredSession),
        audits := SweepAudits(db.audits, cut.audit))
  }

  function Rounds(db: Db, cut: Cutoffs, n: nat, k: nat): Db
    decreases k
  {
    hide Cleanup; if k == 0 then db else Rounds(Cleanup(db, cut, n), cut, n, k - 1)
  }

  // ----- One DELETE ... LIMIT n takes n rows off its category, or all of them -----

  function Drop(x: nat, n: nat): nat {
    if n < x then x - n else 0
  }

  lemma Trim(rows: map<Id, Time>, n: nat)
    ensures |rows - Oldest(rows, n)| == Drop(|rows|, n)
  {
    var gone := Oldest(rows, n);
    assert (rows - gone).Keys == rows.Keys - gone;
    assert rows.Keys == (rows.Keys - gone) + gone;
  }

  // LIMIT takes the rows past the earlier cutoff first.
  lemma OldestTakesPast(rows: map<Id, Time>, past: map<Id, Time>, f: Time, n: nat)
    requires forall x :: x in past <==> x in rows && rows[x] <= f
    ensures |past - Oldest(rows, n)| <= Drop(|past|, n)
  {
    hide Oldest;
    var gone := Oldest(rows, n);
    var left := past - gone;
    if left != map[] {
      var y :| y in left;
      forall x | x in gone
        ensures x in past
      {
        OldestComeFirst(rows, n, x, y);
      }
      assert gone <= rows.Keys - {y};
      Sizes(gone, rows.Keys - {y});
      assert |gone| == n;
      assert past.Keys == left.Keys + gone;
    }
  }

  lemma Sizes(a: set<Id>, b: set<Id>)
    requires a <= b
    ensures |a| <= |b|
  {
    assert b == a + (b - a);
  }

  lemma ConsumedGo(ch: map<Id, Challenge>, cut: Time, gone: set<Id>)
    requires gone <= ConsumedChallenges(ch, cut).Keys
    ensures SweepChallenges(ch - gone, cut) == SweepChallenges(ch, cut)
    ensures ConsumedChallenges(ch - gone, cut) == ConsumedChallenges(ch, cut) - gone
    ensures ExpiredChallenges(ch - gone, cut) == ExpiredChallenges(ch, cut)
  {}

  lemma ExpiredGo(ch: map<Id, Challenge>, cut: Time, gone: set<Id>)
    requires gone <= ExpiredChallenges(ch, cut).Keys
    ensures SweepChallenges(ch - gone, cut) == SweepChallenges(ch, cut)
    ensures ConsumedChallenges(ch - gone, cut) == ConsumedChallenges(ch, cut)
    ensures ExpiredChallenges(ch - gone, cut) == ExpiredChallenges(ch, cut) - gone
  {}

  lemma ChallengesRound(ch: map<Id, Challenge>, cut: Time, n: nat)
    ensures var after := CleanChallenges(ch, cut, n);
      && SweepChallenges(after, cut) == SweepChallenges(ch, cut)
      && |ConsumedChallenges(after, cut)| == Drop(|ConsumedChallenges(ch, cut)|, n)
      && |ExpiredChallenges(after, cut)| == Drop(|ExpiredChallenges(ch, cut)|, n)
  {
    hide Oldest, SweepChallenges, ConsumedChallenges, ExpiredChallenges;
    var one := Oldest(ConsumedChallenges(ch, cut), n);
    ConsumedGo(ch, cut, one);
    Trim(ConsumedChallenges(ch, cut), n);
    var two := Oldest(ExpiredChallenges(ch - one, cut), n);
    ExpiredGo(ch - one, cut, two);
    Trim(ExpiredChallenges(ch - one, cut), n);
  }

  lemma RevokedSessionsGo(ss: map<Id, Session>, revoked: Time, expired: Time, gone: set<Id>)
    requires gone <= RevokedSessions(ss, revoked).Keys
    ensures SweepSessions(ss - gone, revoked, expired) == SweepSessions(ss, revoked, expired)
    ensures RevokedSessions(ss - gone, revoked) == RevokedSessions(ss, revoked) - gone
    ensures ExpiredSessions(ss - gone, expired) == ExpiredSessions(ss, expired)
  {}

  lemma ExpiredSessionsGo(ss: map<Id, Session>, revoked: Time, expired: Time, gone: set<Id>)
    requires gone <= ExpiredSessions(ss, expired).Keys
    ensures SweepSessions(ss - gone, revoked, expired) == SweepSessions(ss, revoked, expired)
    ensures RevokedSessions(ss - gone, revoked) == RevokedSessions(ss, revoked)
    ensures ExpiredSessions(ss - gone, expired) == ExpiredSessions(ss, expired) - gone
  {}

  lemma SessionsRound(ss: map<Id, Session>, revoked: Time, expired: Time, n: nat)
    ensures var after := CleanSessions(ss, revoked, expired, n);
      && SweepSessions(after, revoked, expired) == SweepSessions(ss, revoked, expired)
      && |RevokedSessions(after, revoked)| == Drop(|RevokedSessions(ss, revoked)|, n)
      && |ExpiredSessions(after, expired)| == Drop(|ExpiredSessions(ss, expired)|, n)
  {
    hide Oldest, SweepSessions, RevokedSessions, ExpiredSessions;
    var one := Oldest(RevokedSessions(ss, revoked), n);
    RevokedSessionsGo(ss, revoked, expired, one);
    Trim(RevokedSessions(ss, revoked), n);
    var two := Oldest(ExpiredSessions(ss - one, expired), n);
    ExpiredSessionsGo(ss - one, revoked, expired, two);
    Trim(ExpiredSessions(ss - one, expired), n);
  }

  lemma AuditsGo(es: map<Id, Audit>, cut: Time, gone: set<Id>)
    requires gone <= OldAudits(es, cut).Keys
    ensures SweepAudits(es - gone, cut) == SweepAudits(es, cut) && OldAudits(es - gone, cut) == OldAudits(es, cut) - gone
  {}

  lemma AuditsRound(es: map<Id, Audit>, cut: Time, n: nat)
    ensures var after := CleanAudits(es, cut, n);
      && SweepAudits(after, cut) == SweepAudits(es, cut)
      && |OldAudits(after, cut)| == Drop(|OldAudits(es, cut)|, n)
  {
    hide Oldest, OldAudits, SweepAudits;
    Trim(OldAudits(es, cut), n);
    AuditsGo(es, cut, Oldest(OldAudits(es, cut), n));
  }

  // ----- Links, which wait for their challenges -----

  // Of each kind, the links past their cutoff, whether or not a challenge still points at them.
  predicate LinksFit(links: map<Id, Link>, cut: Time, most: nat) {
    && |ConsumedLinks(links, map[], cut)| <= most
    && |RevokedLinks(links, map[], cut)| <= most
    && |ExpiredLinks(links, map[], cut)| <= most
  }

  predicate Unreferenced(links: map<Id, Link>, ch: map<Id, Challenge>, cut: Time) {
    forall l :: l in links && PastLink(links[l], cut) ==> !Referenced(ch, l)
  }

  lemma LinksGo(links: map<Id, Link>, cut: Time, gone: set<Id>)
    requires forall l :: l in gone ==> l in links && PastLink(links[l], cut)
    ensures SweepLinks(links - gone, cut) == SweepLinks(links, cut)
  {}

  lemma LinksKept(links: map<Id, Link>, ch: map<Id, Challenge>, cut: Time, n: nat)
    ensures SweepLinks(CleanLinks(links, ch, cut, n), cut) == SweepLinks(links, cut)
  {
    hide Oldest, SweepLinks;
    var a := links - Oldest(ConsumedLinks(links, ch, cut), n);
    LinksGo(links, cut, Oldest(ConsumedLinks(links, ch, cut), n));
    var b := a - Oldest(RevokedLinks(a, ch, cut), n);
    LinksGo(a, cut, Oldest(RevokedLinks(a, ch, cut), n));
    LinksGo(b, cut, Oldest(ExpiredLinks(b, ch, cut), n));
  }

  lemma FewerRows(more: map<Id, Time>, fewer: map<Id, Time>)
    requires fewer.Keys <= more.Keys
    ensures |fewer| <= |more|
  {
    assert more.Keys == fewer.Keys + (more.Keys - fewer.Keys);
  }

  lemma FewerFit(links: map<Id, Link>, after: map<Id, Link>, cut: Time, most: nat)
    requires LinksFit(links, cut, most) && forall l :: l in after ==> l in links && after[l] == links[l]
    ensures LinksFit(after, cut, most)
  {
    FewerRows(ConsumedLinks(links, map[], cut), ConsumedLinks(after, map[], cut));
    FewerRows(RevokedLinks(links, map[], cut), RevokedLinks(after, map[], cut));
    FewerRows(ExpiredLinks(links, map[], cut), ExpiredLinks(after, map[], cut));
  }

  lemma ConsumedLinksGo(links: map<Id, Link>, cut: Time, gone: set<Id>)
    ensures ConsumedLinks(links - gone, map[], cut) == ConsumedLinks(links, map[], cut) - gone
  {}

  lemma RevokedLinksGo(links: map<Id, Link>, cut: Time, gone: set<Id>)
    ensures RevokedLinks(links - gone, map[], cut) == RevokedLinks(links, map[], cut) - gone
  {}

  lemma ExpiredLinksGo(links: map<Id, Link>, cut: Time, gone: set<Id>)
    ensures ExpiredLinks(links - gone, map[], cut) == ExpiredLinks(links, map[], cut) - gone
  {}

  lemma StillUnreferenced(links: map<Id, Link>, ch: map<Id, Challenge>, links': map<Id, Link>, ch': map<Id, Challenge>, cut: Time)
    requires Unreferenced(links, ch, cut)
    requires forall l :: l in links' ==> l in links && links'[l] == links[l]
    requires forall c :: c in ch' ==> c in ch && ch'[c] == ch[c]
    ensures Unreferenced(links', ch', cut)
  {}

  // The three kinds of links past their cutoff, counted apart.
  predicate KindsFit(links: map<Id, Link>, cut: Time, consumed: nat, revoked: nat, expired: nat) {
    && |ConsumedLinks(links, map[], cut)| <= consumed
    && |RevokedLinks(links, map[], cut)| <= revoked
    && |ExpiredLinks(links, map[], cut)| <= expired
  }

  lemma ConsumedLinksTaken(links: map<Id, Link>, ch: map<Id, Challenge>, f: Time, cut: Time, n: nat)
    requires f <= cut && Unreferenced(links, ch, f)
    ensures var past := ConsumedLinks(links, map[], f); |past - Oldest(ConsumedLinks(links, ch, cut), n)| <= Drop(|past|, n)
  {
    hide Oldest;
    OldestTakesPast(ConsumedLinks(links, ch, cut), ConsumedLinks(links, map[], f), f, n);
  }

  lemma RevokedLinksTaken(links: map<Id, Link>, ch: map<Id, Challenge>, f: Time, cut: Time, n: nat)
    requires f <= cut && Unreferenced(links, ch, f)
    ensures var past := RevokedLinks(links, map[], f); |past - Oldest(RevokedLinks(links, ch, cut), n)| <= Drop(|past|, n)
  {
    hide Oldest;
    OldestTakesPast(RevokedLinks(links, ch, cut), RevokedLinks(links, map[], f), f, n);
  }

  lemma ExpiredLinksTaken(links: map<Id, Link>, ch: map<Id, Challenge>, f: Time, cut: Time, n: nat)
    requires f <= cut && Unreferenced(links, ch, f)
    ensures var past := ExpiredLinks(links, map[], f); |past - Oldest(ExpiredLinks(links, ch, cut), n)| <= Drop(|past|, n)
  {
    hide Oldest;
    OldestTakesPast(ExpiredLinks(links, ch, cut), ExpiredLinks(links, map[], f), f, n);
  }

  lemma LinksWithoutGone(links: map<Id, Link>, ch: map<Id, Challenge>, gone: set<Id>, f: Time)
    requires Unreferenced(links, ch, f)
    ensures Unreferenced(links - gone, ch, f)
    ensures |ConsumedLinks(links - gone, map[], f)| == |ConsumedLinks(links, map[], f) - gone| <= |ConsumedLinks(links, map[], f)|
    ensures |RevokedLinks(links - gone, map[], f)| == |RevokedLinks(links, map[], f) - gone| <= |RevokedLinks(links, map[], f)|
    ensures |ExpiredLinks(links - gone, map[], f)| == |ExpiredLinks(links, map[], f) - gone| <= |ExpiredLinks(links, map[], f)|
  {
    hide ConsumedLinks, RevokedLinks, ExpiredLinks, Unreferenced;
    StillUnreferenced(links, ch, links - gone, ch, f);
    ConsumedLinksGo(links, f, gone);
    RevokedLinksGo(links, f, gone);
    ExpiredLinksGo(links, f, gone);
    FewerRows(ConsumedLinks(links, map[], f), ConsumedLinks(links, map[], f) - gone);
    FewerRows(RevokedLinks(links, map[], f), RevokedLinks(links, map[], f) - gone);
    FewerRows(ExpiredLinks(links, map[], f), ExpiredLinks(links, map[], f) - gone);
  }

  lemma ConsumedLinksLeft(links: map<Id, Link>, ch: map<Id, Challenge>, f: Time, cut: Time, n: nat, most: nat)
    requires f <= cut && Unreferenced(links, ch, f) && KindsFit(links, f, most, most, most)
    ensures var after := links - Oldest(ConsumedLinks(links, ch, cut), n);
      KindsFit(after, f, Drop(most, n), most, most) && Unreferenced(after, ch, f)
  {
    hide Oldest, ConsumedLinks, RevokedLinks, ExpiredLinks, Unreferenced;
    ConsumedLinksTaken(links, ch, f, cut, n);
    LinksWithoutGone(links, ch, Oldest(ConsumedLinks(links, ch, cut), n), f);
  }

  lemma RevokedLinksLeft(links: map<Id, Link>, ch: map<Id, Challenge>, f: Time, cut: Time, n: nat, most: nat)
    requires f <= cut && Unreferenced(links, ch, f) && KindsFit(links, f, Drop(most, n), most, most)
    ensures var after := links - Oldest(RevokedLinks(links, ch, cut), n);
      KindsFit(after, f, Drop(most, n), Drop(most, n), most) && Unreferenced(after, ch, f)
  {
    hide Oldest, ConsumedLinks, RevokedLinks, ExpiredLinks, Unreferenced;
    RevokedLinksTaken(links, ch, f, cut, n);
    LinksWithoutGone(links, ch, Oldest(RevokedLinks(links, ch, cut), n), f);
  }

  lemma ExpiredLinksLeft(links: map<Id, Link>, ch: map<Id, Challenge>, f: Time, cut: Time, n: nat, most: nat)
    requires f <= cut && Unreferenced(links, ch, f) && KindsFit(links, f, Drop(most, n), Drop(most, n), most)
    ensures var after := links - Oldest(ExpiredLinks(links, ch, cut), n);
      KindsFit(after, f, Drop(most, n), Drop(most, n), Drop(most, n)) && Unreferenced(after, ch, f)
  {
    hide Oldest, ConsumedLinks, RevokedLinks, ExpiredLinks, Unreferenced;
    ExpiredLinksTaken(links, ch, f, cut, n);
    LinksWithoutGone(links, ch, Oldest(ExpiredLinks(links, ch, cut), n), f);
  }

  // Links whose challenges are gone go by the batch.
  lemma LinksLeft(links: map<Id, Link>, ch: map<Id, Challenge>, f: Time, cut: Time, n: nat, most: nat)
    requires f <= cut && Unreferenced(links, ch, f) && LinksFit(links, f, most)
    ensures LinksFit(CleanLinks(links, ch, cut, n), f, Drop(most, n))
  {
    hide Oldest, Unreferenced, ConsumedLinks, RevokedLinks, ExpiredLinks, Drop;
    var a := links - Oldest(ConsumedLinks(links, ch, cut), n);
    var b := a - Oldest(RevokedLinks(a, ch, cut), n);
    ConsumedLinksLeft(links, ch, f, cut, n, most);
    RevokedLinksLeft(a, ch, f, cut, n, most);
    ExpiredLinksLeft(b, ch, f, cut, n, most);
  }

  // ----- Many rounds -----

  predicate ChallengesFit(ch: map<Id, Challenge>, cut: Time, most: nat) {
    |ConsumedChallenges(ch, cut)| <= most && |ExpiredChallenges(ch, cut)| <= most
  }

  predicate RecordsFit(db: Db, cut: Cutoffs, most: nat) {
    && |RevokedSessions(db.sessions, cut.revokedSession)| <= most
    && |ExpiredSessions(db.sessions, cut.expiredSession)| <= most
    && |OldAudits(db.audits, cut.audit)| <= most
  }

  lemma OneLess(most: nat, n: nat, k: nat)
    requires most <= k * n && k > 0
    ensures Drop(most, n) <= (k - 1) * n
  {
    assert (k - 1) * n == k * n - n;
  }

  lemma NoneLeftC(ch: map<Id, Challenge>, cut: Time)
    requires ChallengesFit(ch, cut, 0)
    ensures SweepChallenges(ch, cut) == ch
  {
    assert forall c :: c in ch ==> c !in ConsumedChallenges(ch, cut) && c !in ExpiredChallenges(ch, cut);
  }

  lemma NoneLeftR(db: Db, cut: Cutoffs)
    requires RecordsFit(db, cut, 0)
    ensures SweepSessions(db.sessions, cut.revokedSession, cut.expiredSession) == db.sessions
    ensures SweepAudits(db.audits, cut.audit) == db.audits
  {
    assert forall s :: s in db.sessions ==>
      s !in RevokedSessions(db.sessions, cut.revokedSession) && s !in ExpiredSessions(db.sessions, cut.expiredSession);
    assert forall e :: e in db.audits ==> e !in OldAudits(db.audits, cut.audit);
  }

  lemma NoneLeftL(links: map<Id, Link>, cut: Time)
    requires LinksFit(links, cut, 0)
    ensures SweepLinks(links, cut) == links
  {
    assert forall l :: l in links ==>
      l !in ConsumedLinks(links, map[], cut) && l !in RevokedLinks(links, map[], cut) && l !in ExpiredLinks(links, map[], cut);
  }

  lemma {:induction false} ChallengesConverge(db: Db, cut: Cutoffs, n: nat, k: nat, most: nat)
    requires ChallengesFit(db.challenges, cut.challenge, most) && most <= k * n
    ensures Rounds(db, cut, n, k).challenges == SweepChallenges(db.challenges, cut.challenge)
    decreases k
  {
    hide SweepChallenges, CleanChallenges, CleanLinks, CleanSessions, CleanAudits, ConsumedChallenges, ExpiredChallenges;
    if k == 0 {
      NoneLeftC(db.challenges, cut.challenge);
    } else {
      ChallengesRound(db.challenges, cut.challenge, n);
      OneLess(most, n, k);
      ChallengesConverge(Cleanup(db, cut, n), cut, n, k - 1, Drop(most, n));
    }
  }

  lemma {:induction false} RecordsConverge(db: Db, cut: Cutoffs, n: nat, k: nat, most: nat)
    requires RecordsFit(db, cut, most) && most <= k * n
    ensures Rounds(db, cut, n, k).sessions == SweepSessions(db.sessions, cut.revokedSession, cut.expiredSession)
    ensures Rounds(db, cut, n, k).audits == SweepAudits(db.audits, cut.audit)
    decreases k
  {
    hide SweepSessions, SweepAudits, CleanChallenges, CleanLinks, CleanSessions, CleanAudits, RevokedSessions, ExpiredSessions, OldAudits;
    if k == 0 {
      NoneLeftR(db, cut);
    } else {
      SessionsRound(db.sessions, cut.revokedSession, cut.expiredSession, n);
      AuditsRound(db.audits, cut.audit, n);
      OneLess(most, n, k);
      RecordsConverge(Cleanup(db, cut, n), cut, n, k - 1, Drop(most, n));
    }
  }

  // However many rounds pass, what is to stay stays and no kind of link grows.
  lemma {:induction false} LinksBide(db: Db, cut: Cutoffs, n: nat, k: nat, most: nat)
    requires LinksFit(db.links, cut.link, most)
    ensures var after := Rounds(db, cut, n, k);
      SweepLinks(after.links, cut.link) == SweepLinks(db.links, cut.link) && LinksFit(after.links, cut.link, most)
    decreases k
  {
    hide SweepLinks, LinksFit, CleanChallenges, CleanLinks, CleanSessions, CleanAudits;
    if k > 0 {
      var ch := CleanChallenges(db.challenges, cut.challenge, n);
      LinksKept(db.links, ch, cut.link, n);
      LinksShrink(db.links, ch, cut.link, n);
      FewerFit(db.links, CleanLinks(db.links, ch, cut.link, n), cut.link, most);
      LinksBide(Cleanup(db, cut, n), cut, n, k - 1, most);
    }
  }

  lemma {:induction false} LinksConverge(db: Db, cut: Cutoffs, n: nat, k: nat, most: nat)
    requires Unreferenced(db.links, db.challenges, cut.link) && LinksFit(db.links, cut.link, most) && most <= k * n
    ensures Rounds(db, cut, n, k).links == SweepLinks(db.links, cut.link)
    decreases k
  {
    hide SweepLinks, LinksFit, Unreferenced, CleanChallenges, CleanLinks, CleanSessions, CleanAudits;
    if k == 0 {
      NoneLeftL(db.links, cut.link);
    } else {
      var ch := CleanChallenges(db.challenges, cut.challenge, n);
      var links := CleanLinks(db.links, ch, cut.link, n);
      ChallengesShrink(db.challenges, cut.challenge, n);
      LinksShrink(db.links, ch, cut.link, n);
      StillUnreferenced(db.links, db.challenges, db.links, ch, cut.link);
      StillUnreferenced(db.links, db.challenges, links, ch, cut.link);
      LinksKept(db.links, ch, cut.link, n);
      LinksLeft(db.links, ch, cut.link, cut.link, n, most);
      OneLess(most, n, k);
      LinksConverge(Cleanup(db, cut, n), cut, n, k - 1, Drop(most, n));
    }
  }

  lemma {:induction false} RoundsAdd(db: Db, cut: Cutoffs, n: nat, j: nat, k: nat)
    ensures Rounds(db, cut, n, j + k) == Rounds(Rounds(db, cut, n, j), cut, n, k)
    decreases j
  {
    hide Cleanup;
    if j > 0 {
      RoundsAdd(Cleanup(db, cut, n), cut, n, j - 1, k);
    }
  }

  lemma {:induction false} OthersStay(db: Db, cut: Cutoffs, n: nat, k: nat)
    ensures Rounds(db, cut, n, k) == db.(challenges := Rounds(db, cut, n, k).challenges, links := Rounds(db, cut, n, k).links,
                                         sessions := Rounds(db, cut, n, k).sessions, audits := Rounds(db, cut, n, k).audits)
    decreases k
  {
    hide CleanChallenges, CleanLinks, CleanSessions, CleanAudits;
    if k > 0 {
      OthersStay(Cleanup(db, cut, n), cut, n, k - 1);
    }
  }

  // The challenge points at a link past its cutoff.
  predicate Blocks(c: Challenge, links: map<Id, Link>, cut: Cutoffs) {
    c.link.Some? && c.link.value in links && PastLink(links[c.link.value], cut.link)
  }

  // Every link past its cutoff has only challenges past theirs.
  predicate Outlived(db: Db, cut: Cutoffs) {
    forall c :: c in db.challenges && Blocks(db.challenges[c], db.links, cut) ==> PastChallenge(db.challenges[c], cut.challenge)
  }

  lemma SweptUnreferenced(db: Db, cut: Cutoffs, links: map<Id, Link>)
    requires Outlived(db, cut) && forall l :: l in links ==> l in db.links && links[l] == db.links[l]
    ensures Unreferenced(links, SweepChallenges(db.challenges, cut.challenge), cut.link)
  {}

  lemma {:induction false} RoundsShrink(db: Db, cut: Cutoffs, n: nat, k: nat)
    ensures forall l :: l in Rounds(db, cut, n, k).links ==> l in db.links && Rounds(db, cut, n, k).links[l] == db.links[l]
    decreases k
  {
    hide Cleanup;
    if k > 0 {
      CleanupShrinks(db, cut, n);
      RoundsShrink(Cleanup(db, cut, n), cut, n, k - 1);
    }
  }

  // j rounds for the challenges, k more for everything else, and nothing past its cutoff is left.
  lemma Converges(db: Db, cut: Cutoffs, n: nat, j: nat, k: nat)
    requires Outlived(db, cut)
    requires ChallengesFit(db.challenges, cut.challenge, j * n)
    requires LinksFit(db.links, cut.link, k * n) && RecordsFit(db, cut, k * n)
    ensures Rounds(db, cut, n, j + k) == Sweep(db, cut)
  {
    hide Cleanup, Rounds, SweepChallenges, SweepLinks, SweepSessions, SweepAudits, ChallengesFit, LinksFit, RecordsFit, Outlived, Unreferenced;
    var mid := Rounds(db, cut, n, j);
    RoundsAdd(db, cut, n, j, k);
    ChallengesConverge(db, cut, n, j, j * n);
    LinksBide(db, cut, n, j, k * n);
    RoundsShrink(db, cut, n, j);
    SweptUnreferenced(db, cut, mid.links);
    LinksConverge(mid, cut, n, k, k * n);
    assert k * n <= (j + k) * n by { assert (j + k) * n == j * n + k * n; }
    RecordsConverge(db, cut, n, j + k, k * n);
    assert j * n <= (j + k) * n by { assert (j + k) * n == j * n + k * n; }
    ChallengesConverge(db, cut, n, j + k, j * n);
    OthersStay(db, cut, n, j + k);
  }

  // A challenge that is not yet past its cutoff keeps its link, however many rounds pass.
  lemma {:induction false} Starves(db: Db, cut: Cutoffs, n: nat, k: nat, c: Id)
    requires c in db.challenges && !PastChallenge(db.challenges[c], cut.challenge) && Blocks(db.challenges[c], db.links, cut)
    ensures db.challenges[c].link.value in Rounds(db, cut, n, k).links
    decreases k
  {
    hide Rounds, CleanChallenges, CleanLinks, CleanSessions, CleanAudits;
    var l := db.challenges[c].link.value;
    if k == 0 {
      assert Rounds(db, cut, n, 0) == db by { RoundsZero(db, cut, n); }
    } else {
      var ch := CleanChallenges(db.challenges, cut.challenge, n);
      NotYetChallenge(db.challenges, cut.challenge, n, c);
      ReferencedStay(db.links, ch, cut.link, n, c);
      RoundsMore(db, cut, n, k);
      Starves(Cleanup(db, cut, n), cut, n, k - 1, c);
    }
  }

  lemma RoundsZero(db: Db, cut: Cutoffs, n: nat)
    ensures Rounds(db, cut, n, 0) == db
  {}

  lemma RoundsMore(db: Db, cut: Cutoffs, n: nat, k: nat)
    requires k > 0
    ensures Rounds(db, cut, n, k) == Rounds(Cleanup(db, cut, n), cut, n, k - 1)
  {
    hide Cleanup;
  }

  lemma NotYetChallenge(ch: map<Id, Challenge>, cut: Time, n: nat, c: Id)
    requires c in ch && !PastChallenge(ch[c], cut)
    ensures c in CleanChallenges(ch, cut, n) && CleanChallenges(ch, cut, n)[c] == ch[c]
  {
    hide Oldest;
  }

  lemma ReferencedStay(links: map<Id, Link>, ch: map<Id, Challenge>, cut: Time, n: nat, c: Id)
    requires c in ch && ch[c].link.Some? && ch[c].link.value in links
    ensures var l := ch[c].link.value; l in CleanLinks(links, ch, cut, n) && CleanLinks(links, ch, cut, n)[l] == links[l]
  {
    hide Oldest;
    assert Referenced(ch, ch[c].link.value);
  }

  lemma Enough(db: Db, cut: Cutoffs, n: nat) returns (k: nat)
    requires n > 0 && Outlived(db, cut)
    ensures Rounds(db, cut, n, k) == Sweep(db, cut)
  {
    hide Rounds, Sweep, Outlived, ConsumedChallenges, ExpiredChallenges, ConsumedLinks, RevokedLinks, ExpiredLinks,
         RevokedSessions, ExpiredSessions, OldAudits;
    var c := |ConsumedChallenges(db.challenges, cut.challenge)| + |ExpiredChallenges(db.challenges, cut.challenge)|;
    var l := |ConsumedLinks(db.links, map[], cut.link)| + |RevokedLinks(db.links, map[], cut.link)| + |ExpiredLinks(db.links, map[], cut.link)|;
    var r := |RevokedSessions(db.sessions, cut.revokedSession)| + |ExpiredSessions(db.sessions, cut.expiredSession)| + |OldAudits(db.audits, cut.audit)|;
    TimesAtLeast(c, n);
    TimesAtLeast(l + r, n);
    Converges(db, cut, n, c, l + r);
    k := c + (l + r);
  }

  lemma TimesAtLeast(x: nat, n: nat)
    requires n > 0
    ensures x <= x * n
  {}

  // Some number of rounds reaches the sweep exactly when no live challenge holds a past link back.
  lemma SweepsIff(db: Db, cut: Cutoffs, n: nat)
    requires n > 0
    ensures Outlived(db, cut) <==> exists k :: Rounds(db, cut, n, k) == Sweep(db, cut)
  {
    hide Rounds;
    if Outlived(db, cut) {
      hide Outlived, Sweep;
      var k := Enough(db, cut, n);
    } else {
      var c :| c in db.challenges && Blocks(db.challenges[c], db.links, cut) && !PastChallenge(db.challenges[c], cut.challenge);
      forall k: nat
        ensures Rounds(db, cut, n, k) != Sweep(db, cut)
      {
        Starves(db, cut, n, k, c);
      }
    }
  }
}
