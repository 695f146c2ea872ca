/** What the log of a run says: which steps consume, redeem, mint and take away. */
module Ledger {
  import opened Schema
  import opened Atomic
  import opened Retention
  import opened Protocol
  import opened History
  import opened Runs
  import Guarding
  import Integrity

  // ----- Which tables a step can touch -----

  lemma ChallengesFrame(db: Db, a: Action)
    requires !(a.IssueAuth? || a.IssueAccess? || a.IssueRegistration? || a.ConsumeAuth? || a.ConsumeReg? || a.Delete? || a.Clean?)
    ensures Perform(db, a).db.challenges == db.challenges
  {}

  lemma PasskeysFrame(db: Db, a: Action)
    requires !(a.CompleteAuth? || a.CompleteReg? || a.DropPasskey? || a.Delete?)
    ensures Perform(db, a).db.passkeys == db.passkeys
  {}

  lemma LinksFrame(db: Db, a: Action)
    requires !(a.IssueRegistration? || a.CompleteReg? || a.Enroll? || a.Recover? || a.EndLink? || a.Bootstrap?
               || a.OperatorRecover? || a.Lock? || a.Delete? || a.Clean?)
    ensures Perform(db, a).db.links == db.links
  {}

  // ----- Administrators -----

  predicate BootstrapsOk(w: World) {
    w.log.bootstraps == if w.db.users == map[] then 0 else 1
  }

  lemma UsersStay(db: Db, a: Action)
    requires Guarded(db) && db.users != map[]
    ensures Perform(db, a).db.users != map[] && !(a.Bootstrap? && Perform(db, a).outcome == Done)
  {
    hide Guarded;
    if a.Delete? {
      Guarding.DeleteKeeps(db, a);
    } else if a.Clean? {
      CleanupShrinks(db, CutoffsAt(a.now), AUTH_CLEANUP_BATCH_SIZE);
    } else {
      var u :| u in db.users;
      assert u in Perform(db, a).db.users;
    }
  }

  lemma UsersFrame(db: Db, a: Action)
    requires !(a.Enroll? || a.Bootstrap? || a.Lock? || a.Unlock? || a.Delete?)
    ensures Perform(db, a).db.users == db.users
  {}

  lemma NoUsersStay(db: Db, a: Action)
    requires db.users == map[]
    ensures if a.Bootstrap? && Perform(db, a).outcome == Done then Perform(db, a).db.users != map[] else Perform(db, a).db.users == map[]
  {
    if a.Bootstrap? {
      hide LinkFails;
      assert Perform(db, a).outcome == Done ==> a.u.id in Perform(db, a).db.users;
    } else if !(a.Enroll? || a.Lock? || a.Unlock? || a.Delete?) {
      hide Perform;
      UsersFrame(db, a);
    } else {
      hide Fresh, RevokeSessions, RevokeLinks;
    }
  }

  lemma BootstrapsStep(w: World, a: Action)
    requires Base(w) && BootstrapsOk(w) && Allowed(w, a)
    ensures BootstrapsOk(Next(w, a))
  {
    hide Perform;
    if w.db.users == map[] { NoUsersStay(w.db, a); } else { UsersStay(w.db, a); }
  }

  // ----- Challenges are consumed at most once -----

  predicate NoDuplicates(s: seq<Id>) {
    forall i, j :: 0 <= i < j < |s| ==> s[i] != s[j]
  }

  // The log lists exactly the consumed challenges among the rows, and only drawn ids.
  predicate ConsumedOk(w: World) {
    && NoDuplicates(w.log.consumed)
    && (forall c :: c in w.log.consumed ==> c in w.usedIds)
    && (forall c :: c in w.db.challenges ==> (c in w.log.consumed <==> w.db.challenges[c].consumedAt.Some?))
  }

  ghost predicate RowsKept<T>(before: map<Id, T>, after: map<Id, T>) {
    forall x :: x in before && x in after ==> after[x] == before[x]
  }

  lemma PutKeepsRows<T>(before: map<Id, T>, id: Id, row: T)
    requires id !in before
    ensures RowsKept(before, before[id := row])
  {}

  lemma IssuesKeepRows(db: Db, a: Action)
    requires a.IssueAuth? || a.IssueAccess? || a.IssueRegistration?
    ensures RowsKept(db.challenges, Perform(db, a).db.challenges)
  {
    hide RowsKept, LinkFails, Issuable, OwnLink;
    var after := Perform(db, a).db.challenges;
    if after != db.challenges {
      assert a.c.id !in db.challenges;
      PutKeepsRows(db.challenges, a.c.id, after[a.c.id]);
    } else {
      SameKeepsRows(db.challenges);
    }
  }

  lemma SameKeepsRows<T>(t: map<Id, T>)
    ensures RowsKept(t, t)
  {}

  lemma DeleteKeepsRows(db: Db, a: Action)
    requires a.Delete?
    ensures RowsKept(db.challenges, Perform(db, a).db.challenges)
  {
    hide Fresh, OtherAdmin;
  }

  lemma ChallengesKept(db: Db, a: Action)
    requires !(a.ConsumeAuth? || a.ConsumeReg?)
    ensures RowsKept(db.challenges, Perform(db, a).db.challenges)
  {
    if a.Clean? {
      hide Cleanup;
      CleanupShrinks(db, CutoffsAt(a.now), AUTH_CLEANUP_BATCH_SIZE);
    } else {
      hide Perform;
      if a.IssueAuth? || a.IssueAccess? || a.IssueRegistration? { IssuesKeepRows(db, a); }
      else if a.Delete? { DeleteKeepsRows(db, a); }
      else { ChallengesFrame(db, a); }
    }
  }

  // A challenge becomes consumed only in a step that reports success.
  lemma ConsumesOne(db: Db, a: Action)
    requires a.ConsumeAuth? || a.ConsumeReg?
    ensures var after := Perform(db, a);
      if after.outcome == Done then
        && a.challenge in db.challenges && db.challenges[a.challenge].consumedAt.None?
        && after.db.challenges == Consume(db.challenges, a.challenge, a.now)
      else after.db == db
  {}

  lemma ConsumedStep(w: World, a: Action)
    requires Base(w) && ConsumedOk(w) && Allowed(w, a)
    ensures ConsumedOk(Next(w, a))
  {
    hide Perform, Constraints, Guarded;
    if a.ConsumeAuth? || a.ConsumeReg? { ConsumesOne(w.db, a); } else { ChallengesKept(w.db, a); }
    StepLater(w.db, a);
  }

  predicate Injective(m: map<Id, Id>) {
    forall p, q :: p in m && q in m && p != q ==> m[p] != m[q]
  }

  lemma ExtendInjective(m: map<Id, Id>, p: Id, l: Id)
    requires Injective(m) && p !in m && l !in m.Values
    ensures Injective(m[p := l]) && m[p := l].Keys == m.Keys + {p} && m[p := l].Values == m.Values + {l}
  {
    var n := m[p := l];
    assert n[p] == l;
    assert forall q :: q in m ==> n[q] == m[q];
  }

  // ----- Authentications -----

  predicate MintedOk(w: World) {
    && w.log.minted.Keys <= w.usedIds
    && w.log.authConsumed <= w.usedIds
    && w.tickets <= w.log.authConsumed
    && w.log.minted.Values <= w.log.authConsumed - w.tickets
    && Injective(w.log.minted)
    && (forall c :: c in w.log.authConsumed ==> c in w.log.consumed)
  }

  lemma MintedStep(w: World, a: Action)
    requires Base(w) && ConsumedOk(w) && MintedOk(w) && Allowed(w, a)
    ensures MintedOk(Next(w, a))
  {
    hide Perform, Constraints, Guarded, NoDuplicates, Injective;
    if a.CompleteAuth? && Perform(w.db, a).outcome == Done {
      ExtendInjective(w.log.minted, a.completion.session.id, a.challenge);
    }
    if a.ConsumeAuth? {
      ConsumesOne(w.db, a);
      if Perform(w.db, a).outcome == Done {
        assert a.challenge in w.db.challenges && a.challenge !in w.log.consumed;
      }
    }
  }

  // ----- One passkey for each redeemed link -----

  // `pairs` matches the passkeys `ever` inserted to the links `redeemed`, one to one.
  predicate Paired(passkeys: map<Id, Passkey>, links: map<Id, Link>, used: set<Id>,
                   ever: set<Id>, redeemed: set<Id>, pairs: map<Id, Id>) {
    && pairs.Keys == ever <= used && pairs.Values == redeemed <= used && Injective(pairs)
    && passkeys.Keys <= ever
    && (forall l :: l in links ==> (l in redeemed <==> links[l].consumedAt.Some?))
  }

  predicate RedeemedOk(w: World) {
    Paired(w.db.passkeys, w.db.links, w.usedIds, w.log.passkeys, w.log.redeemed, w.log.redeemedBy)
  }

  // Passkeys appear and links become consumed only together, in one successful completion.
  lemma RedeemsOne(db: Db, r: Registration)
    requires OpenLinksOk(db.users, db.links)
    ensures var after := CompleteRegistration(db, r);
      if after.outcome == Done then
        && Redeemable(db, r) && r.passkey.id !in db.passkeys
        && after.db.passkeys == db.passkeys[r.passkey.id := NewPasskeyRow(r)]
        && after.db.links == db.links[r.link := db.links[r.link].(consumedAt := Some(r.now))]
      else after.db.passkeys == db.passkeys && after.db.links == db.links
  {
    if Redeemable(db, r) {
      assert Enabled(db.users, r.user);
    }
  }

  lemma RedeemableIsOpen(db: Db, r: Registration)
    requires Redeemable(db, r)
    ensures r.link in db.links && Open(db.links[r.link])
  {}

  lemma NoOtherInserts(db: Db, a: Action)
    requires !a.CompleteReg?
    ensures Perform(db, a).db.passkeys.Keys <= db.passkeys.Keys
  {
    if !(a.CompleteAuth? || a.DropPasskey? || a.Delete?) {
      hide Perform;
      PasskeysFrame(db, a);
    } else {
      hide SessionFails, CounterHits, OtherPasskey, Fresh;
    }
  }

  lemma PutConsumesNothing(links: map<Id, Link>, l: Id, row: Link)
    requires if l in links then row.consumedAt == links[l].consumedAt else row.consumedAt.None?
    ensures NewlyConsumed(links, links[l := row]) == {}
  {}

  lemma OthersConsumeNothing(links: map<Id, Link>, u: Id, now: Time)
    ensures NewlyConsumed(links, links) == {} && NewlyConsumed(links, RevokeLinks(links, u, now)) == {}
    ensures NewlyConsumed(links, LinksWithout(links, u)) == {}
  {}

  lemma FewerConsumeNothing(links: map<Id, Link>, after: map<Id, Link>)
    requires forall l :: l in after ==> l in links && after[l] == links[l]
    ensures NewlyConsumed(links, after) == {}
  {}

  lemma NewLinksAreOpen(db: Db, a: Action)
    requires a.IssueRegistration? || a.Enroll? || a.Recover? || a.Bootstrap? || a.OperatorRecover?
    ensures NewlyConsumed(db.links, Perform(db, a).db.links) == {}
  {
    hide NewlyConsumed, ChallengeFails, UserClash, OtherAdmin;
    var after := Perform(db, a).db.links;
    OthersConsumeNothing(db.links, 0, 0);
    if after != db.links {
      LinkInserted(db, a);
      hide Perform;
      PutConsumesNothing(db.links, a.l.id, after[a.l.id]);
    }
  }

  lemma LinkInserted(db: Db, a: Action)
    requires a.IssueRegistration? || a.Enroll? || a.Recover? || a.Bootstrap? || a.OperatorRecover?
    requires Perform(db, a).db.links != db.links
    ensures var after := Perform(db, a).db.links;
      a.l.id !in db.links && a.l.id in after && after[a.l.id].consumedAt.None? && after == db.links[a.l.id := after[a.l.id]]
  {
    hide ChallengeFails, UserClash, OtherAdmin;
  }

  lemma NoOtherConsumes(db: Db, a: Action)
    requires !a.CompleteReg?
    ensures NewlyConsumed(db.links, Perform(db, a).db.links) == {}
  {
    hide NewlyConsumed, RevokeLinks, LinksWithout;
    var after := Perform(db, a).db.links;
    OthersConsumeNothing(db.links, 0, 0);
    if a.Clean? {
      hide Cleanup;
      CleanupShrinks(db, CutoffsAt(a.now), AUTH_CLEANUP_BATCH_SIZE);
      FewerConsumeNothing(db.links, after);
    } else if a.Lock? {
      OthersConsumeNothing(db.links, a.target, a.now);
    } else if a.Delete? {
      OthersConsumeNothing(db.links, a.user, a.now);
    } else if a.EndLink? {
      if after != db.links { PutConsumesNothing(db.links, a.link, after[a.link]); }
    } else {
      hide Perform;
      if a.IssueRegistration? || a.Enroll? || a.Recover? || a.Bootstrap? || a.OperatorRecover? {
        NewLinksAreOpen(db, a);
      } else {
        LinksFrame(db, a);
      }
    }
  }

  lemma NoOtherRedeems(db: Db, a: Action)
    requires !a.CompleteReg?
    ensures var after := Perform(db, a).db;
      after.passkeys.Keys <= db.passkeys.Keys && NewlyConsumed(db.links, after.links) == {}
  {
    hide Perform, NewlyConsumed;
    NoOtherInserts(db, a);
    NoOtherConsumes(db, a);
  }

  lemma PairOne(passkeys: map<Id, Passkey>, links: map<Id, Link>, used: set<Id>, ever: set<Id>, redeemed: set<Id>,
                pairs: map<Id, Id>, p: Id, row: Passkey, l: Id, now: Time)
    requires Paired(passkeys, links, used, ever, redeemed, pairs) && p !in used && l in used && l in links && Open(links[l])
    ensures Paired(passkeys[p := row], links[l := links[l].(consumedAt := Some(now))], used + {p},
                   ever + {p}, redeemed + {l}, pairs[p := l])
    ensures passkeys[p := row].Keys - passkeys.Keys == {p}
    ensures NewlyConsumed(links, links[l := links[l].(consumedAt := Some(now))]) == {l}
  {
    ExtendInjective(pairs, p, l);
  }

  // Rows may go, links may come unconsumed; nothing else touches the pairing.
  lemma PairNone(w: World, after: Db, ids: set<Id>)
    requires RedeemedOk(w) && w.db.links.Keys <= w.usedIds && ids !! w.usedIds
    requires after.passkeys.Keys <= w.db.passkeys.Keys && NewlyConsumed(w.db.links, after.links) == {}
    requires exists hashes :: LinksLater(w.db.links, after.links, ids, hashes)
    ensures Paired(after.passkeys, after.links, w.usedIds + ids, w.log.passkeys, w.log.redeemed, w.log.redeemedBy)
    ensures after.passkeys.Keys - w.db.passkeys.Keys == {}
  {
    forall l | l in after.links
      ensures l in w.log.redeemed <==> after.links[l].consumedAt.Some?
    {
      if l in w.db.links && w.db.links[l].consumedAt.None? {
        assert l !in NewlyConsumed(w.db.links, after.links);
      }
    }
  }

  lemma RedeemedDone(w: World, r: Registration)
    requires OpenLinksOk(w.db.users, w.db.links) && w.db.links.Keys <= w.usedIds && r.passkey.id !in w.usedIds
    requires RedeemedOk(w) && CompleteRegistration(w.db, r).outcome == Done
    ensures RedeemedOk(Next(w, CompleteReg(r)))
  {
    RedeemsOne(w.db, r);
    CompleteRegIs(w.db, r);
    RedeemableIsOpen(w.db, r);
    hide Perform, CompleteRegistration, Redeemable, Paired;
    PairOne(w.db.passkeys, w.db.links, w.usedIds, w.log.passkeys, w.log.redeemed, w.log.redeemedBy,
            r.passkey.id, NewPasskeyRow(r), r.link, r.now);
    var after := Next(w, CompleteReg(r));
    WidenUsed(after.db.passkeys, after.db.links, w.usedIds + {r.passkey.id}, after.usedIds, after.log);
  }

  lemma RedeemedStep(w: World, a: Action)
    requires Base(w) && RedeemedOk(w) && Allowed(w, a)
    ensures RedeemedOk(Next(w, a))
  {
    hide Perform, Constraints, CompleteRegistration, Paired, LinksLater;
    var after := Perform(w.db, a);
    if a.CompleteReg? && after.outcome == Done {
      CompleteRegIs(w.db, a.registration);
      RedeemedDone(w, a.registration);
    } else {
      StepLater(w.db, a);
      if a.CompleteReg? {
        CompleteRegIs(w.db, a.registration);
        RedeemsOne(w.db, a.registration);
        assert NewlyConsumed(w.db.links, after.db.links) == {};
      } else {
        NoOtherRedeems(w.db, a);
      }
      PairNone(w, after.db, NewIds(a));
      assert w.log.passkeys + {} == w.log.passkeys && w.log.redeemed + {} == w.log.redeemed;
    }
  }

  lemma CompleteRegIs(db: Db, r: Registration)
    ensures Perform(db, CompleteReg(r)) == CompleteRegistration(db, r)
  {}

  lemma WidenUsed(passkeys: map<Id, Passkey>, links: map<Id, Link>, used: set<Id>, wider: set<Id>, log: Log)
    requires Paired(passkeys, links, used, log.passkeys, log.redeemed, log.redeemedBy) && used <= wider
    ensures Paired(passkeys, links, wider, log.passkeys, log.redeemed, log.redeemedBy)
  {}

  // ----- Holders of passkeys -----

  // The delete that the guard refuses and the final statement performs all the same.
  predicate TakesLast(db: Db, a: Action) {
    && a.DropPasskey? && Owns(db.passkeys, a.user, a.passkey)
    && !OtherPasskey(db.passkeys, a.user, a.passkey) && db.passkeys[a.passkey].updatedAt == a.now
  }

  ghost predicate Holds(passkeys: map<Id, Passkey>, u: Id) {
    exists p :: Owns(passkeys, u, p)
  }

  // User `u`, once a holder and still registered, holds a passkey.
  ghost predicate HolderOk(w: World, u: Id) {
    && w.log.holders <= w.usedIds
    && (u in w.log.holders && u in w.db.users ==> Holds(w.db.passkeys, u))
    && (forall p :: p in w.db.passkeys ==> w.db.passkeys[p].user in w.log.holders)
  }

  ghost predicate TakesAway(db: Db, a: Action, u: Id) {
    (TakesLast(db, a) && a.user == u) || (a.Delete? && a.user == u && Perform(db, a).outcome == Done)
  }

  lemma DropTakes(db: Db, a: Action, u: Id, p: Id)
    requires Owns(db.passkeys, u, p) && a.DropPasskey?
    ensures !Holds(Perform(db, a).db.passkeys, u) <==> TakesAway(db, a, u)
  {
    DropShape(db, a.user, a.passkey, a.eventId, a.now);
    hide DeletePasskey;
    var after := Perform(db, a).db.passkeys;
    if a.passkey != p {
      assert Owns(after, u, p);
    } else if OtherPasskey(db.passkeys, u, p) {
      var q :| q in db.passkeys && q != p && db.passkeys[q].user == u;
      assert Owns(after, u, q);
    } else if after == db.passkeys {
      assert Owns(after, u, p);
    }
  }

  lemma DropShape(db: Db, user: Id, passkey: Id, eventId: Id, now: Time)
    ensures var after := DeletePasskey(db, user, passkey, eventId, now).db.passkeys;
      && (after == db.passkeys || after == db.passkeys - {passkey})
      && (Owns(db.passkeys, user, passkey) && !OtherPasskey(db.passkeys, user, passkey) ==>
            (after != db.passkeys <==> db.passkeys[passkey].updatedAt == now))
  {
    hide OtherPasskey, Enabled;
    if Owns(db.passkeys, user, passkey) { assert passkey in db.passkeys && passkey !in db.passkeys - {passkey}; }
  }

  lemma DeleteTakes(db: Db, a: Action, u: Id, p: Id)
    requires Owns(db.passkeys, u, p) && a.Delete? && u in db.users
    ensures !Holds(Perform(db, a).db.passkeys, u) <==> TakesAway(db, a, u)
  {
    hide Fresh, OtherAdmin;
    if a.user != u { assert Owns(Perform(db, a).db.passkeys, u, p); }
    if Perform(db, a).outcome != Done { assert Owns(Perform(db, a).db.passkeys, u, p); }
  }

  lemma CompletionsLeave(db: Db, a: Action, u: Id, p: Id)
    requires Owns(db.passkeys, u, p) && (a.CompleteAuth? || a.CompleteReg?)
    ensures Holds(Perform(db, a).db.passkeys, u)
  {
    hide SessionFails, CounterHits;
    assert Owns(Perform(db, a).db.passkeys, u, p);
  }

  // A step takes a user's last passkey away exactly when it is such a delete or the account's deletion.
  lemma LastPasskey(db: Db, a: Action, u: Id)
    requires Holds(db.passkeys, u) && u in db.users
    ensures !Holds(Perform(db, a).db.passkeys, u) <==>
      (TakesLast(db, a) && a.user == u) || (a.Delete? && a.user == u && Perform(db, a).outcome == Done)
  {
    hide Perform, TakesLast;
    var p :| Owns(db.passkeys, u, p);
    if a.CompleteAuth? || a.CompleteReg? {
      CompletionsLeave(db, a, u, p);
      OnlyDropTakes(db, a);
    } else if a.DropPasskey? {
      DropTakes(db, a, u, p);
    } else if a.Delete? {
      DeleteTakes(db, a, u, p);
    } else {
      PasskeysFrame(db, a);
      OnlyDropTakes(db, a);
    }
  }

  lemma OnlyDropTakes(db: Db, a: Action)
    requires !a.DropPasskey?
    ensures !TakesLast(db, a)
  {}

  // The guard a caller could check: this is no delete of the user's only passkey in the very millisecond
  // in which that passkey was last written.
  predicate Spares(db: Db, a: Action, u: Id) {
    !(TakesLast(db, a) && a.user == u)
  }

  // A holder still registered after a step that spares him still holds a passkey.
  lemma HolderStays(w: World, a: Action, u: Id)
    requires Used(w) && HolderOk(w, u) && Allowed(w, a) && Spares(w.db, a, u)
    requires u in w.log.holders && u in Perform(w.db, a).db.users
    ensures Holds(Perform(w.db, a).db.passkeys, u)
  {
    hide Perform, SessionsLater, LinksLater, ChallengesLater;
    StepLater(w.db, a);
    assert u in w.db.users;
    LastPasskey(w.db, a, u);
    if !Holds(Perform(w.db, a).db.passkeys, u) {
      DeletedIsGone(w.db, a);
    }
  }

  lemma HolderStep(w: World, a: Action, u: Id)
    requires Base(w) && HolderOk(w, u) && Allowed(w, a) && Spares(w.db, a, u)
    ensures HolderOk(Next(w, a), u)
  {
    hide Perform, Constraints, Guarded, Spares, Allowed, SessionsLater, LinksLater, ChallengesLater, UsersLater, NewIds, NewHashes;
    var after := Next(w, a);
    BaseStep(w, a);
    if u in after.log.holders && u in after.db.users {
      if u in w.log.holders {
        HolderStays(w, a, u);
      } else {
        var p :| p in after.db.passkeys.Keys - w.db.passkeys.Keys && after.db.passkeys[p].user == u;
        assert Owns(after.db.passkeys, u, p);
      }
    }
    NewHolders(w, a);
  }

  // The log of holders names drawn ids only, and every owner of a passkey.
  lemma NewHolders(w: World, a: Action)
    requires Base(w) && Allowed(w, a) && w.log.holders <= w.usedIds
    requires forall p :: p in w.db.passkeys ==> w.db.passkeys[p].user in w.log.holders
    ensures Next(w, a).log.holders <= Next(w, a).usedIds
    ensures forall p :: p in Next(w, a).db.passkeys ==> Next(w, a).db.passkeys[p].user in Next(w, a).log.holders
  {
    hide Perform, Constraints, Guarded, Allowed, SessionsLater, LinksLater, ChallengesLater, UsersLater, NewIds, NewHashes;
    var after := Next(w, a);
    TimelyVerified(w, a);
    StepLater(w.db, a);
    BaseStep(w, a);
    forall p | p in after.db.passkeys
      ensures after.db.passkeys[p].user in after.usedIds
    {
      OwnersExist(after.db, p);
    }
  }

  lemma TimelyVerified(w: World, a: Action)
    requires Allowed(w, a)
    ensures CounterVerified(a)
  {}

  lemma OwnersExist(db: Db, p: Id)
    requires Constraints(db) && p in db.passkeys
    ensures db.passkeys[p].user in db.users
  {}

  lemma DeletedIsGone(db: Db, a: Action)
    requires a.Delete? && Perform(db, a).outcome == Done
    ensures a.user !in Perform(db, a).db.users
  {}

  // ----- All of them together -----

  ghost predicate LedgerOk(w: World) {
    Base(w) && BootstrapsOk(w) && ConsumedOk(w) && MintedOk(w) && RedeemedOk(w)
  }

  lemma LedgerStep(w: World, a: Action)
    requires LedgerOk(w) && Allowed(w, a)
    ensures LedgerOk(Next(w, a))
  {
    hide Base, Next, Allowed, BootstrapsOk, ConsumedOk, MintedOk, RedeemedOk;
    BaseStep(w, a);
    BootstrapsStep(w, a);
    ConsumedStep(w, a);
    MintedStep(w, a);
    RedeemedStep(w, a);
  }

  lemma GenesisLedger()
    ensures LedgerOk(GENESIS) && forall u :: HolderOk(GENESIS, u)
  {
    GenesisBase();
  }

  lemma {:induction false} LedgerAlong(ws: seq<World>, acts: seq<Action>, n: nat)
    requires Trace(ws, acts) && n <= |acts|
    ensures LedgerOk(ws[n])
    decreases n
  {
    hide LedgerOk, Next, Allowed;
    if n == 0 {
      GenesisLedger();
    } else {
      LedgerAlong(ws, acts, n - 1);
      StepAt(ws, acts, n - 1);
      LedgerStep(ws[n - 1], acts[n - 1]);
    }
  }
}
