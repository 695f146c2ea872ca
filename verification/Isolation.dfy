/** Wiping reader data and deleting an account reach no further than their own user. */
module Isolation {
  import opened Schema
  import opened Atomic
  import opened Protocol
  import opened Runs

  // The rows of `after` owned by others than `u` are the rows of `before`, and there are no more.
  ghost predicate OwnedByOthers(before: map<Id, Id>, after: map<Id, Id>, u: Id) {
    && (forall x :: x in after <==> x in before && before[x] != u)
    && (forall x :: x in after ==> after[x] == before[x])
  }

  ghost predicate SubsOfOthers(r: Reader, after: Reader, u: Id) {
    && (forall k :: k in after.subs <==> k in r.subs && k.0 != u)
    && (forall k :: k in after.subs ==> after.subs[k] == r.subs[k])
  }

  // Each import item of others still waits for the job it waited for, and only u's jobs are gone.
  ghost predicate ItemsOfOthers(r: Reader, after: Reader, u: Id) {
    && (forall i :: i in after.items <==> i in r.items && r.items[i].owner != u)
    && (forall i :: i in after.items ==> after.items[i] == r.items[i])
    && (forall j :: j in after.jobs <==> j in r.jobs && forall i :: i in r.items && r.items[i].owner == u ==> r.items[i].job != Some(j))
  }

  // A feed remains exactly when somebody else subscribes to it.
  ghost predicate FeedsOfOthers(r: Reader, after: Reader, u: Id) {
    && (forall f :: f in after.feeds <==> f in r.feeds && exists k :: k in r.subs && k.0 != u && k.1 == f)
    && (forall f :: f in after.feeds ==> Subscribed(after, f))
  }

  // `after` holds nothing of user `u` and everything of everybody else.
  ghost predicate OnlyOthers(r: Reader, after: Reader, u: Id) {
    && OwnedByOthers(r.categories, after.categories, u) && OwnedByOthers(r.imports, after.imports, u)
    && SubsOfOthers(r, after, u) && ItemsOfOthers(r, after, u) && FeedsOfOthers(r, after, u)
  }

  // No two items share a job, so the jobs dropped with one user's items are nobody else's.
  lemma JobsOfOthers(users: map<Id, User>, r: Reader, u: Id)
    requires ReaderOk(users, r)
    ensures forall i :: i in r.items && r.items[i].owner != u ==> DropJobs(r, JobsOf(r.items, u)).items[i] == r.items[i]
  {}

  lemma ItemsWiped(users: map<Id, User>, r: Reader, u: Id)
    requires ReaderOk(users, r)
    ensures ItemsOfOthers(r, WipeReader(r, u), u)
  {
    JobsOfOthers(users, r, u);
    assert WipeReader(r, u).items == DropImports(DropJobs(r, JobsOf(r.items, u)), u).items;
    hide WipeReader;
  }

  lemma FeedsWiped(r: Reader, u: Id)
    ensures FeedsOfOthers(r, WipeReader(r, u), u) && SubsOfOthers(r, WipeReader(r, u), u)
  {
    var after := WipeReader(r, u);
    assert after.subs == DropSubs(r, u).subs && after.feeds == DropOrphanFeeds(DropSubs(r, u)).feeds;
    hide WipeReader;
    assert forall k :: k in after.subs <==> k in r.subs && k.0 != u;
  }

  lemma OwnedWiped(r: Reader, u: Id)
    ensures var after := WipeReader(r, u);
      OwnedByOthers(r.categories, after.categories, u) && OwnedByOthers(r.imports, after.imports, u)
  {}

  lemma WipeIsOwn(users: map<Id, User>, r: Reader, u: Id)
    requires ReaderOk(users, r)
    ensures OnlyOthers(r, WipeReader(r, u), u)
  {
    hide WipeReader, OwnedByOthers, SubsOfOthers, ItemsOfOthers, FeedsOfOthers;
    ItemsWiped(users, r, u);
    FeedsWiped(r, u);
    OwnedWiped(r, u);
  }

  lemma WipeIsolates(db: Db, a: Action)
    requires a.Wipe? && ReaderOk(db.users, db.reader)
    ensures var after := Perform(db, a);
      && (after.outcome != Done ==> after.db == db)
      && (after.outcome == Done ==> OnlyOthers(db.reader, after.db.reader, a.user))
      && after.db == db.(reader := after.db.reader, audits := after.db.audits)
  {
    WipeIsOwn(db.users, db.reader, a.user);
    hide OnlyOthers, WipeReader, ReaderOk;
  }

  lemma DeleteWipes(db: Db, u: Id)
    ensures DropOrphanFeeds(ReaderWithout(DropJobs(db.reader, JobsOf(db.reader.items, u)), u)) == WipeReader(db.reader, u)
  {}

  lemma DeleteIsolates(db: Db, a: Action)
    requires a.Delete? && ReaderOk(db.users, db.reader)
    ensures var after := Perform(db, a);
      && (after.outcome != Done ==> after.db == db)
      && (after.outcome == Done ==> OnlyOthers(db.reader, after.db.reader, a.user))
  {
    WipeIsOwn(db.users, db.reader, a.user);
    DeleteWipes(db, a.user);
    hide OnlyOthers, WipeReader, ReaderWithout, DropOrphanFeeds, DropJobs, ReaderOk;
  }

  // ----- Deleting an account, beyond the reader -----

  // The credentials that remain are those of others, each as it was.
  ghost predicate CredentialsOfOthers(db: Db, after: Db, u: Id) {
    && (forall p :: p in after.passkeys <==> p in db.passkeys && db.passkeys[p].user != u)
    && (forall p :: p in after.passkeys ==> after.passkeys[p] == db.passkeys[p])
    && (forall s :: s in after.sessions <==> s in db.sessions && db.sessions[s].user != u)
    && (forall s :: s in after.sessions ==> after.sessions[s] == db.sessions[s])
    && (forall t :: t in after.tokens <==> t in db.tokens && db.tokens[t].user != u)
    && (forall t :: t in after.tokens ==> after.tokens[t] == db.tokens[t])
  }

  // A link of another keeps everything but the name of a maker who is gone.
  ghost predicate LinksOfOthers(db: Db, after: Db, u: Id) {
    && (forall l :: l in after.links <==> l in db.links && db.links[l].user != u)
    && (forall l :: l in after.links ==> after.links[l] == db.links[l].(createdBy := after.links[l].createdBy))
    && (forall l :: l in after.links ==>
          after.links[l].createdBy == if db.links[l].createdBy == Some(u) then None else db.links[l].createdBy)
    && (forall c :: c in after.challenges <==> c in db.challenges && db.challenges[c].user != Some(u))
    && (forall c :: c in after.challenges ==> after.challenges[c] == db.challenges[c])
  }

  // The record of events keeps every event and names the user in none.
  ghost predicate EventsWithout(db: Db, after: Db, u: Id, eventId: Id) {
    && (forall e :: e in after.audits <==> e in db.audits || e == eventId)
    && (forall e :: e in after.audits ==> after.audits[e].user != Some(u) && after.audits[e].actor != Some(u))
    && (forall e :: e in db.audits && e != eventId ==>
          after.audits[e].kind == db.audits[e].kind && after.audits[e].createdAt == db.audits[e].createdAt)
  }

  // The account deletion, whatever it makes of the reader tables in between.
  function Removed(db: Db, u: Id, audits: map<Id, Audit>, before: Reader, after: Reader): Db {
    RemoveUser(db.(audits := audits, reader := before), u).(reader := after)
  }

  lemma CredentialsSpared(db: Db, u: Id, audits: map<Id, Audit>, before: Reader, after: Reader)
    ensures CredentialsOfOthers(db, Removed(db, u, audits, before, after), u)
  {
    hide LinksWithout, ChallengesWithout, AuditsWithout, ReaderWithout;
  }

  lemma LinksSpared(db: Db, u: Id, audits: map<Id, Audit>, before: Reader, after: Reader)
    requires ChallengeOwnersOk(db.links, db.challenges)
    ensures LinksOfOthers(db, Removed(db, u, audits, before, after), u)
  {
    hide PasskeysWithout, SessionsWithout, TokensWithout, AuditsWithout, ReaderWithout;
  }

  lemma EventsForget(db: Db, u: Id, eventId: Id, event: Audit, before: Reader, after: Reader)
    ensures EventsWithout(db, Removed(db, u, db.audits[eventId := event], before, after), u, eventId)
  {
    hide PasskeysWithout, SessionsWithout, LinksWithout, ChallengesWithout, TokensWithout, ReaderWithout;
  }

  lemma DeleteRemoves(db: Db, a: Action)
    requires a.Delete? && Perform(db, a).outcome == Done
    ensures Perform(db, a).db == Removed(db, a.user, db.audits[a.eventId := Audit(Some(a.user), Some(a.user), AccountDeleted, a.now)],
                                         DropJobs(db.reader, JobsOf(db.reader.items, a.user)), Perform(db, a).db.reader)
    ensures a.user in db.users && Perform(db, a).db.users == db.users - {a.user}
  {
    hide PasskeysWithout, SessionsWithout, LinksWithout, ChallengesWithout, TokensWithout, AuditsWithout, ReaderWithout,
         DropOrphanFeeds, DropJobs, JobsOf, Fresh, OtherAdmin;
  }

  // The deletion of an account does nothing, or removes the user with every row of his and leaves
  // everybody else's passkeys, sessions, tokens, links and challenges as they were.
  lemma DeleteSparesOthers(db: Db, a: Action)
    requires a.Delete? && ChallengeOwnersOk(db.links, db.challenges)
    ensures var after := Perform(db, a);
      && (after.outcome != Done ==> after.db == db)
      && (after.outcome == Done ==>
            && after.db.users == db.users - {a.user} && a.user in db.users
            && CredentialsOfOthers(db, after.db, a.user) && LinksOfOthers(db, after.db, a.user)
            && EventsWithout(db, after.db, a.user, a.eventId))
  {
    hide CredentialsOfOthers, LinksOfOthers, EventsWithout, Removed, DropJobs, JobsOf, ChallengeOwnersOk, RemoveUser, DropOrphanFeeds, MayDelete;
    var event := Audit(Some(a.user), Some(a.user), AccountDeleted, a.now);
    if Perform(db, a).outcome == Done {
      DeleteRemoves(db, a);
      var before, after := DropJobs(db.reader, JobsOf(db.reader.items, a.user)), Perform(db, a).db.reader;
      hide Perform;
      CredentialsSpared(db, a.user, db.audits[a.eventId := event], before, after);
      LinksSpared(db, a.user, db.audits[a.eventId := event], before, after);
      EventsForget(db, a.user, a.eventId, event, before, after);
    }
  }
}
