/** What one rule-present on_update does to the service, as a whole: which events it
    patches, deletes and creates, what it logs and notifies, and that it keeps the store
    consistent.  Built on the closed forms of module SeriesFacts. */
module SeriesTheorems {
  import opened Types
  import opened Recurrence
  import opened Series
  import opened SeriesFacts

  /** The paired positions never touch the original's stored document. */
  lemma {:induction false} PairedStoreOriginal(plan: Plan, u: Updates, store: map<Id, Event>, n: nat)
    requires n <= Pairs(plan) && u.dates.Some? && plan.key in store
    ensures plan.key in PairedStore(plan, u, store, n)
    ensures PairedStore(plan, u, store, n)[plan.key] == store[plan.key]
    decreases n
  {
    if n > 0 {
      PairedStoreOriginal(plan, u, store, n - 1);
    }
  }

  /** An id that is not in the comparison set is named at no position. */
  lemma OutsideUnnamed(plan: Plan, k: Id, n: nat)
    requires k !in Keys(plan.existing)
    ensures Unnamed(plan, k, n)
  {
    forall i | 0 <= i < n && i < |plan.existing| ensures plan.existing[i].0 != k {
      assert Keys(plan.existing)[i] == plan.existing[i].0;
    }
  }

  /** Versions of the updates that differ only in start and end create the same members. */
  lemma NewMembersAlike(plan: Plan, u: Updates, v: Updates, first: nat, e: nat, n: nat)
    requires e <= n <= |plan.dates| && Alike(u, v)
    ensures NewMembers(plan, u, first, e, n) == NewMembers(plan, v, first, e, n)
  {
    forall j | 0 <= j < n - e
      ensures NewMembers(plan, u, first, e, n)[j] == NewMembers(plan, v, first, e, n)[j]
    {
      AlikeDerived(u, v, plan.original, plan.dates[e + j], plan.delta, Guid(first + j));
    }
  }

  /** After the whole loop: the guid counter has advanced once per new member, the unpaired
      existing events are in the history of deletions, the new members are collected, the
      updates are moved only at the original's own position, and nothing else changed. */
  lemma FinalPassFacts(plan: Plan, s0: Pass)
    requires s0.updates.dates.Some? && Distinct(Keys(plan.existing))
    ensures var f := FinalPass(plan, s0); var p := Pairs(plan);
      && f.w.(store := s0.w.store, order := s0.w.order, deleted := s0.w.deleted, next := s0.w.next) == s0.w
      && f.w.next == s0.w.next + (|plan.dates| - p)
      && f.w.deleted == s0.w.deleted + Snapshots(plan.existing[p..])
      && Alike(f.updates, s0.updates)
      && (forall i :: 0 <= i < p && plan.existing[i].0 == plan.key ==>
            f.updates == Moved(s0.updates, plan.dates[i], plan.delta))
      && (Unnamed(plan, plan.key, p) ==> f.updates == s0.updates)
  {
    var m := PairedPass(plan, s0);
    var p := Pairs(plan);
    PairedUpdatesFacts(plan, s0.updates, p);
    if |plan.existing| >= |plan.dates| {
      DeleteAllFacts(m.w, plan.existing[|plan.dates|..]);
    } else {
      assert plan.existing[p..] == [] && Snapshots(plan.existing[p..]) == [];
    }
  }

  /** The members collected by the whole loop are those for the dates past the last
      existing event, computed from the updates as prepared. */
  lemma FinalAdds(plan: Plan, s0: Pass)
    requires s0.updates.dates.Some? && Distinct(Keys(plan.existing))
    ensures FinalPass(plan, s0).adds == s0.adds + NewMembers(plan, s0.updates, s0.w.next, Pairs(plan), |plan.dates|)
  {
    var m := PairedPass(plan, s0);
    var p := Pairs(plan);
    PairedUpdatesFacts(plan, s0.updates, p);
    if |plan.existing| >= |plan.dates| {
      assert NewMembers(plan, s0.updates, s0.w.next, p, |plan.dates|) == [];
    } else {
      NewMembersAlike(plan, m.updates, s0.updates, m.w.next, |plan.existing|, |plan.dates|);
    }
  }

  /** After the whole loop, the store holds exactly the ids it held before minus the
      unpaired existing events; each paired sibling holds its patch and every other
      document its old value. */
  lemma FinalStoreFacts(plan: Plan, s0: Pass)
    requires s0.updates.dates.Some? && Stored(plan, s0.w.store)
    ensures var st := FinalPass(plan, s0).w.store; var p := Pairs(plan);
      && (forall k :: k in st <==> k in s0.w.store && k !in Keys(plan.existing[p..]))
      && (forall i :: 0 <= i < p && plan.existing[i].0 != plan.key ==>
            && plan.existing[i].0 in st
            && st[plan.existing[i].0] ==
               ApplyUpdates(s0.w.store[plan.existing[i].0], Resolved(s0.updates, plan.dates[i], plan.delta)))
      && (forall k :: k in st && (k == plan.key || k !in Keys(plan.existing)) ==> st[k] == s0.w.store[k])
  {
    var m := PairedPass(plan, s0);
    var p := Pairs(plan);
    var ps := m.w.store;
    PairedStoreKeys(plan, s0.updates, s0.w.store, p);
    PairedStorePatched(plan, s0.updates, s0.w.store, p);
    PairedStoreUnchanged(plan, s0.updates, s0.w.store, p);
    if plan.key in s0.w.store {
      PairedStoreOriginal(plan, s0.updates, s0.w.store, p);
    }
    forall k | k !in Keys(plan.existing) ensures Unnamed(plan, k, p) {
      OutsideUnnamed(plan, k, p);
    }
    assert Keys(plan.existing[p..]) == Keys(plan.existing)[p..];
    forall i | 0 <= i < p ensures plan.existing[i].0 !in Keys(plan.existing[p..]) {
      forall j | p <= j < |plan.existing| ensures plan.existing[j].0 != plan.existing[i].0 {
        assert Keys(plan.existing)[i] == plan.existing[i].0 && Keys(plan.existing)[j] == plan.existing[j].0;
      }
    }
    if |plan.existing| >= |plan.dates| {
      DeleteAllFacts(m.w, plan.existing[|plan.dates|..]);
    } else {
      assert plan.existing[p..] == [];
    }
  }

  /** After the whole loop, every document is still keyed by its own id. */
  lemma FinalKeyed(plan: Plan, s0: Pass)
    requires s0.updates.dates.Some? && Stored(plan, s0.w.store)
    requires forall k :: k in s0.w.store ==> s0.w.store[k].id == Some(k)
    ensures forall k :: k in FinalPass(plan, s0).w.store ==> FinalPass(plan, s0).w.store[k].id == Some(k)
  {
    var st := FinalPass(plan, s0).w.store;
    FinalStoreFacts(plan, s0);
    forall k | k in st ensures st[k].id == Some(k) {
      if k != plan.key && k in Keys(plan.existing) {
        var i :| 0 <= i < |plan.existing| && Keys(plan.existing)[i] == k;
      }
    }
  }

  /** After the whole loop, the order still lists each stored id once. */
  lemma FinalOrdered(plan: Plan, s0: Pass)
    requires s0.updates.dates.Some? && Stored(plan, s0.w.store)
    requires Distinct(s0.w.order) && (forall k :: k in s0.w.order <==> k in s0.w.store)
    ensures var fw := FinalPass(plan, s0).w;
      Distinct(fw.order) && (forall k :: k in fw.order <==> k in fw.store)
  {
    var m := PairedPass(plan, s0);
    FinalStoreFacts(plan, s0);
    if |plan.existing| >= |plan.dates| {
      DeleteAllFacts(m.w, plan.existing[|plan.dates|..]);
    }
  }

  // ---------------------------------------------------------------------------
  // Storing the new members

  /** No two documents of the batch share an `_id`. */
  predicate DistinctIds(es: seq<Event>) {
    forall i, j :: 0 <= i < j < |es| ==> es[i].id != es[j].id
  }

  /** Storing a batch leaves every document it does not name as it was. */
  lemma {:induction false} InsertAllKeeps(w: World, es: seq<Event>)
    requires forall i :: 0 <= i < |es| ==> es[i].id.Some?
    ensures forall k :: k in w.store && (forall i :: 0 <= i < |es| ==> es[i].id != Some(k)) ==>
              InsertAll(w, es).store[k] == w.store[k]
    decreases |es|
  {
    if es != [] {
      InsertAllKeeps(w, es[..|es| - 1]);
    }
  }

  /** Each document of a batch with distinct ids lands under its own id. */
  lemma {:induction false} InsertAllStores(w: World, es: seq<Event>)
    requires forall i :: 0 <= i < |es| ==> es[i].id.Some?
    requires DistinctIds(es)
    ensures forall i :: 0 <= i < |es| ==> InsertAll(w, es).store[es[i].id.value] == es[i]
    decreases |es|
  {
    if es != [] {
      var init := es[..|es| - 1];
      assert DistinctIds(init) by {
        forall i, j | 0 <= i < j < |init| ensures init[i].id != init[j].id {
          assert init[i] == es[i] && init[j] == es[j];
        }
      }
      InsertAllStores(w, init);
      var st := InsertAll(w, init).store;
      var last := es[|es| - 1];
      forall i | 0 <= i < |es| ensures InsertAll(w, es).store[es[i].id.value] == es[i] {
        if i < |es| - 1 {
          assert init[i] == es[i] && es[i].id != last.id;
          assert InsertAll(w, es).store == st[last.id.value := last];
        }
      }
    }
  }

  /** Storing a batch keeps every document keyed by its own `_id`. */
  lemma {:induction false} InsertAllKeyed(w: World, es: seq<Event>)
    requires forall i :: 0 <= i < |es| ==> es[i].id.Some?
    requires forall k :: k in w.store ==> w.store[k].id == Some(k)
    ensures forall k :: k in InsertAll(w, es).store ==> InsertAll(w, es).store[k].id == Some(k)
    decreases |es|
  {
    if es != [] {
      InsertAllKeyed(w, es[..|es| - 1]);
    }
  }

  /** Storing a batch keeps the order listing each stored id once. */
  lemma {:induction false} InsertAllOrdered(w: World, es: seq<Event>)
    requires forall i :: 0 <= i < |es| ==> es[i].id.Some?
    requires Distinct(w.order) && (forall k :: k in w.order <==> k in w.store)
    ensures Distinct(InsertAll(w, es).order)
    ensures forall k :: k in InsertAll(w, es).order <==> k in InsertAll(w, es).store
    decreases |es|
  {
    if es != [] {
      var init := es[..|es| - 1];
      InsertAllOrdered(w, init);
      var w1 := InsertAll(w, init);
      var k := es[|es| - 1].id.value;
      if k !in w1.store {
        var o := w1.order + [k];
        forall i, j | 0 <= i < j < |o| ensures o[i] != o[j] {
          if j == |o| - 1 {
            assert o[i] in w1.order;
          }
        }
      }
    }
  }

  // ---------------------------------------------------------------------------
  // The rule-present branch of on_update

  /** The new members get consecutive fresh guids from `first` on. */
  lemma NewMembersIds(plan: Plan, u: Updates, first: nat, e: nat, n: nat)
    requires e <= n <= |plan.dates| && u.dates.Some?
    ensures var ms := NewMembers(plan, u, first, e, n);
      && DistinctIds(ms)
      && forall j :: 0 <= j < |ms| ==> ms[j].id == Some(Guid(first + j))
  {
  }

  /** The batch of a pass holds consecutive guids from `first` on. */
  predicate Consecutive(es: seq<Event>, first: nat) {
    forall j :: 0 <= j < |es| ==> es[j].id == Some(Guid(first + j))
  }

  /** After the loop, Finish stores the new members and adds the notification. */
  lemma FinishLogged(s: Pass, key: Id, rid: Id)
    requires forall i :: 0 <= i < |s.adds| ==> s.adds[i].id.Some?
    ensures var r := Finish(s, key, rid);
      && r.spiked == s.w.spiked && r.next == s.w.next && r.deleted == s.w.deleted
      && r.created == s.w.created + s.adds
      && r.notifications == s.w.notifications + [Notification(UpdatedRecurringKind, Some(key), Some(rid), s.updates.versionCreator)]
  {
  }

  /** Finish adds exactly the new members' guids to the stored ids. */
  lemma FinishKeys(s: Pass, key: Id, rid: Id, first: nat)
    requires Consecutive(s.adds, first)
    ensures forall k :: k in Finish(s, key, rid).store <==> k in s.w.store || (k.Guid? && first <= k.serial < first + |s.adds|)
  {
    var ms := s.adds;
    if ms != [] {
      forall k ensures k in InsertAll(s.w, ms).store <==> k in s.w.store || (k.Guid? && first <= k.serial < first + |ms|) {
        if k.Guid? && first <= k.serial < first + |ms| {
          assert ms[k.serial - first].id.value == k;
        }
      }
    }
  }

  /** Finish stores each new member under its guid. */
  lemma FinishNew(s: Pass, key: Id, rid: Id, first: nat)
    requires Consecutive(s.adds, first)
    ensures forall j :: 0 <= j < |s.adds| ==>
      s.adds[j].id.value in Finish(s, key, rid).store && Finish(s, key, rid).store[s.adds[j].id.value] == s.adds[j]
  {
    if s.adds != [] {
      assert DistinctIds(s.adds);
      InsertAllStores(s.w, s.adds);
    }
  }

  /** Finish leaves every document stored under an older id. */
  lemma FinishOld(s: Pass, key: Id, rid: Id, first: nat)
    requires Consecutive(s.adds, first)
    ensures forall k :: k in s.w.store && !(k.Guid? && first <= k.serial) ==> Finish(s, key, rid).store[k] == s.w.store[k]
  {
    if s.adds != [] {
      InsertAllKeeps(s.w, s.adds);
    }
  }

  /** Finish stores each new member under a guid that no older document holds. */
  lemma FinishStoresFresh(s: Pass, key: Id, rid: Id, first: nat, before: map<Id, Event>)
    requires Consecutive(s.adds, first) && Below(before, first)
    ensures var st := Finish(s, key, rid).store;
      forall j :: 0 <= j < |s.adds| ==> s.adds[j].id.value !in before && s.adds[j].id.value in st && st[s.adds[j].id.value] == s.adds[j]
  {
    FinishNew(s, key, rid, first);
  }

  /** Finish keeps every stored document whose id is older than the new members'. */
  lemma FinishKeepsBefore(s: Pass, key: Id, rid: Id, first: nat, before: map<Id, Event>)
    requires Consecutive(s.adds, first) && Below(before, first)
    ensures var st := Finish(s, key, rid).store;
      && (forall k :: k in s.w.store ==> k in st)
      && (forall k :: k in before && k in st ==> k in s.w.store && st[k] == s.w.store[k])
  {
    FinishKeys(s, key, rid, first);
    FinishOld(s, key, rid, first);
  }

  /** Finish keeps every document keyed by its own id and the order consistent. */
  lemma FinishConsistent(s: Pass, key: Id, rid: Id)
    requires forall i :: 0 <= i < |s.adds| ==> s.adds[i].id.Some?
    requires forall k :: k in s.w.store ==> s.w.store[k].id == Some(k)
    requires Distinct(s.w.order) && (forall k :: k in s.w.order <==> k in s.w.store)
    ensures var r := Finish(s, key, rid);
      && (forall k :: k in r.store ==> r.store[k].id == Some(k))
      && Distinct(r.order) && (forall k :: k in r.order <==> k in r.store)
  {
    if s.adds != [] {
      InsertAllKeyed(s.w, s.adds);
      InsertAllOrdered(s.w, s.adds);
    }
  }

  // ---------------------------------------------------------------------------
  // The rule-present branch of on_update

  /** What the branch logs: one events:updated:recurring notification for the original,
      in the series' id and in the requesting user's name; a history entry for each event
      past the last regenerated date; the members created for the dates past the last
      existing event, one fresh guid each; nothing spiked.  The returned updates differ
      from the prepared ones only in start and end, and only when the original itself is
      among the paired events. */
  lemma OutcomeLogs(plan: Plan, s0: Pass, key: Id, rid: Id)
    requires s0.updates.dates.Some? && Distinct(Keys(plan.existing)) && s0.adds == [] && plan.key == key
    ensures var p := Pairs(plan);
      var f := FinalPass(plan, s0);
      var r := Finish(f, key, rid);
      && r.spiked == s0.w.spiked
      && r.next == s0.w.next + (|plan.dates| - p)
      && r.notifications ==
         s0.w.notifications + [Notification(UpdatedRecurringKind, Some(key), Some(rid), s0.updates.versionCreator)]
      && r.created == s0.w.created + NewMembers(plan, s0.updates, s0.w.next, p, |plan.dates|)
      && r.deleted == s0.w.deleted + Snapshots(plan.existing[p..])
      && Alike(f.updates, s0.updates)
      && (forall i :: 0 <= i < p && plan.existing[i].0 == key ==>
            f.updates == Moved(s0.updates, plan.dates[i], plan.delta))
      && (Unnamed(plan, key, p) ==> f.updates == s0.updates)
  {
    var f := FinalPass(plan, s0);
    FinalPassFacts(plan, s0);
    FinalAdds(plan, s0);
    FinishLogged(f, key, rid);
    var r := Finish(f, key, rid);
    assert f.w.spiked == s0.w.spiked && f.w.created == s0.w.created && f.w.notifications == s0.w.notifications;
    assert s0.adds + NewMembers(plan, s0.updates, s0.w.next, Pairs(plan), |plan.dates|) ==
           NewMembers(plan, s0.updates, s0.w.next, Pairs(plan), |plan.dates|);
  }

  lemma SeriesLogs(w: World, u: Updates, key: Id, original: Event, user: Option<UserId>, gen: Generator,
                    plan: Plan, s0: Pass, w2: World, u2: Updates)
    requires Distinct(w.order) && u.dates.Some? && u.dates.value.rule.Some?
    requires SeriesSetup(w, u, key, original, gen) == Ok((plan, s0))
    requires UpdateSeries(w, u, key, original, user, gen) == Ok((w2, u2))
    ensures var p := Pairs(plan);
      && w2.spiked == w.spiked
      && w2.next == s0.w.next + (|plan.dates| - p)
      && w2.notifications ==
         w.notifications + [Notification(UpdatedRecurringKind, Some(key), Some(SeriesId(w, original).0), u.versionCreator)]
      && w2.created == w.created + NewMembers(plan, s0.updates, s0.w.next, p, |plan.dates|)
      && w2.deleted == w.deleted + Snapshots(plan.existing[p..])
      && Alike(u2, s0.updates)
      && (forall i :: 0 <= i < p && plan.existing[i].0 == key ==> u2 == Moved(s0.updates, plan.dates[i], plan.delta))
      && (Unnamed(plan, key, p) ==> u2 == s0.updates)
  {
    var rid := s0.updates.recurrenceId.value;
    SeriesResult(w, u, key, original, user, gen);
    assert (w2, u2) == (Finish(FinalPass(plan, s0), key, rid), FinalPass(plan, s0).updates);
    ExistingStored(w, plan, original, rid);
    OutcomeLogs(plan, s0, key, rid);
  }

  /** No stored guid is at or past serial n. */
  predicate Below(store: map<Id, Event>, n: nat) {
    forall k :: k in store && k.Guid? ==> k.serial < n
  }

  /** The ids stored after the branch: the old ones minus the deleted, plus the new. */
  lemma OutcomeKeys(plan: Plan, s0: Pass, key: Id, rid: Id)
    requires s0.updates.dates.Some? && Stored(plan, s0.w.store) && s0.adds == []
    ensures var n1 := s0.w.next;
      var st := Finish(FinalPass(plan, s0), key, rid).store;
      forall k :: k in st <==>
        || (k in s0.w.store && k !in Keys(plan.existing[Pairs(plan)..]))
        || (k.Guid? && n1 <= k.serial < n1 + (|plan.dates| - Pairs(plan)))
  {
    var f := FinalPass(plan, s0);
    FinalAdds(plan, s0);
    FinalStoreFacts(plan, s0);
    NewMembersIds(plan, s0.updates, s0.w.next, Pairs(plan), |plan.dates|);
    FinishKeys(f, key, rid, s0.w.next);
  }

  /** Each paired sibling holds the updates moved to its date. */
  lemma OutcomePatched(plan: Plan, s0: Pass, key: Id, rid: Id)
    requires s0.updates.dates.Some? && Stored(plan, s0.w.store) && s0.adds == [] && plan.key == key
    requires Below(s0.w.store, s0.w.next)
    ensures var st := Finish(FinalPass(plan, s0), key, rid).store;
      forall i :: 0 <= i < Pairs(plan) && plan.existing[i].0 != key ==>
        && plan.existing[i].0 in st
        && st[plan.existing[i].0] ==
           ApplyUpdates(s0.w.store[plan.existing[i].0], Resolved(s0.updates, plan.dates[i], plan.delta))
  {
    var f := FinalPass(plan, s0);
    FinalAdds(plan, s0);
    NewMembersIds(plan, s0.updates, s0.w.next, Pairs(plan), |plan.dates|);
    assert Consecutive(f.adds, s0.w.next);
    FinalStoreFacts(plan, s0);
    FinishKeepsBefore(f, key, rid, s0.w.next, s0.w.store);
  }

  /** Each new member is stored under its fresh guid. */
  lemma OutcomeCreated(plan: Plan, s0: Pass, key: Id, rid: Id)
    requires s0.updates.dates.Some? && Distinct(Keys(plan.existing)) && s0.adds == []
    requires Below(s0.w.store, s0.w.next)
    ensures var ms := NewMembers(plan, s0.updates, s0.w.next, Pairs(plan), |plan.dates|);
      var st := Finish(FinalPass(plan, s0), key, rid).store;
      forall j :: 0 <= j < |ms| ==> ms[j].id.value !in s0.w.store && ms[j].id.value in st && st[ms[j].id.value] == ms[j]
  {
    var f := FinalPass(plan, s0);
    var ms := NewMembers(plan, s0.updates, s0.w.next, Pairs(plan), |plan.dates|);
    FinalAdds(plan, s0);
    NewMembersIds(plan, s0.updates, s0.w.next, Pairs(plan), |plan.dates|);
    assert f.adds == ms;
    FinishStoresFresh(f, key, rid, s0.w.next, s0.w.store);
  }

  /** The original's document and every document outside the comparison set are kept. */
  lemma OutcomeKept(plan: Plan, s0: Pass, key: Id, rid: Id)
    requires s0.updates.dates.Some? && Stored(plan, s0.w.store) && s0.adds == [] && plan.key == key
    requires Below(s0.w.store, s0.w.next)
    ensures var st := Finish(FinalPass(plan, s0), key, rid).store;
      forall k :: k in s0.w.store && k in st && (k == key || k !in Keys(plan.existing)) ==> st[k] == s0.w.store[k]
  {
    var f := FinalPass(plan, s0);
    FinalAdds(plan, s0);
    NewMembersIds(plan, s0.updates, s0.w.next, Pairs(plan), |plan.dates|);
    FinalStoreFacts(plan, s0);
    FinishKeepsBefore(f, key, rid, s0.w.next, s0.w.store);
  }

  lemma OutcomeValid(plan: Plan, s0: Pass, key: Id, rid: Id)
    requires s0.updates.dates.Some? && Stored(plan, s0.w.store) && s0.adds == []
    requires Valid(s0.w)
    ensures Valid(Finish(FinalPass(plan, s0), key, rid))
  {
    var f := FinalPass(plan, s0);
    FinalPassFacts(plan, s0);
    FinalAdds(plan, s0);
    FinalKeyed(plan, s0);
    FinalOrdered(plan, s0);
    OutcomeKeys(plan, s0, key, rid);
    NewMembersIds(plan, s0.updates, s0.w.next, Pairs(plan), |plan.dates|);
    FinishLogged(f, key, rid);
    FinishConsistent(f, key, rid);
  }

  /** What the branch does to the store: the events past the last regenerated date are
      gone and a new member is stored under each fresh guid; each paired sibling holds the
      prepared updates moved to its date (so with the series' id and the new rule); every
      other document, the original's included, is as it was. */
  lemma SeriesStore(w: World, u: Updates, key: Id, original: Event, user: Option<UserId>, gen: Generator,
                     plan: Plan, s0: Pass, w2: World, u2: Updates)
    requires Valid(w) && u.dates.Some? && u.dates.value.rule.Some?
    requires SeriesSetup(w, u, key, original, gen) == Ok((plan, s0))
    requires UpdateSeries(w, u, key, original, user, gen) == Ok((w2, u2))
    ensures var p := Pairs(plan);
      var n1 := s0.w.next;
      var ms := NewMembers(plan, s0.updates, n1, p, |plan.dates|);
      && (forall k :: k in w2.store <==>
            || (k in w.store && k !in Keys(plan.existing[p..]))
            || (k.Guid? && n1 <= k.serial < n1 + |ms|))
      && (forall i :: 0 <= i < p && plan.existing[i].0 != key ==>
            && plan.existing[i].0 in w.store && plan.existing[i].0 in w2.store
            && w2.store[plan.existing[i].0] ==
               ApplyUpdates(w.store[plan.existing[i].0], Resolved(s0.updates, plan.dates[i], plan.delta)))
      && (forall j :: 0 <= j < |ms| ==> ms[j].id.value !in w.store && ms[j].id.value in w2.store && w2.store[ms[j].id.value] == ms[j])
      && (forall k :: k in w.store && k in w2.store && (k == key || k !in Keys(plan.existing)) ==> w2.store[k] == w.store[k])
  {
    var rid := s0.updates.recurrenceId.value;
    SeriesResult(w, u, key, original, user, gen);
    assert w2 == Finish(FinalPass(plan, s0), key, rid);
    ExistingStored(w, plan, original, rid);
    OutcomeKeys(plan, s0, key, rid);
    OutcomePatched(plan, s0, key, rid);
    OutcomeCreated(plan, s0, key, rid);
    OutcomeKept(plan, s0, key, rid);
  }

  /** The branch keeps the store consistent: each stored id listed once in the order, each
      document under its own `_id`, each generated id below the counter. */
  lemma SeriesValid(w: World, u: Updates, key: Id, original: Event, user: Option<UserId>, gen: Generator)
    requires Valid(w) && u.dates.Some? && u.dates.value.rule.Some?
    requires UpdateSeries(w, u, key, original, user, gen).Ok?
    ensures Valid(UpdateSeries(w, u, key, original, user, gen).value.0)
  {
    var (plan, s0) := SeriesSetup(w, u, key, original, gen).value;
    var rid := s0.updates.recurrenceId.value;
    SeriesResult(w, u, key, original, user, gen);
    ExistingStored(w, plan, original, rid);
    OutcomeValid(plan, s0, key, rid);
  }

  /** A patch that keeps a rule runs the rule-present branch on the stamped updates, then
      writes the updates it returns over the original, if the original is still stored. */
  lemma PatchSeries(w: World, key: Id, u: Updates, user: Option<UserId>, gen: Generator, w2: World, u2: Updates)
    requires key in w.store && !u.skipOnUpdate
    requires Stamp(u, user).dates.Some? && Stamp(u, user).dates.value.rule.Some?
    requires UpdateSeries(w, Stamp(u, user), key, w.store[key], user, gen) == Ok((w2, u2))
    ensures Patch(w, key, u, user, gen) ==
      Ok(if key in w2.store then w2.(store := w2.store[key := ApplyUpdates(w2.store[key], u2)]) else w2)
  {
    assert OnUpdate(w, u, key, w.store[key], user, gen) == Ok((w2, u2));
  }

  /** The rule-present branch leaves the original's stored document in place unless the
      original is among the events it deletes. */
  lemma SeriesKeepsOriginal(w: World, u: Updates, key: Id, original: Event, user: Option<UserId>, gen: Generator,
                            plan: Plan, s0: Pass, w2: World, u2: Updates)
    requires Valid(w) && key in w.store && u.dates.Some? && u.dates.value.rule.Some?
    requires SeriesSetup(w, u, key, original, gen) == Ok((plan, s0))
    requires UpdateSeries(w, u, key, original, user, gen) == Ok((w2, u2))
    requires key !in Keys(plan.existing[Pairs(plan)..])
    ensures key in w2.store && w2.store[key] == w.store[key]
    ensures u2 == FinalPass(plan, s0).updates
  {
    var rid := s0.updates.recurrenceId.value;
    SeriesResult(w, u, key, original, user, gen);
    assert w2 == Finish(FinalPass(plan, s0), key, rid);
    ExistingStored(w, plan, original, rid);
    OutcomeKeys(plan, s0, key, rid);
    OutcomeKept(plan, s0, key, rid);
  }

  /** A patch that keeps a rule moves the original to its own regenerated date when the
      original is among the paired events: the dates shift by the same duration and the
      document joins the series under the series' id. */
  lemma PatchMovesOriginal(w: World, key: Id, u: Updates, user: Option<UserId>, gen: Generator,
                           plan: Plan, s0: Pass, i: nat)
    requires Valid(w) && key in w.store && !u.skipOnUpdate
    requires Stamp(u, user).dates.Some? && Stamp(u, user).dates.value.rule.Some?
    requires SeriesSetup(w, Stamp(u, user), key, w.store[key], gen) == Ok((plan, s0))
    requires i < Pairs(plan) && plan.existing[i].0 == key
    ensures var r := Patch(w, key, u, user, gen);
      && r.Ok? && key in r.value.store
      && r.value.store[key] == ApplyUpdates(w.store[key], Moved(s0.updates, plan.dates[i], plan.delta))
      && r.value.store[key].dates.start == plan.dates[i]
      && r.value.store[key].dates.end == plan.dates[i] + plan.delta
      && r.value.store[key].recurrenceId == Val(SeriesId(w, w.store[key]).0)
  {
    var v := Stamp(u, user);
    var original := w.store[key];
    var rid := s0.updates.recurrenceId.value;
    SeriesErrors(w, v, key, original, user, gen);
    var (w2, u2) := UpdateSeries(w, v, key, original, user, gen).value;
    PatchSeries(w, key, u, user, gen, w2, u2);
    ExistingStored(w, plan, original, rid);
    KeyNotLater(plan, i);
    SeriesKeepsOriginal(w, v, key, original, user, gen, plan, s0, w2, u2);
    FinalPassFacts(plan, s0);
  }

  /** An id listed once and paired with a date is not among the unpaired events. */
  lemma KeyNotLater(plan: Plan, i: nat)
    requires Distinct(Keys(plan.existing))
    requires i < Pairs(plan) && plan.existing[i].0 == plan.key
    ensures plan.key !in Keys(plan.existing[Pairs(plan)..])
  {
    var p := Pairs(plan);
    forall j | p <= j < |plan.existing| ensures plan.existing[j].0 != plan.key {
      assert Keys(plan.existing)[i] == plan.key && Keys(plan.existing)[j] == plan.existing[j].0;
    }
    assert Keys(plan.existing[p..]) == Keys(plan.existing)[p..];
  }

  // ---------------------------------------------------------------------------
  // The rule-removed branch of on_update

  /** Two filters that agree on every stored document select the same ids. */
  lemma {:induction false} SelectAgree(ids: seq<Id>, store: map<Id, Event>, keep: (Id, Event) -> bool, keep2: (Id, Event) -> bool)
    requires forall k :: k in store ==> keep(k, store[k]) == keep2(k, store[k])
    ensures Select(ids, store, keep) == Select(ids, store, keep2)
    decreases |ids|
  {
    if ids != [] {
      SelectAgree(ids[..|ids| - 1], store, keep, keep2);
    }
  }

  /** For an original that does belong to a series, the spike query as written selects
      exactly its later members, in the same order. */
  lemma SpikeAsWrittenAgrees(w: World, key: Id, original: Event)
    requires original.recurrenceId.Val?
    ensures SpikeTargetsAsWritten(w, key, original) == SpikeTargets(w, key, original)
  {
    SelectAgree(w.order, w.store, (k: Id, e: Event) => LaterSiblingAsWritten(k, e, key, original),
                (k: Id, e: Event) => LaterSibling(k, e, key, original));
  }

  /** A patch without a rule detaches the original from its series: the stored document
      loses its rule and its recurrence id (the updates say None for both), no other
      document changes, the later members of the series are spiked and one
      events:updated notification goes out. */
  lemma PatchDetaches(w: World, key: Id, u: Updates, user: Option<UserId>, gen: Generator)
    requires key in w.store && !u.skipOnUpdate
    requires Stamp(u, user).dates.None? || Stamp(u, user).dates.value.rule.None?
    ensures var r := Patch(w, key, u, user, gen);
      && r.Ok?
      && r.value.store.Keys == w.store.Keys && r.value.order == w.order
      && r.value.store[key].recurrenceId == Null && r.value.store[key].dates.rule.None?
      && r.value.store[key].id == w.store[key].id
      && (forall k :: k in w.store && k != key ==> r.value.store[k] == w.store[k])
      && r.value.spiked == w.spiked + SpikeTargets(w, key, w.store[key])
      && r.value.notifications == w.notifications + [Notification(UpdatedKind, Some(key), None, Stamp(u, user).versionCreator)]
      && r.value.created == w.created && r.value.deleted == w.deleted && r.value.next == w.next
  {
    var v := Stamp(u, user);
    var v2 := if v.dates.None? then v.(dates := Some(DatesPatch(None, None, None, None))) else v;
    var d := Detach(w, v2, key, w.store[key]);
    assert OnUpdate(w, u, key, w.store[key], user, gen) == Ok(d);
    var targets := SpikeTargets(w, key, w.store[key]);
    assert d.0.spiked == w.spiked + targets;
  }

  /** The original of the counterexample below: once detached it holds a recurrence_id key
      whose value is None, and no rule. */
  function DetachedEvent(): Event {
    Event(Some(Given("a")), Some(Given("a")), Null, Absent, Dates(10, 20, None, None), None, None, map[])
  }

  /** An unrelated stand-alone event that starts later. */
  function StandAloneEvent(): Event {
    Event(Some(Given("b")), Some(Given("b")), Absent, Absent, Dates(30, 40, None, None), None, None, map[])
  }

  function TwoEvents(): World {
    World(map[Given("a") := DetachedEvent(), Given("b") := StandAloneEvent()], [Given("a"), Given("b")], 0, [], [], [], [])
  }

  /** Removing the rule of an event that was detached before spikes, as written, every
      later event outside any series: here the unrelated stand-alone event. */
  lemma DetachedTwiceSpikesStranger()
    ensures Given("b") in SpikeTargetsAsWritten(TwoEvents(), Given("a"), DetachedEvent())
    ensures Given("b") !in SpikeTargets(TwoEvents(), Given("a"), DetachedEvent())
  {
    var w := TwoEvents();
    assert w.store[Given("b")] == StandAloneEvent();
    assert LaterSiblingAsWritten(Given("b"), StandAloneEvent(), Given("a"), DetachedEvent());
  }
}
