/** What on_update promises, proved about the functions of module Series: the guard of
    the nested patch, the rule-removed branch and its spike query, and the position by
    position reconciliation of the rule-present branch. */
module SeriesFacts {
  import opened Types
  import opened Recurrence
  import opened Series

  /** The documents of the comparison set, as found. */
  function Snapshots(ex: seq<(Id, Event)>): (r: seq<Event>)
    ensures |r| == |ex| && forall i :: 0 <= i < |ex| ==> r[i] == ex[i].1
  {
    seq(|ex|, i requires 0 <= i < |ex| => ex[i].1)
  }

  /** No position before n names the id k. */
  predicate Unnamed(plan: Plan, k: Id, n: nat) {
    forall i :: 0 <= i < n && i < |plan.existing| ==> plan.existing[i].0 != k
  }

  /** The number of positions where an existing event meets a date. */
  function Pairs(plan: Plan): nat {
    if |plan.existing| <= |plan.dates| then |plan.existing| else |plan.dates|
  }

  /** The comparison set lists each id once, and each one other than the original's is
      stored (so that its patch finds it). */
  predicate Stored(plan: Plan, store: map<Id, Event>) {
    && Distinct(Keys(plan.existing))
    && forall i :: 0 <= i < |plan.existing| ==> plan.existing[i].0 == plan.key || plan.existing[i].0 in store
  }

  /** Two versions of the updates that differ at most in dates.start and dates.end. */
  predicate Alike(u: Updates, v: Updates) {
    && u.dates.Some? && v.dates.Some?
    && u.(dates := v.dates) == v
    && u.dates.value.(start := v.dates.value.start, end := v.dates.value.end) == v.dates.value
  }

  /** The sibling patch as stored, once the nested on_update has removed its flag. */
  function Resolved(u: Updates, date: Instant, delta: int): (r: Updates)
    requires u.dates.Some?
    ensures r.guid.None? && !r.skipOnUpdate
    ensures r.dates == Some(Shift(u.dates.value, date, delta))
    ensures r.(guid := u.guid, dates := u.dates, skipOnUpdate := u.skipOnUpdate) == u
  {
    SiblingUpdates(u, date, delta).(skipOnUpdate := false)
  }

  lemma AlikeMoved(u: Updates, date: Instant, delta: int)
    requires u.dates.Some?
    ensures Alike(u, Moved(u, date, delta)) && Alike(Moved(u, date, delta), u)
  {
  }

  /** Moving the updates does not change what the loop derives from them for other
      positions. */
  lemma AlikeDerived(u: Updates, v: Updates, original: Event, date: Instant, delta: int, g: Id)
    requires Alike(u, v)
    ensures SiblingUpdates(u, date, delta) == SiblingUpdates(v, date, delta)
    ensures NewOccurrence(original, u, date, delta, g) == NewOccurrence(original, v, date, delta, g)
  {
    assert Shift(u.dates.value, date, delta) == Shift(v.dates.value, date, delta);
  }

  /** The guard: a patch flagged skip_on_update writes its updates, without the flag, over
      the stored document, and changes nothing else: no other document, no notification,
      no spike, no history entry. */
  lemma PatchSkipped(w: World, k: Id, u: Updates, user: Option<UserId>, gen: Generator)
    requires u.skipOnUpdate && k in w.store
    ensures Patch(w, k, u, user, gen) == Ok(w.(store := w.store[k := ApplyUpdates(w.store[k], u.(skipOnUpdate := false))]))
  {
  }

  /** One more position of the loop runs its step on the state the earlier ones left. */
  lemma ReconNext(plan: Plan, s0: Pass, n: nat, user: Option<UserId>, gen: Generator)
    requires 0 < n <= Positions(plan) && s0.updates.dates.Some?
    requires forall i :: 0 <= i < |s0.adds| ==> s0.adds[i].id.Some?
    requires Recon(plan, s0, n - 1, user, gen).Ok?
    ensures Recon(plan, s0, n, user, gen) == ReconStep(plan, Recon(plan, s0, n - 1, user, gen).value, n - 1, user, gen)
  {
  }

  lemma StepDelete(plan: Plan, s: Pass, i: nat, user: Option<UserId>, gen: Generator)
    requires |plan.dates| <= i < |plan.existing|
    requires s.updates.dates.Some? && forall j :: 0 <= j < |s.adds| ==> s.adds[j].id.Some?
    ensures ReconStep(plan, s, i, user, gen) == Ok(s.(w := Delete(s.w, plan.existing[i].0, plan.existing[i].1)))
  {
  }

  lemma StepCreate(plan: Plan, s: Pass, i: nat, user: Option<UserId>, gen: Generator)
    requires |plan.existing| <= i < |plan.dates|
    requires s.updates.dates.Some? && forall j :: 0 <= j < |s.adds| ==> s.adds[j].id.Some?
    ensures ReconStep(plan, s, i, user, gen) ==
      Ok(Pass(s.w.(next := s.w.next + 1), s.updates,
              s.adds + [NewOccurrence(plan.original, s.updates, plan.dates[i], plan.delta, Guid(s.w.next))]))
  {
  }

  lemma StepOriginal(plan: Plan, s: Pass, i: nat, user: Option<UserId>, gen: Generator)
    requires i < |plan.existing| && i < |plan.dates| && plan.existing[i].0 == plan.key
    requires s.updates.dates.Some? && forall j :: 0 <= j < |s.adds| ==> s.adds[j].id.Some?
    ensures ReconStep(plan, s, i, user, gen) == Ok(s.(updates := Moved(s.updates, plan.dates[i], plan.delta)))
  {
  }

  lemma StepSibling(plan: Plan, s: Pass, i: nat, user: Option<UserId>, gen: Generator)
    requires i < |plan.existing| && i < |plan.dates| && plan.existing[i].0 != plan.key
    requires plan.existing[i].0 in s.w.store
    requires s.updates.dates.Some? && forall j :: 0 <= j < |s.adds| ==> s.adds[j].id.Some?
    ensures var k := plan.existing[i].0;
      ReconStep(plan, s, i, user, gen) ==
      Ok(s.(w := s.w.(store := s.w.store[k := ApplyUpdates(s.w.store[k], Resolved(s.updates, plan.dates[i], plan.delta))])))
  {
    PatchSkipped(s.w, plan.existing[i].0, SiblingUpdates(s.updates, plan.dates[i], plan.delta), user, gen);
  }

  // ---------------------------------------------------------------------------
  // The loop in three phases, each as a closed form

  /** The original's updates after the first n positions: moved at the original's own
      position. */
  function PairedUpdates(plan: Plan, u: Updates, n: nat): (r: Updates)
    requires n <= Pairs(plan) && u.dates.Some?
    ensures r.dates.Some?
    decreases n
  {
    if n == 0 then u
    else
      var v := PairedUpdates(plan, u, n - 1);
      if plan.existing[n - 1].0 == plan.key then Moved(v, plan.dates[n - 1], plan.delta) else v
  }

  /** The store after the first n positions: each sibling patched with its date. */
  function PairedStore(plan: Plan, u: Updates, store: map<Id, Event>, n: nat): (r: map<Id, Event>)
    requires n <= Pairs(plan) && u.dates.Some?
    decreases n
  {
    if n == 0 then store
    else
      var st := PairedStore(plan, u, store, n - 1);
      var k := plan.existing[n - 1].0;
      if k == plan.key || k !in st then st
      else st[k := ApplyUpdates(st[k], Resolved(PairedUpdates(plan, u, n - 1), plan.dates[n - 1], plan.delta))]
  }

  lemma {:induction false} PairedStoreKeys(plan: Plan, u: Updates, store: map<Id, Event>, n: nat)
    requires n <= Pairs(plan) && u.dates.Some?
    ensures PairedStore(plan, u, store, n).Keys == store.Keys
    decreases n
  {
    if n > 0 {
      PairedStoreKeys(plan, u, store, n - 1);
    }
  }

  /** The state after the first n positions of the paired phase. */
  function PairedAt(plan: Plan, s0: Pass, n: nat): (r: Pass)
    requires n <= Pairs(plan) && s0.updates.dates.Some?
    ensures r.updates.dates.Some? && r.adds == s0.adds
  {
    Pass(s0.w.(store := PairedStore(plan, s0.updates, s0.w.store, n)), PairedUpdates(plan, s0.updates, n), s0.adds)
  }

  /** The paired positions run without error, patch the store as PairedStore says, move the
      updates as PairedUpdates says, and change nothing else. */
  lemma {:induction false} ReconPairs(plan: Plan, s0: Pass, n: nat, user: Option<UserId>, gen: Generator)
    requires n <= Pairs(plan)
    requires s0.updates.dates.Some? && Stored(plan, s0.w.store)
    requires forall i :: 0 <= i < |s0.adds| ==> s0.adds[i].id.Some?
    ensures Recon(plan, s0, n, user, gen) == Ok(PairedAt(plan, s0, n))
    decreases n
  {
    if n > 0 {
      ReconPairs(plan, s0, n - 1, user, gen);
      PairNext(plan, s0, n, user, gen);
    } else {
      assert PairedAt(plan, s0, 0) == s0;
    }
  }

  /** The closed form after position i, from the closed form before it. */
  lemma PairNext(plan: Plan, s0: Pass, n: nat, user: Option<UserId>, gen: Generator)
    requires 0 < n <= Pairs(plan)
    requires s0.updates.dates.Some? && Stored(plan, s0.w.store)
    requires forall j :: 0 <= j < |s0.adds| ==> s0.adds[j].id.Some?
    requires Recon(plan, s0, n - 1, user, gen) == Ok(PairedAt(plan, s0, n - 1))
    ensures Recon(plan, s0, n, user, gen) == Ok(PairedAt(plan, s0, n))
  {
    ReconNext(plan, s0, n, user, gen);
    PairStep(plan, s0, n - 1, user, gen, PairedAt(plan, s0, n - 1));
  }


  /** Position i of the paired phase takes the closed form from i to i + 1. */
  lemma PairStep(plan: Plan, s0: Pass, i: nat, user: Option<UserId>, gen: Generator, s: Pass)
    requires i < Pairs(plan)
    requires s0.updates.dates.Some? && Stored(plan, s0.w.store)
    requires forall j :: 0 <= j < |s0.adds| ==> s0.adds[j].id.Some?
    requires s == PairedAt(plan, s0, i)
    ensures ReconStep(plan, s, i, user, gen) == Ok(PairedAt(plan, s0, i + 1))
  {
    var k := plan.existing[i].0;
    var st := PairedStore(plan, s0.updates, s0.w.store, i);
    var v := PairedUpdates(plan, s0.updates, i);
    if k == plan.key {
      StepOriginal(plan, s, i, user, gen);
      assert PairedStore(plan, s0.updates, s0.w.store, i + 1) == st;
      assert PairedUpdates(plan, s0.updates, i + 1) == Moved(v, plan.dates[i], plan.delta);
    } else {
      PairedStoreKeys(plan, s0.updates, s0.w.store, i);
      assert k in st;
      StepSibling(plan, s, i, user, gen);
      assert PairedStore(plan, s0.updates, s0.w.store, i + 1) == st[k := ApplyUpdates(st[k], Resolved(v, plan.dates[i], plan.delta))];
      assert PairedUpdates(plan, s0.updates, i + 1) == v;
    }
  }

  /** Deleting the listed events in order, each with its history entry. */
  function DeleteAll(w: World, ex: seq<(Id, Event)>): (r: World)
    decreases |ex|
  {
    if ex == [] then w
    else
      var w1 := DeleteAll(w, ex[..|ex| - 1]);
      Delete(w1, ex[|ex| - 1].0, ex[|ex| - 1].1)
  }

  /** The state after the positions from the last date up to n, from the state m the paired
      phase left. */
  function DeletedAt(plan: Plan, m: Pass, n: nat): (r: Pass)
    requires |plan.dates| <= n <= |plan.existing|
    ensures r.updates == m.updates && r.adds == m.adds
  {
    m.(w := DeleteAll(m.w, plan.existing[|plan.dates|..n]))
  }

  lemma DeletedAtNext(plan: Plan, m: Pass, i: nat)
    requires |plan.dates| <= i < |plan.existing|
    ensures DeletedAt(plan, m, i + 1) == DeletedAt(plan, m, i).(w := Delete(DeletedAt(plan, m, i).w, plan.existing[i].0, plan.existing[i].1))
  {
    var d := |plan.dates|;
    assert plan.existing[d..i + 1][..i - d] == plan.existing[d..i];
  }

  /** The positions past the last date delete the remaining existing events in order. */
  lemma {:induction false} ReconDeletes(plan: Plan, s0: Pass, m: Pass, n: nat, user: Option<UserId>, gen: Generator)
    requires |plan.dates| <= n <= |plan.existing|
    requires s0.updates.dates.Some? && m.updates.dates.Some?
    requires forall i :: 0 <= i < |s0.adds| ==> s0.adds[i].id.Some?
    requires forall i :: 0 <= i < |m.adds| ==> m.adds[i].id.Some?
    requires Recon(plan, s0, |plan.dates|, user, gen) == Ok(m)
    ensures Recon(plan, s0, n, user, gen) == Ok(DeletedAt(plan, m, n))
    decreases n
  {
    if n > |plan.dates| {
      ReconDeletes(plan, s0, m, n - 1, user, gen);
      DeleteNext(plan, s0, m, n, user, gen);
    } else {
      assert plan.existing[|plan.dates|..n] == [];
      assert DeletedAt(plan, m, n) == m;
    }
  }

  lemma DeleteNext(plan: Plan, s0: Pass, m: Pass, n: nat, user: Option<UserId>, gen: Generator)
    requires |plan.dates| < n <= |plan.existing|
    requires s0.updates.dates.Some? && m.updates.dates.Some?
    requires forall j :: 0 <= j < |s0.adds| ==> s0.adds[j].id.Some?
    requires forall j :: 0 <= j < |m.adds| ==> m.adds[j].id.Some?
    requires Recon(plan, s0, n - 1, user, gen) == Ok(DeletedAt(plan, m, n - 1))
    ensures Recon(plan, s0, n, user, gen) == Ok(DeletedAt(plan, m, n))
  {
    ReconNext(plan, s0, n, user, gen);
    StepDelete(plan, DeletedAt(plan, m, n - 1), n - 1, user, gen);
    DeletedAtNext(plan, m, n - 1);
  }


  /** The members created for the dates at positions e up to n, from guid serial `first`. */
  function NewMembers(plan: Plan, u: Updates, first: nat, e: nat, n: nat): (r: seq<Event>)
    requires e <= n <= |plan.dates| && u.dates.Some?
    ensures |r| == n - e
    ensures forall j :: 0 <= j < n - e ==>
      r[j] == NewOccurrence(plan.original, u, plan.dates[e + j], plan.delta, Guid(first + j))
    decreases n
  {
    if n == e then []
    else NewMembers(plan, u, first, e, n - 1) + [NewOccurrence(plan.original, u, plan.dates[n - 1], plan.delta, Guid(first + (n - 1 - e)))]
  }

  lemma NewMembersNext(plan: Plan, u: Updates, first: nat, e: nat, i: nat, before: seq<Event>)
    requires e <= i < |plan.dates| && u.dates.Some?
    ensures before + NewMembers(plan, u, first, e, i + 1) ==
            before + NewMembers(plan, u, first, e, i) + [NewOccurrence(plan.original, u, plan.dates[i], plan.delta, Guid(first + (i - e)))]
  {
    assert NewMembers(plan, u, first, e, i + 1) ==
           NewMembers(plan, u, first, e, i) + [NewOccurrence(plan.original, u, plan.dates[i], plan.delta, Guid(first + (i - e)))];
  }

  /** The positions past the last existing event add one new member per remaining date, in
      order, each with the next guid serial; nothing is stored yet. */
  lemma {:induction false} ReconCreates(plan: Plan, s0: Pass, m: Pass, n: nat, user: Option<UserId>, gen: Generator)
    requires |plan.existing| <= n <= |plan.dates|
    requires s0.updates.dates.Some? && m.updates.dates.Some?
    requires forall i :: 0 <= i < |s0.adds| ==> s0.adds[i].id.Some?
    requires Recon(plan, s0, |plan.existing|, user, gen) == Ok(m)
    ensures Recon(plan, s0, n, user, gen) ==
      Ok(Pass(m.w.(next := m.w.next + (n - |plan.existing|)), m.updates,
              m.adds + NewMembers(plan, m.updates, m.w.next, |plan.existing|, n)))
    decreases n
  {
    var e := |plan.existing|;
    if n > e {
      var i := n - 1;
      ReconCreates(plan, s0, m, i, user, gen);
      var s := Pass(m.w.(next := m.w.next + (i - e)), m.updates, m.adds + NewMembers(plan, m.updates, m.w.next, e, i));
      ReconNext(plan, s0, n, user, gen);
      StepCreate(plan, s, i, user, gen);
      NewMembersNext(plan, m.updates, m.w.next, e, i, m.adds);
    } else {
      assert NewMembers(plan, m.updates, m.w.next, e, n) == [];
      assert m.adds + [] == m.adds && m.w.(next := m.w.next) == m.w;
    }
  }

  // ---------------------------------------------------------------------------
  // The whole loop

  /** The state after the whole loop: the paired positions, then either the deletes or
      the creates. */
  function FinalPass(plan: Plan, s0: Pass): (r: Pass)
    requires s0.updates.dates.Some?
  {
    var m := PairedPass(plan, s0);
    if |plan.existing| >= |plan.dates| then m.(w := DeleteAll(m.w, plan.existing[|plan.dates|..]))
    else Pass(m.w.(next := m.w.next + (|plan.dates| - |plan.existing|)), m.updates,
              m.adds + NewMembers(plan, m.updates, m.w.next, |plan.existing|, |plan.dates|))
  }

  /** The state after the paired positions. */
  function PairedPass(plan: Plan, s0: Pass): (r: Pass)
    requires s0.updates.dates.Some?
    ensures r.updates.dates.Some?
  {
    PairedAt(plan, s0, Pairs(plan))
  }

  lemma ReconFinalDeletes(plan: Plan, s0: Pass, user: Option<UserId>, gen: Generator)
    requires s0.updates.dates.Some? && Stored(plan, s0.w.store)
    requires forall i :: 0 <= i < |s0.adds| ==> s0.adds[i].id.Some?
    requires |plan.existing| >= |plan.dates|
    ensures Recon(plan, s0, Positions(plan), user, gen) == Ok(FinalPass(plan, s0))
  {
    ReconPairs(plan, s0, Pairs(plan), user, gen);
    var m := PairedPass(plan, s0);
    ReconDeletes(plan, s0, m, Positions(plan), user, gen);
    assert plan.existing[|plan.dates|..Positions(plan)] == plan.existing[|plan.dates|..];
    assert DeletedAt(plan, m, Positions(plan)) == FinalPass(plan, s0);
  }

  lemma ReconFinalCreates(plan: Plan, s0: Pass, user: Option<UserId>, gen: Generator)
    requires s0.updates.dates.Some? && Stored(plan, s0.w.store)
    requires forall i :: 0 <= i < |s0.adds| ==> s0.adds[i].id.Some?
    requires |plan.existing| < |plan.dates|
    ensures Recon(plan, s0, Positions(plan), user, gen) == Ok(FinalPass(plan, s0))
  {
    ReconPairs(plan, s0, Pairs(plan), user, gen);
    ReconCreates(plan, s0, PairedPass(plan, s0), Positions(plan), user, gen);
  }

  /** The loop runs without error when the comparison set is stored, and ends in FinalPass. */
  lemma ReconFinal(plan: Plan, s0: Pass, user: Option<UserId>, gen: Generator)
    requires s0.updates.dates.Some? && Stored(plan, s0.w.store)
    requires forall i :: 0 <= i < |s0.adds| ==> s0.adds[i].id.Some?
    ensures Recon(plan, s0, Positions(plan), user, gen) == Ok(FinalPass(plan, s0))
  {
    if |plan.existing| >= |plan.dates| {
      ReconFinalDeletes(plan, s0, user, gen);
    } else {
      ReconFinalCreates(plan, s0, user, gen);
    }
  }

  // ---------------------------------------------------------------------------
  // What the closed forms say

  /** In a comparison set without repeated ids, no earlier position names the id of
      position i. */
  lemma DistinctUnnamed(plan: Plan, i: nat)
    requires Distinct(Keys(plan.existing)) && i < |plan.existing|
    ensures Unnamed(plan, plan.existing[i].0, i)
  {
    var ks := Keys(plan.existing);
    forall j | 0 <= j < i ensures plan.existing[j].0 != plan.existing[i].0 {
      assert ks[j] != ks[i];
    }
  }

  /** The original's updates end up moved to the original's own date if the original is
      among the paired events, and are otherwise unchanged; in either case only their start
      and end can differ. */
  lemma {:induction false} PairedUpdatesFacts(plan: Plan, u: Updates, n: nat)
    requires n <= Pairs(plan) && u.dates.Some? && Distinct(Keys(plan.existing))
    ensures Alike(PairedUpdates(plan, u, n), u)
    ensures forall i :: 0 <= i < n && plan.existing[i].0 == plan.key ==>
              PairedUpdates(plan, u, n) == Moved(u, plan.dates[i], plan.delta)
    ensures Unnamed(plan, plan.key, n) ==> PairedUpdates(plan, u, n) == u
    decreases n
  {
    if n > 0 {
      var i := n - 1;
      PairedUpdatesFacts(plan, u, i);
      DistinctUnnamed(plan, i);
      var v := PairedUpdates(plan, u, i);
      if plan.existing[i].0 == plan.key {
        assert Moved(v, plan.dates[i], plan.delta) == Moved(u, plan.dates[i], plan.delta);
        AlikeMoved(u, plan.dates[i], plan.delta);
      }
    }
  }

  /** A stored document that no paired position names keeps its value. */
  lemma {:induction false} PairedStoreUnchanged(plan: Plan, u: Updates, store: map<Id, Event>, n: nat)
    requires n <= Pairs(plan) && u.dates.Some?
    ensures forall k :: k in store && Unnamed(plan, k, n) ==>
              k in PairedStore(plan, u, store, n) && PairedStore(plan, u, store, n)[k] == store[k]
    decreases n
  {
    if n > 0 {
      PairedStoreUnchanged(plan, u, store, n - 1);
    }
  }

  /** One paired position: the sibling it names gets the patch for its date, computed from
      the updates as first given; every other id keeps its value. */
  lemma PairedStoreStep(plan: Plan, u: Updates, store: map<Id, Event>, i: nat)
    requires i < Pairs(plan) && u.dates.Some? && Stored(plan, store)
    requires plan.existing[i].0 != plan.key
    ensures var k := plan.existing[i].0;
      && k in PairedStore(plan, u, store, i + 1)
      && PairedStore(plan, u, store, i + 1)[k] == ApplyUpdates(store[k], Resolved(u, plan.dates[i], plan.delta))
    ensures forall x :: x in PairedStore(plan, u, store, i) && x != plan.existing[i].0 ==>
      x in PairedStore(plan, u, store, i + 1) && PairedStore(plan, u, store, i + 1)[x] == PairedStore(plan, u, store, i)[x]
  {
    var k := plan.existing[i].0;
    DistinctUnnamed(plan, i);
    PairedStoreUnchanged(plan, u, store, i);
    PairedUpdatesFacts(plan, u, i);
    AlikeDerived(PairedUpdates(plan, u, i), u, plan.original, plan.dates[i], plan.delta, k);
  }

  /** Each paired event other than the original is patched once, with the updates moved to
      its date. */
  lemma {:induction false} PairedStorePatched(plan: Plan, u: Updates, store: map<Id, Event>, n: nat)
    requires n <= Pairs(plan) && u.dates.Some? && Stored(plan, store)
    ensures forall i :: 0 <= i < n && plan.existing[i].0 != plan.key ==>
              && plan.existing[i].0 in PairedStore(plan, u, store, n)
              && PairedStore(plan, u, store, n)[plan.existing[i].0] ==
                 ApplyUpdates(store[plan.existing[i].0], Resolved(u, plan.dates[i], plan.delta))
    decreases n
  {
    if n > 0 {
      var i := n - 1;
      PairedStorePatched(plan, u, store, i);
      var k := plan.existing[i].0;
      if k != plan.key {
        PairedStoreStep(plan, u, store, i);
        DistinctUnnamed(plan, i);
      } else {
        assert PairedStore(plan, u, store, n) == PairedStore(plan, u, store, i);
      }
    }
  }

  /** Deleting a list of events: exactly their ids leave the store and the order, in the
      order given each lands in the history, and nothing else changes. */
  lemma {:induction false} DeleteAllFacts(w: World, ex: seq<(Id, Event)>)
    ensures DeleteAll(w, ex).(store := w.store, order := w.order, deleted := w.deleted) == w
    ensures DeleteAll(w, ex).deleted == w.deleted + Snapshots(ex)
    ensures forall k :: k in DeleteAll(w, ex).store <==> k in w.store && k !in Keys(ex)
    ensures forall k :: k in DeleteAll(w, ex).store ==> DeleteAll(w, ex).store[k] == w.store[k]
    ensures forall k :: k in DeleteAll(w, ex).order <==> k in w.order && k !in Keys(ex)
    ensures Distinct(w.order) ==> Distinct(DeleteAll(w, ex).order)
    decreases |ex|
  {
    if ex != [] {
      var init := ex[..|ex| - 1];
      DeleteAllFacts(w, init);
      assert Keys(ex) == Keys(init) + [ex[|ex| - 1].0];
      assert Snapshots(ex) == Snapshots(init) + [ex[|ex| - 1].1];
      var w1 := DeleteAll(w, init);
      if Distinct(w.order) {
        WithoutDistinct(w1.order, ex[|ex| - 1].0);
      }
    } else {
      assert Keys(ex) == [] && Snapshots(ex) == [];
    }
  }

  // ---------------------------------------------------------------------------
  // The rule-present branch as a whole

  /** The comparison set never repeats an id, and every id in it is stored or is the
      original's. */
  lemma ExistingStored(w: World, plan: Plan, original: Event, rid: Id)
    requires Distinct(w.order)
    requires plan.existing == Existing(w, plan.key, original, rid)
    ensures Stored(plan, w.store)
  {
    if original.dates.rule.Some? {
      var ids := Select(w.order, w.store, (k: Id, e: Event) => Following(e, rid, original));
      SelectDistinct(w.order, w.store, (k: Id, e: Event) => Following(e, rid, original));
      assert Keys(plan.existing) == ids;
    } else {
      assert Keys(plan.existing) == [plan.key];
    }
  }

  /** The rule-present branch is its setup, the whole loop, then the final store and
      notification. */
  lemma SeriesResult(w: World, u: Updates, key: Id, original: Event, user: Option<UserId>, gen: Generator)
    requires Distinct(w.order) && u.dates.Some? && u.dates.value.rule.Some?
    requires SeriesSetup(w, u, key, original, gen).Ok?
    ensures var (plan, s0) := SeriesSetup(w, u, key, original, gen).value;
      var f := FinalPass(plan, s0);
      && (forall i :: 0 <= i < |f.adds| ==> f.adds[i].id.Some?)
      && UpdateSeries(w, u, key, original, user, gen) == Ok((Finish(f, key, s0.updates.recurrenceId.value), f.updates))
  {
    var (plan, s0) := SeriesSetup(w, u, key, original, gen).value;
    ExistingStored(w, plan, original, s0.updates.recurrenceId.value);
    ReconFinal(plan, s0, user, gen);
  }

  /** The rule-present branch raises exactly when the dates patch lacks an end or a start
      or its byday value does not parse; the nested patches never fail. */
  lemma SeriesErrors(w: World, u: Updates, key: Id, original: Event, user: Option<UserId>, gen: Generator)
    requires Distinct(w.order) && u.dates.Some? && u.dates.value.rule.Some?
    ensures UpdateSeries(w, u, key, original, user, gen).Err? <==>
      || u.dates.value.end.None? || u.dates.value.start.None?
      || ParseByDay(u.dates.value.rule.value.byday).Err?
  {
    if SeriesSetup(w, u, key, original, gen).Ok? {
      SeriesResult(w, u, key, original, user, gen);
    }
  }
}
