/** The update path of the events service (EventsService.on_update), as functions over the
    whole observable state: the stored events, the next guid serial and the logs of the
    calls that leave the service (notifications, spikes, history).  The class in
    service.dfy changes the same state step by step and is proved against these. */
module Series {
  import opened Types
  import opened Recurrence

  /** The observable state: the stored event documents by `_id` and their order in the
      backend's results, the next guid serial, and what was sent to other services. */
  datatype World = World(
    store: map<Id, Event>,
    order: seq<Id>,
    next: nat,
    notifications: seq<Notification>,
    spiked: seq<Id>,
    deleted: seq<Event>,
    created: seq<Event>)

  /** A consistent store: every stored id listed once in the order, each document keyed by
      its own `_id`, and every generated id below the next serial. */
  ghost predicate Valid(w: World) {
    && Distinct(w.order)
    && (forall k :: k in w.order <==> k in w.store)
    && (forall k :: k in w.store ==> w.store[k].id == Some(k))
    && (forall k :: k in w.store && k.Guid? ==> k.serial < w.next)
  }

  // ---------------------------------------------------------------------------
  // Store primitives

  /** x comes before y in ids. */
  predicate Precedes(ids: seq<Id>, x: Id, y: Id) {
    exists a, b :: 0 <= a < b < |ids| && ids[a] == x && ids[b] == y
  }

  /** The elements of r come in the order they have in ids. */
  predicate InOrderOf(r: seq<Id>, ids: seq<Id>) {
    forall i, j :: 0 <= i < j < |r| ==> Precedes(ids, r[i], r[j])
  }

  /** Appending an id to a list keeps the order of what was drawn from the list, and puts
      the new id after all of it. */
  lemma InOrderExtend(r: seq<Id>, init: seq<Id>, k: Id)
    requires InOrderOf(r, init) && forall x :: x in r ==> x in init
    ensures InOrderOf(r, init + [k]) && InOrderOf(r + [k], init + [k])
  {
    var ids := init + [k];
    forall i, j | 0 <= i < j < |r| ensures Precedes(ids, r[i], r[j]) {
      var a, b :| 0 <= a < b < |init| && init[a] == r[i] && init[b] == r[j];
      assert ids[a] == r[i] && ids[b] == r[j];
    }
    var r2 := r + [k];
    forall i, j | 0 <= i < j < |r2| ensures Precedes(ids, r2[i], r2[j]) {
      if j < |r| {
        assert r2[i] == r[i] && r2[j] == r[j];
      } else {
        assert r2[i] in r;
        var a :| 0 <= a < |init| && init[a] == r2[i];
        assert ids[a] == r2[i] && ids[|init|] == r2[j];
      }
    }
  }

  /** The stored ids, in backend order, whose document satisfies `keep` (self.find). */
  function Select(ids: seq<Id>, store: map<Id, Event>, keep: (Id, Event) -> bool): (r: seq<Id>)
    ensures forall k :: k in r <==> k in ids && k in store && keep(k, store[k])
    ensures InOrderOf(r, ids)
    decreases |ids|
  {
    if ids == [] then []
    else
      var init := ids[..|ids| - 1];
      var rest := Select(init, store, keep);
      var k := ids[|ids| - 1];
      assert ids == init + [k];
      InOrderExtend(rest, init, k);
      if k in store && keep(k, store[k]) then rest + [k] else rest
  }

  lemma {:induction false} SelectDistinct(ids: seq<Id>, store: map<Id, Event>, keep: (Id, Event) -> bool)
    requires Distinct(ids)
    ensures Distinct(Select(ids, store, keep))
    decreases |ids|
  {
    if ids != [] {
      var init, k := ids[..|ids| - 1], ids[|ids| - 1];
      SelectDistinct(init, store, keep);
      var rest := Select(init, store, keep);
      if k in store && keep(k, store[k]) {
        assert k !in init;
        var r := rest + [k];
        forall i, j | 0 <= i < j < |r| ensures r[i] != r[j] {
          if j == |rest| {
            assert r[i] in rest;
          }
        }
      }
    }
  }

  /** The ids without `k`. */
  function Without(ids: seq<Id>, k: Id): (r: seq<Id>)
    ensures forall x :: x in r <==> x in ids && x != k
    ensures |r| <= |ids|
    ensures InOrderOf(r, ids)
    decreases |ids|
  {
    if ids == [] then []
    else
      var init := ids[..|ids| - 1];
      var rest := Without(init, k);
      assert ids == init + [ids[|ids| - 1]];
      InOrderExtend(rest, init, ids[|ids| - 1]);
      if ids[|ids| - 1] == k then rest else rest + [ids[|ids| - 1]]
  }

  lemma {:induction false} WithoutDistinct(ids: seq<Id>, k: Id)
    requires Distinct(ids)
    ensures Distinct(Without(ids, k))
    decreases |ids|
  {
    if ids != [] {
      var init, x := ids[..|ids| - 1], ids[|ids| - 1];
      WithoutDistinct(init, k);
      var rest := Without(init, k);
      if x != k {
        assert x !in init;
        var r := rest + [x];
        forall i, j | 0 <= i < j < |r| ensures r[i] != r[j] {
          if j == |rest| {
            assert r[i] in rest;
          }
        }
      }
    }
  }

  /** self.delete({'_id': k}) followed by the history entry for the deleted document. */
  function Delete(w: World, k: Id, snapshot: Event): (r: World)
    ensures k !in r.store && r.store.Keys == w.store.Keys - {k}
    ensures forall x :: x in r.store ==> r.store[x] == w.store[x]
    ensures r.deleted == w.deleted + [snapshot]
    ensures r.order == Without(w.order, k)
    ensures r.(store := w.store, order := w.order, deleted := w.deleted) == w
  {
    w.(store := w.store - {k}, order := Without(w.order, k), deleted := w.deleted + [snapshot])
  }

  /** Storing a batch of new documents, each under its own `_id`. */
  function InsertAll(w: World, es: seq<Event>): (r: World)
    requires forall i :: 0 <= i < |es| ==> es[i].id.Some?
    ensures r.store.Keys == w.store.Keys + set i | 0 <= i < |es| :: es[i].id.value
    ensures r.(store := w.store, order := w.order) == w
    decreases |es|
  {
    if es == [] then w
    else
      var w1 := InsertAll(w, es[..|es| - 1]);
      var e := es[|es| - 1];
      var k := e.id.value;
      w1.(store := w1.store[k := e], order := if k in w1.store then w1.order else w1.order + [k])
  }

  /** The user stamped as version creator when the request has one. */
  function Stamp(u: Updates, user: Option<UserId>): (r: Updates)
    ensures r.(versionCreator := u.versionCreator) == u
    ensures user.Some? && user.value != "" ==> r.versionCreator == user
    ensures !(user.Some? && user.value != "") ==> r == u
  {
    if user.Some? && user.value != "" then u.(versionCreator := user) else u
  }

  // ---------------------------------------------------------------------------
  // Rule removed: detach the original and spike the later members of its series

  /** The equality of the store's query language: a wanted value matches itself, a wanted
      None matches a stored None and a missing key alike. */
  predicate QueryEquals(stored: Field<Id>, wanted: Field<Id>) {
    if wanted.Val? then stored == wanted else !stored.Val?
  }

  /** A later member of the original's series: same recurrence id, another `_id`, a
      strictly later start. */
  predicate LaterSibling(k: Id, e: Event, key: Id, original: Event) {
    && original.recurrenceId.Val?
    && e.recurrenceId == original.recurrenceId
    && k != key
    && e.dates.start > original.dates.start
  }

  /** What the spike query selects as written: it runs whenever the original has a
      recurrence_id key, even one holding None, and then matches None as the store does. */
  predicate LaterSiblingAsWritten(k: Id, e: Event, key: Id, original: Event) {
    && !original.recurrenceId.Absent?
    && QueryEquals(e.recurrenceId, original.recurrenceId)
    && k != key
    && e.dates.start > original.dates.start
  }

  /** The ids the corrected spike query finds, in backend order. */
  function SpikeTargets(w: World, key: Id, original: Event): (r: seq<Id>)
    ensures forall k :: k in r <==> k in w.order && k in w.store && LaterSibling(k, w.store[k], key, original)
    ensures InOrderOf(r, w.order)
  {
    Select(w.order, w.store, (k, e) => LaterSibling(k, e, key, original))
  }

  /** The ids the spike query as written finds, in backend order. */
  function SpikeTargetsAsWritten(w: World, key: Id, original: Event): (r: seq<Id>)
    ensures forall k :: k in r <==> k in w.order && k in w.store && LaterSiblingAsWritten(k, w.store[k], key, original)
    ensures InOrderOf(r, w.order)
  {
    Select(w.order, w.store, (k, e) => LaterSiblingAsWritten(k, e, key, original))
  }

  /** The rule-removed branch, for updates already stamped and holding a dates patch: the
      rule and the recurrence id are cleared in the updates, every later member of the
      series is spiked, and one events:updated notification goes out.  No stored document
      changes. */
  function Detach(w: World, u: Updates, key: Id, original: Event): (r: (World, Updates))
    requires u.dates.Some?
    ensures r.0.(spiked := w.spiked, notifications := w.notifications) == w
    ensures |r.0.spiked| >= |w.spiked| && r.0.spiked[..|w.spiked|] == w.spiked
    ensures forall k :: k in r.0.spiked[|w.spiked|..] <==>
              k in w.order && k in w.store && LaterSibling(k, w.store[k], key, original)
    ensures r.0.notifications == w.notifications + [Notification(UpdatedKind, Some(key), None, u.versionCreator)]
    ensures r.1.dates.Some? && r.1.dates.value.rule.None? && r.1.recurrenceId == Null
    ensures r.1.(dates := u.dates, recurrenceId := u.recurrenceId) == u
    ensures r.1.dates.value.(rule := u.dates.value.rule) == u.dates.value
  {
    var targets := SpikeTargets(w, key, original);
    var spiked := w.spiked + targets;
    assert spiked[|w.spiked|..] == targets;
    (w.(spiked := spiked,
        notifications := w.notifications + [Notification(UpdatedKind, Some(key), None, u.versionCreator)]),
     u.(dates := Some(u.dates.value.(rule := None)), recurrenceId := Null))
  }

  // ---------------------------------------------------------------------------
  // Rule present: reconcile the series with the regenerated dates

  /** The fixed inputs of the reconciliation loop: the original's `_id` and document, the
      events to compare (id and the document as found), the regenerated dates and the
      duration of the updated event. */
  datatype Plan = Plan(key: Id, original: Event, existing: seq<(Id, Event)>, dates: seq<Instant>, delta: int)

  /** The loop's changing state: the world, the original's updates, the events to add. */
  datatype Pass = Pass(w: World, updates: Updates, adds: seq<Event>)

  function Positions(plan: Plan): nat {
    if |plan.existing| >= |plan.dates| then |plan.existing| else |plan.dates|
  }

  /** A member of the series `rid` that starts no earlier than the original. */
  predicate Following(e: Event, rid: Id, original: Event) {
    e.recurrenceId == Val(rid) && e.dates.start >= original.dates.start
  }

  /** The ids of the comparison set. */
  function Keys(ex: seq<(Id, Event)>): (r: seq<Id>)
    ensures |r| == |ex| && forall i :: 0 <= i < |ex| ==> r[i] == ex[i].0
  {
    seq(|ex|, i requires 0 <= i < |ex| => ex[i].0)
  }

  /** The comparison set: the original alone when it had no rule, otherwise every stored
      member of the series (recurrence id `rid`) starting no earlier than the original, as
      found, in the backend's order, each once. */
  function Existing(w: World, key: Id, original: Event, rid: Id): (r: seq<(Id, Event)>)
    ensures original.dates.rule.None? ==> r == [(key, original)]
    ensures original.dates.rule.Some? ==>
      forall i :: 0 <= i < |r| ==>
        && r[i].0 in w.store && r[i].1 == w.store[r[i].0]
        && r[i].1.recurrenceId == Val(rid) && r[i].1.dates.start >= original.dates.start
    ensures original.dates.rule.Some? ==>
      forall k :: k in w.order && k in w.store && Following(w.store[k], rid, original) ==> k in Keys(r)
    ensures original.dates.rule.Some? ==> InOrderOf(Keys(r), w.order)
    ensures original.dates.rule.Some? && Distinct(w.order) ==> Distinct(Keys(r))
  {
    if original.dates.rule.None? then [(key, original)]
    else
      var keep := (k: Id, e: Event) => Following(e, rid, original);
      var ids := Select(w.order, w.store, keep);
      var r := seq(|ids|, i requires 0 <= i < |ids| => (ids[i], w.store[ids[i]]));
      assert Keys(r) == ids;
      if Distinct(w.order) then SelectDistinct(w.order, w.store, keep); r else r
  }

  /** The dates patch moved to `date`, keeping the duration `delta`. */
  function Shift(p: DatesPatch, date: Instant, delta: int): (r: DatesPatch)
    ensures r.start == Some(date) && r.end == Some(date + delta)
    ensures r.tz == p.tz && r.rule == p.rule
  {
    p.(start := Some(date), end := Some(date + delta))
  }

  /** The original's updates moved to `date`. */
  function Moved(u: Updates, date: Instant, delta: int): (r: Updates)
    requires u.dates.Some?
    ensures r.dates == Some(Shift(u.dates.value, date, delta))
    ensures r.(dates := u.dates) == u
  {
    u.(dates := Some(Shift(u.dates.value, date, delta)))
  }

  /** The patch for a sibling: the updates without their guid, moved to the sibling's new
      date, and flagged so that the nested on_update does nothing. */
  function SiblingUpdates(u: Updates, date: Instant, delta: int): (r: Updates)
    requires u.dates.Some?
    ensures r.guid.None? && r.skipOnUpdate
    ensures r.dates == Some(Shift(u.dates.value, date, delta))
    ensures r.(guid := u.guid, dates := u.dates, skipOnUpdate := u.skipOnUpdate) == u
  {
    u.(guid := None, dates := Some(Shift(u.dates.value, date, delta)), skipOnUpdate := true)
  }

  /** A new member for a date no existing event takes: the original with the updates
      applied, moved to `date`, with a new guid as `_id`. */
  function NewOccurrence(original: Event, u: Updates, date: Instant, delta: int, g: Id): (r: Event)
    requires u.dates.Some?
    ensures r.id == Some(g) && r.guid == Some(g)
    ensures r.dates.start == date && r.dates.end == date + delta
    ensures r.dates.tz == u.dates.value.tz && r.dates.rule == u.dates.value.rule
    ensures u.recurrenceId != Absent ==> r.recurrenceId == u.recurrenceId
    ensures r.originalCreator == original.originalCreator
    ensures r.(dates := ApplyUpdates(original, u).dates, guid := ApplyUpdates(original, u).guid,
               id := original.id) == ApplyUpdates(original, u)
  {
    var e := ApplyUpdates(original, u);
    e.(dates := e.dates.(start := date, end := date + delta), guid := Some(g), id := Some(g))
  }

  /** on_update (with self.patch for its nested calls) as functions.  A patch flagged
      skip_on_update returns at once; ranks order the calls so that the nested patch of a
      sibling, which is always flagged, ranks below everything that issues it. */
  function OnUpdate(w: World, u: Updates, key: Id, original: Event, user: Option<UserId>, gen: Generator): (r: Result<(World, Updates)>)
    ensures u.skipOnUpdate ==> r == Ok((w, u.(skipOnUpdate := false)))
    decreases if u.skipOnUpdate then 2 else 7, 0
  {
    if u.skipOnUpdate then Ok((w, u.(skipOnUpdate := false)))
    else
      var u1 := Stamp(u, user);
      var u2 := if u1.dates.None? then u1.(dates := Some(DatesPatch(None, None, None, None))) else u1;
      if u2.dates.value.rule.None? then Ok(Detach(w, u2, key, original))
      else UpdateSeries(w, u2, key, original, user, gen)
  }

  /** The recurrence id of the updated series: the original's when it has a truthy one,
      otherwise a new guid; and the next serial after it. */
  function SeriesId(w: World, original: Event): (r: (Id, nat))
    ensures original.recurrenceId.Val? && Truthy(original.recurrenceId.value) ==>
              r == (original.recurrenceId.value, w.next)
    ensures !(original.recurrenceId.Val? && Truthy(original.recurrenceId.value)) ==>
              r == (Guid(w.next), w.next + 1)
  {
    if original.recurrenceId.Val? && Truthy(original.recurrenceId.value) then (original.recurrenceId.value, w.next)
    else (Guid(w.next), w.next + 1)
  }

  /** Everything the rule-present branch settles before its loop: the normalised updates
      with the recurrence id, the comparison set, the duration and the regenerated dates.
      A dates patch without end or start, or a byday value that does not parse, raises. */
  function SeriesSetup(w: World, u: Updates, key: Id, original: Event, gen: Generator): (r: Result<(Plan, Pass)>)
    requires u.dates.Some? && u.dates.value.rule.Some?
    ensures r.Err? <==> || u.dates.value.end.None? || u.dates.value.start.None?
                        || ParseByDay(u.dates.value.rule.value.byday).Err?
    ensures r.Ok? ==>
      var (plan, s0) := r.value;
      var (rid, n1) := SeriesId(w, original);
      && s0.updates.recurrenceId == Val(rid)
      && s0.updates.dates.Some?
      && s0.updates.dates.value.rule == Some(NormaliseRule(u.dates.value.rule.value))
      && s0.updates.dates.value.(rule := u.dates.value.rule) == u.dates.value
      && s0.updates.(recurrenceId := u.recurrenceId, dates := u.dates) == u
      && s0.w == w.(next := n1) && s0.adds == []
      && plan.key == key && plan.original == original
      && plan.existing == Existing(w, key, original, rid)
      && plan.delta == u.dates.value.end.value - u.dates.value.start.value
      && QueryFor(u.dates.value.start.value, u.dates.value.tz, NormaliseRule(u.dates.value.rule.value)).Ok?
      && plan.dates == Materialize(gen, QueryFor(u.dates.value.start.value, u.dates.value.tz,
                                                 NormaliseRule(u.dates.value.rule.value)).value)
      && |plan.dates| <= MaxOccurrences
  {
    var u1 := SetRecurringModeOnUpdates(u);
    var p := u1.dates.value;
    var (rid, n1) := SeriesId(w, original);
    var u2 := u1.(recurrenceId := Val(rid));
    if p.end.None? then Err(MissingEnd)
    else if p.start.None? then Err(MissingStart)
    else
      match QueryFor(p.start.value, p.tz, p.rule.value)
      case Err(err) => Err(err)
      case Ok(q) =>
        Ok((Plan(key, original, Existing(w, key, original, rid), Materialize(gen, q), p.end.value - p.start.value),
            Pass(w.(next := n1), u2, [])))
  }

  /** The rule-present branch: normalise the rule, settle the recurrence id, compare the
      existing events with the regenerated dates position by position, store the new
      members and send one events:updated:recurring notification. */
  function UpdateSeries(w: World, u: Updates, key: Id, original: Event, user: Option<UserId>, gen: Generator): (r: Result<(World, Updates)>)
    requires u.dates.Some? && u.dates.value.rule.Some?
    ensures SeriesSetup(w, u, key, original, gen).Err? ==> r == Err(SeriesSetup(w, u, key, original, gen).error)
    ensures r.Ok? ==>
      var ns := r.value.0.notifications;
      |ns| > 0 && ns[|ns| - 1] == Notification(UpdatedRecurringKind, Some(key), Some(SeriesId(w, original).0), r.value.1.versionCreator)
    decreases 6, 0
  {
    match SeriesSetup(w, u, key, original, gen)
    case Err(err) => Err(err)
    case Ok((plan, s0)) =>
      match Recon(plan, s0, Positions(plan), user, gen)
      case Err(err) => Err(err)
      case Ok(s) => Ok((Finish(s, key, s0.updates.recurrenceId.value), s.updates))
  }

  /** After the loop: store the new members (with their history entry) when there are any,
      then notify. */
  function Finish(s: Pass, key: Id, rid: Id): (r: World)
    requires forall i :: 0 <= i < |s.adds| ==> s.adds[i].id.Some?
    ensures r.notifications == s.w.notifications + [Notification(UpdatedRecurringKind, Some(key), Some(rid), s.updates.versionCreator)]
    ensures r.created == s.w.created + s.adds
    ensures r.store.Keys == s.w.store.Keys + set i | 0 <= i < |s.adds| :: s.adds[i].id.value
    ensures r.next == s.w.next && r.spiked == s.w.spiked && r.deleted == s.w.deleted
  {
    var w := if s.adds == [] then s.w else InsertAll(s.w, s.adds).(created := s.w.created + s.adds);
    w.(notifications := w.notifications + [Notification(UpdatedRecurringKind, Some(key), Some(rid), s.updates.versionCreator)])
  }

  /** The first n positions of the zip_longest loop. */
  function Recon(plan: Plan, s0: Pass, n: nat, user: Option<UserId>, gen: Generator): (r: Result<Pass>)
    requires n <= Positions(plan) && s0.updates.dates.Some?
    requires forall i :: 0 <= i < |s0.adds| ==> s0.adds[i].id.Some?
    ensures r.Ok? ==> r.value.updates.dates.Some?
    ensures r.Ok? ==> forall i :: 0 <= i < |r.value.adds| ==> r.value.adds[i].id.Some?
    decreases 5, n
  {
    if n == 0 then Ok(s0)
    else
      match Recon(plan, s0, n - 1, user, gen)
      case Err(err) => Err(err)
      case Ok(s) => ReconStep(plan, s, n - 1, user, gen)
  }

  /** Position i of the loop: no date left deletes the event, no event left creates one,
      the original itself moves the updates, any other event is patched. */
  function ReconStep(plan: Plan, s: Pass, i: nat, user: Option<UserId>, gen: Generator): (r: Result<Pass>)
    requires i < Positions(plan) && s.updates.dates.Some?
    requires forall j :: 0 <= j < |s.adds| ==> s.adds[j].id.Some?
    ensures r.Ok? ==> r.value.updates.dates.Some?
    ensures r.Ok? ==> forall j :: 0 <= j < |r.value.adds| ==> r.value.adds[j].id.Some?
    decreases 4, 0
  {
    if i >= |plan.dates| then
      Ok(s.(w := Delete(s.w, plan.existing[i].0, plan.existing[i].1)))
    else if i >= |plan.existing| then
      var g := Guid(s.w.next);
      Ok(Pass(s.w.(next := s.w.next + 1), s.updates,
              s.adds + [NewOccurrence(plan.original, s.updates, plan.dates[i], plan.delta, g)]))
    else if plan.existing[i].0 == plan.key then
      Ok(s.(updates := Moved(s.updates, plan.dates[i], plan.delta)))
    else
      match Patch(s.w, plan.existing[i].0, SiblingUpdates(s.updates, plan.dates[i], plan.delta), user, gen)
      case Err(err) => Err(err)
      case Ok(w1) => Ok(s.(w := w1))
  }

  /** self.patch(k, updates): on_update on the stored document, then the (possibly changed)
      updates written over it, when it is still stored. */
  function Patch(w: World, k: Id, u: Updates, user: Option<UserId>, gen: Generator): (r: Result<World>)
    ensures k !in w.store ==> r == Err(NotFound(k))
    decreases if u.skipOnUpdate then 3 else 8, 0
  {
    if k !in w.store then Err(NotFound(k))
    else
      match OnUpdate(w, u, k, w.store[k], user, gen)
      case Err(err) => Err(err)
      case Ok((w1, u1)) =>
        Ok(if k in w1.store then w1.(store := w1.store[k := ApplyUpdates(w1.store[k], u1)]) else w1)
  }
}
