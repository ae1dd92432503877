/** EventsService as a stateful object: the store, the guid counter and the logs of side
    effects are fields; on_create, on_created, on_update and the nested self.patch are
    methods that run the loops of the source, each proved to end in the state the
    functions of modules Creation and Series describe. */
module Service {
  import opened Types
  import opened Recurrence
  import opened Creation
  import opened Series
  import opened SeriesFacts

  /** Once a position of the reconciliation loop has raised, the later ones do not run. */
  lemma {:induction false} ReconErrSticks(plan: Plan, s0: Pass, i: nat, n: nat, user: Option<UserId>, gen: Generator)
    requires i <= n <= Positions(plan) && s0.updates.dates.Some?
    requires forall j :: 0 <= j < |s0.adds| ==> s0.adds[j].id.Some?
    requires Recon(plan, s0, i, user, gen).Err?
    ensures Recon(plan, s0, n, user, gen) == Recon(plan, s0, i, user, gen)
    decreases n
  {
    if n > i {
      ReconErrSticks(plan, s0, i, n - 1, user, gen);
    }
  }

  /** Once a document of on_create has raised, the later ones are not looked at. */
  lemma {:induction false} CreateErrSticks(docs: seq<Event>, gen: Generator, next: nat, i: nat)
    requires i <= |docs| && CreateFold(docs[..i], gen, next).Err?
    ensures CreateFold(docs, gen, next) == CreateFold(docs[..i], gen, next)
    decreases |docs|
  {
    if |docs| > i {
      var init := docs[..|docs| - 1];
      assert init[..i] == docs[..i];
      CreateErrSticks(init, gen, next, i);
    } else {
      assert docs[..i] == docs;
    }
  }

  class EventsService {
    /** The events collection, keyed by `_id`, and the order in which it lists them. */
    var store: map<Id, Event>
    var order: seq<Id>
    /** The serial of the next identifier generate_guid hands out. */
    var next: nat
    /** push_notification calls, events_spike patches and events_history entries. */
    var notifications: seq<Notification>
    var spiked: seq<Id>
    var deleted: seq<Event>
    var created: seq<Event>

    /** The whole state as a value. */
    function State(): World
      reads this
    {
      World(store, order, next, notifications, spiked, deleted, created)
    }

    constructor ()
      ensures State() == World(map[], [], 0, [], [], [], [])
      ensures Valid(State())
    {
      store, order, next := map[], [], 0;
      notifications, spiked, deleted, created := [], [], [], [];
    }

    /** on_create: prepare every document; replace each recurring one by the members of its
        series, which follow the documents kept.  Returns the list left behind, or the
        error a byday value that does not parse raises. */
    method OnCreate(docs: seq<Event>, gen: Generator) returns (r: Result<seq<Event>>)
      modifies this
      ensures var f := CreateFold(docs, gen, old(next));
        && (f.Ok? ==> r == Ok(Output(f.value)) && next == f.value.next)
        && (f.Err? ==> r == Err(f.error))
      ensures State().(next := old(next)) == old(State())
    {
      var kept: seq<Event> := [];
      var generated: seq<Event> := [];
      var i := 0;
      while i < |docs|
        invariant i <= |docs|
        invariant CreateFold(docs[..i], gen, old(next)) == Ok(Outcome(kept, generated, next))
        invariant State().(next := old(next)) == old(State())
      {
        assert docs[..i + 1][..i] == docs[..i];
        var step := CreateOne(kept, generated, docs[i], gen);
        if step.Err? {
          CreateErrSticks(docs, gen, old(next), i + 1);
          return Err(step.error);
        }
        kept, generated := step.value.0, step.value.1;
        i := i + 1;
      }
      assert docs[..|docs|] == docs;
      r := Ok(kept + generated);
    }

    /** One document of on_create: give it its guid and `_id`; keep it if it has no rule,
        otherwise normalise its rule, draw the series' id and add the series. */
    method CreateOne(kept: seq<Event>, generated: seq<Event>, e: Event, gen: Generator)
      returns (r: Result<(seq<Event>, seq<Event>)>)
      modifies this
      ensures var o := CreateStep(Outcome(kept, generated, old(next)), e, gen);
        && (o.Ok? ==> r == Ok((o.value.kept, o.value.generated)) && next == o.value.next)
        && (o.Err? ==> r == Err(o.error))
      ensures State().(next := old(next)) == old(State())
    {
      var (p, n1) := Prepare(e, next);
      next := n1;
      if p.dates.rule.None? {
        return Ok((kept + [p], generated));
      }
      var s := SetRecurringMode(p);
      var rid := Guid(next);
      next := next + 1;
      var q := SeedQuery(s);
      if q.Err? {
        return Err(q.error);
      }
      var series := ExpandInto(s, rid, Materialize(gen, q.value));
      r := Ok((kept, generated + series));
    }

    /** The members of one series, one fresh guid each, in the order of the dates. */
    method ExpandInto(s: Event, rid: Id, dates: seq<Instant>) returns (series: seq<Event>)
      modifies this
      ensures series == ExpandSeed(s, rid, dates, old(next)) && next == old(next) + |dates|
      ensures State().(next := old(next)) == old(State())
    {
      series := [];
      var j := 0;
      while j < |dates|
        invariant j <= |dates| && next == old(next) + j
        invariant series == ExpandSeed(s, rid, dates[..j], old(next))
        invariant State().(next := old(next)) == old(State())
      {
        assert ExpandSeed(s, rid, dates[..j + 1], old(next)) ==
               ExpandSeed(s, rid, dates[..j], old(next)) + [Occurrence(s, rid, dates[j], Guid(old(next) + j))];
        series := series + [Occurrence(s, rid, dates[j], Guid(next))];
        next := next + 1;
        j := j + 1;
      }
      assert dates[..|dates|] == dates;
    }

    /** on_created: one notification per announced id not announced before. */
    method OnCreated(docs: seq<Event>)
      modifies this
      ensures notifications == old(notifications) + CreatedNotifications(docs)
      ensures State().(notifications := old(notifications)) == old(State())
    {
      var sent: seq<Option<Id>> := [];
      ghost var ns: seq<Notification> := [];
      var i := 0;
      while i < |docs|
        invariant i <= |docs|
        invariant ns == CreatedNotifications(docs[..i])
        invariant notifications == old(notifications) + ns
        invariant sent == Items(ns)
        invariant State().(notifications := old(notifications)) == old(State())
      {
        var d := docs[i];
        var kind := CreatedKind;
        var id := d.id;
        if d.recurrenceId.Val? && Truthy(d.recurrenceId.value) {
          kind := CreatedRecurringKind;
          id := Some(d.recurrenceId.value);
        }
        assert id == NotifyKey(d);
        CreatedNotificationsStep(docs, i);
        if id !in sent {
          var n := Notification(kind, id, None, d.originalCreator);
          assert n == CreatedNotice(d);
          ItemsSnoc(ns, n);
          sent := sent + [id];
          notifications := notifications + [n];
          ns := ns + [n];
        }
        i := i + 1;
      }
      assert docs[..|docs|] == docs;
    }

    /** self.patch(k, u): on_update on the stored document, then the updates it returns
        written over the document if it is still stored. */
    method Patch(k: Id, u: Updates, user: Option<UserId>, gen: Generator) returns (err: Option<Error>)
      modifies this
      ensures var p := Series.Patch(old(State()), k, u, user, gen);
        && (p.Ok? ==> err.None? && State() == p.value)
        && (p.Err? ==> err == Some(p.error))
      decreases if u.skipOnUpdate then 3 else 8, 0
    {
      if k !in store {
        return Some(NotFound(k));
      }
      var u1;
      u1, err := OnUpdate(u, k, store[k], user, gen);
      if err.None? && k in store {
        store := store[k := ApplyUpdates(store[k], u1)];
      }
    }

    /** on_update: the guard for nested patches, the user stamp, then one of the two
        branches. */
    method OnUpdate(u: Updates, key: Id, original: Event, user: Option<UserId>, gen: Generator)
      returns (u2: Updates, err: Option<Error>)
      modifies this
      ensures var o := Series.OnUpdate(old(State()), u, key, original, user, gen);
        && (o.Ok? ==> err.None? && State() == o.value.0 && u2 == o.value.1)
        && (o.Err? ==> err == Some(o.error))
      decreases if u.skipOnUpdate then 2 else 7, 0
    {
      if u.skipOnUpdate {
        return u.(skipOnUpdate := false), None;
      }
      var v := Stamp(u, user);
      if v.dates.None? {
        v := v.(dates := Some(DatesPatch(None, None, None, None)));
      }
      if v.dates.value.rule.None? {
        u2 := Detach(v, key, original);
        err := None;
      } else {
        u2, err := UpdateSeries(v, key, original, user, gen);
      }
    }

    /** The rule-removed branch: spike the later members one by one, notify, and clear
        the rule and the recurrence id in the updates. */
    method Detach(u: Updates, key: Id, original: Event) returns (u2: Updates)
      requires u.dates.Some?
      modifies this
      ensures (State(), u2) == Series.Detach(old(State()), u, key, original)
    {
      var events := SpikeTargets(State(), key, original);
      var i := 0;
      while i < |events|
        invariant i <= |events|
        invariant State() == old(State()).(spiked := old(spiked) + events[..i])
      {
        assert events[..i + 1] == events[..i] + [events[i]];
        spiked := spiked + [events[i]];
        i := i + 1;
      }
      assert events[..|events|] == events;
      notifications := notifications + [Notification(UpdatedKind, Some(key), None, u.versionCreator)];
      u2 := u.(dates := Some(u.dates.value.(rule := None)), recurrenceId := Null);
    }

    /** The rule-present branch: after the setup, walk the existing events and the
        regenerated dates side by side; then store the new members and notify. */
    method UpdateSeries(u: Updates, key: Id, original: Event, user: Option<UserId>, gen: Generator)
      returns (u2: Updates, err: Option<Error>)
      requires u.dates.Some? && u.dates.value.rule.Some?
      modifies this
      ensures var r := Series.UpdateSeries(old(State()), u, key, original, user, gen);
        && (r.Ok? ==> err.None? && State() == r.value.0 && u2 == r.value.1)
        && (r.Err? ==> err == Some(r.error))
      decreases 6, 0
    {
      var setup := SeriesSetup(State(), u, key, original, gen);
      if setup.Err? {
        return u, Some(setup.error);
      }
      var (plan, s0) := setup.value;
      next := s0.w.next;
      var adds;
      u2, adds, err := ReconcileAll(plan, s0, user, gen);
      if err.Some? {
        return;
      }
      Conclude(u2, adds, key, s0.updates.recurrenceId.value);
    }

    /** After the loop: store the new members with their history entry, then notify. */
    method Conclude(u2: Updates, adds: seq<Event>, key: Id, rid: Id)
      requires forall i :: 0 <= i < |adds| ==> adds[i].id.Some?
      modifies this
      ensures State() == Finish(Pass(old(State()), u2, adds), key, rid)
    {
      if adds != [] {
        StoreAll(adds);
        created := created + adds;
      }
      notifications := notifications + [Notification(UpdatedRecurringKind, Some(key), Some(rid), u2.versionCreator)];
    }

    /** The whole zip_longest loop, from the state and updates of the setup. */
    method ReconcileAll(plan: Plan, s0: Pass, user: Option<UserId>, gen: Generator)
      returns (u2: Updates, adds: seq<Event>, err: Option<Error>)
      requires s0.updates.dates.Some? && s0.adds == [] && State() == s0.w
      modifies this
      ensures var r := Recon(plan, s0, Positions(plan), user, gen);
        && (r.Ok? ==> err.None? && Pass(State(), u2, adds) == r.value)
        && (r.Err? ==> err == Some(r.error))
      decreases 5, 0
    {
      u2, adds, err := s0.updates, [], None;
      var i := 0;
      while i < Positions(plan)
        invariant i <= Positions(plan) && u2.dates.Some? && err.None?
        invariant forall j :: 0 <= j < |adds| ==> adds[j].id.Some?
        invariant Recon(plan, s0, i, user, gen) == Ok(Pass(State(), u2, adds))
      {
        ReconNext(plan, s0, i + 1, user, gen);
        u2, adds, err := Reconcile(plan, i, u2, adds, user, gen);
        if err.Some? {
          ReconErrSticks(plan, s0, i + 1, Positions(plan), user, gen);
          return;
        }
        i := i + 1;
      }
    }

    /** Position i of the zip_longest loop: no date left deletes the event (with its
        history entry), no event left collects a new member with a fresh guid, the
        original moves the updates' dates, and any other event is patched with the
        updates moved to its date and flagged skip_on_update. */
    method Reconcile(plan: Plan, i: nat, u: Updates, adds: seq<Event>, user: Option<UserId>, gen: Generator)
      returns (u2: Updates, adds2: seq<Event>, err: Option<Error>)
      requires i < Positions(plan) && u.dates.Some?
      requires forall j :: 0 <= j < |adds| ==> adds[j].id.Some?
      modifies this
      ensures var r := ReconStep(plan, Pass(old(State()), u, adds), i, user, gen);
        && (r.Ok? ==> err.None? && Pass(State(), u2, adds2) == r.value)
        && (r.Err? ==> err == Some(r.error))
      decreases 4, 0
    {
      u2, adds2, err := u, adds, None;
      if i >= |plan.dates| {
        var (k, snapshot) := plan.existing[i];
        store := store - {k};
        order := Without(order, k);
        deleted := deleted + [snapshot];
      } else if i >= |plan.existing| {
        adds2 := adds + [NewOccurrence(plan.original, u, plan.dates[i], plan.delta, Guid(next))];
        next := next + 1;
      } else if plan.existing[i].0 == plan.key {
        u2 := Moved(u, plan.dates[i], plan.delta);
      } else {
        err := Patch(plan.existing[i].0, SiblingUpdates(u, plan.dates[i], plan.delta), user, gen);
      }
    }

    /** self.create(batch): store each document under its own `_id`, listing new ids last. */
    method StoreAll(es: seq<Event>)
      requires forall j :: 0 <= j < |es| ==> es[j].id.Some?
      modifies this
      ensures State() == InsertAll(old(State()), es)
    {
      var j := 0;
      while j < |es|
        invariant j <= |es|
        invariant State() == InsertAll(old(State()), es[..j])
      {
        assert es[..j + 1][..j] == es[..j];
        var k := es[j].id.value;
        order := if k in store then order else order + [k];
        store := store[k := es[j]];
        j := j + 1;
      }
      assert es[..|es|] == es;
    }
  }
}
