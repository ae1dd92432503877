/** The create path of the events service: preparing each submitted document, expanding
    a recurring one into its series (EventsService.on_create), and the created
    notifications with their de-duplication (EventsService.on_created). */
module Creation {
  import opened Types
  import opened Recurrence

  /** overwrite_event_expiry_date: an expiry key that exists takes the value of dates.end;
      a missing one stays missing, and nothing else changes. */
  function OverwriteExpiry(e: Event): (r: Event)
    ensures r.expiry.Absent? == e.expiry.Absent?
    ensures !r.expiry.Absent? ==> r.expiry == Val(r.dates.end)
    ensures r.(expiry := e.expiry) == e
  {
    if e.expiry.Absent? then e else e.(expiry := Val(e.dates.end))
  }

  lemma OverwriteExpiryIdempotent(e: Event)
    ensures OverwriteExpiry(OverwriteExpiry(e)) == OverwriteExpiry(e)
  {
  }

  function Duration(e: Event): int {
    e.dates.end - e.dates.start
  }

  /** The facts on_create establishes for every document it keeps: the guid it was given
      (or a new one), `_id` equal to it, and the expiry refreshed; nothing else differs. */
  predicate PreparedFrom(o: Event, d: Event) {
    && o.(id := d.id, guid := d.guid, expiry := d.expiry) == d
    && o.id.Some? && o.id == o.guid
    && (d.guid.Some? ==> o.guid == d.guid)
    && o.expiry.Absent? == d.expiry.Absent?
    && (!o.expiry.Absent? ==> o.expiry == Val(d.dates.end))
  }

  /** The first steps of on_create for one document, given the next guid serial: a guid
      when there is none, `_id` set to the guid, the expiry refreshed.  Returns the
      document and the next unused serial. */
  function Prepare(e: Event, next: nat): (r: (Event, nat))
    ensures PreparedFrom(r.0, e)
    ensures e.guid.Some? ==> r.1 == next
    ensures e.guid.None? ==> r.0.guid == Some(Guid(next)) && r.1 == next + 1
  {
    var g := if e.guid.Some? then e.guid.value else Guid(next);
    var n := if e.guid.Some? then next else next + 1;
    (OverwriteExpiry(e.(guid := Some(g), id := Some(g))), n)
  }

  /** One generated member of a series: a copy of the seed moved to `date` with the seed's
      duration, a new guid and `_id`, the series' recurrence id and a refreshed expiry. */
  function Occurrence(seed: Event, rid: Id, date: Instant, g: Id): (r: Event)
    ensures r.dates.start == date && Duration(r) == Duration(seed)
    ensures r.id == Some(g) && r.guid == Some(g) && r.recurrenceId == Val(rid)
    ensures r.expiry.Absent? == seed.expiry.Absent?
    ensures !r.expiry.Absent? ==> r.expiry == Val(r.dates.end)
    ensures r.dates.(start := seed.dates.start, end := seed.dates.end) == seed.dates
    ensures r.(id := seed.id, guid := seed.guid, recurrenceId := seed.recurrenceId,
               expiry := seed.expiry, dates := seed.dates) == seed
  {
    var delta := seed.dates.end - seed.dates.start;
    OverwriteExpiry(seed.(dates := seed.dates.(start := date, end := date + delta),
                          guid := Some(g), id := Some(g), recurrenceId := Val(rid)))
  }

  /** The series of a seed over the materialised dates, one member per date in order, the
      k-th member taking the guid serial first + k. */
  function ExpandSeed(seed: Event, rid: Id, dates: seq<Instant>, first: nat): (r: seq<Event>)
    ensures |r| == |dates|
    ensures forall k :: 0 <= k < |r| ==> r[k] == Occurrence(seed, rid, dates[k], Guid(first + k))
  {
    seq(|dates|, k requires 0 <= k < |dates| => Occurrence(seed, rid, dates[k], Guid(first + k)))
  }

  /** The documents on_create keeps, the series members it generated and the next guid
      serial, after some prefix of the submitted documents. */
  datatype Outcome = Outcome(kept: seq<Event>, generated: seq<Event>, next: nat)

  /** The query of a (normalised) recurring seed. */
  function SeedQuery(s: Event): Result<DateQuery>
    requires s.dates.rule.Some?
  {
    QueryFor(s.dates.start, s.dates.tz, s.dates.rule.value)
  }

  /** A recurring document whose byday value does not parse: on_create raises on it. */
  predicate BadSeed(e: Event) {
    e.dates.rule.Some? && ParseByDay(e.dates.rule.value.byday).Err?
  }

  /** on_create's treatment of one document: a document without a rule is kept prepared;
      a recurring one is normalised, gets a new recurrence id and is replaced by its
      series.  A byday value that does not parse raises. */
  function CreateStep(acc: Outcome, e: Event, gen: Generator): (r: Result<Outcome>)
    ensures r.Err? <==> BadSeed(e)
    ensures r.Ok? ==> acc.next <= r.value.next
    ensures e.dates.rule.None? ==>
      r.Ok? && r.value.kept == acc.kept + [Prepare(e, acc.next).0] && r.value.generated == acc.generated
    ensures e.dates.rule.Some? && r.Ok? ==> r.value.kept == acc.kept
  {
    var (p, n1) := Prepare(e, acc.next);
    if p.dates.rule.None? then Ok(acc.(kept := acc.kept + [p], next := n1))
    else
      var s := SetRecurringMode(p);
      match SeedQuery(s)
      case Err(err) => Err(err)
      case Ok(q) =>
        var dates := Materialize(gen, q);
        Ok(Outcome(acc.kept, acc.generated + ExpandSeed(s, Guid(n1), dates, n1 + 1), n1 + 1 + |dates|))
  }

  /** on_create over a list of documents, in order: it raises exactly when one of them is
      a recurring document whose byday does not parse. */
  function CreateFold(docs: seq<Event>, gen: Generator, next: nat): (r: Result<Outcome>)
    ensures r.Err? <==> exists i :: 0 <= i < |docs| && BadSeed(docs[i])
    ensures r.Ok? ==> next <= r.value.next
    decreases |docs|
  {
    if docs == [] then Ok(Outcome([], [], next))
    else
      var init := docs[..|docs| - 1];
      assert forall i :: 0 <= i < |init| ==> init[i] == docs[i];
      match CreateFold(init, gen, next)
      case Err(err) => Err(err)
      case Ok(acc) => CreateStep(acc, docs[|docs| - 1], gen)
  }

  /** The list on_create leaves behind: the kept documents, then the generated ones. */
  function Output(o: Outcome): seq<Event> {
    o.kept + o.generated
  }

  /** The submitted documents that carry no recurring rule, in order. */
  function NonRecurring(docs: seq<Event>): seq<Event>
    decreases |docs|
  {
    if docs == [] then []
    else NonRecurring(docs[..|docs| - 1]) + (if docs[|docs| - 1].dates.rule.None? then [docs[|docs| - 1]] else [])
  }

  function RecurringCount(docs: seq<Event>): nat
    decreases |docs|
  {
    if docs == [] then 0
    else RecurringCount(docs[..|docs| - 1]) + (if docs[|docs| - 1].dates.rule.Some? then 1 else 0)
  }

  /** An identifier the guid generator handed out at or after serial `lo` and before `hi`. */
  predicate IssuedIn(id: Option<Id>, lo: nat, hi: nat) {
    id.Some? && id.value.Guid? && lo <= id.value.serial < hi
  }

  function SerialOf(id: Option<Id>): int {
    if id.Some? && id.value.Guid? then id.value.serial else -1
  }

  /** The kept documents are the submitted documents without a rule, prepared, in order. */
  predicate KeptShape(docs: seq<Event>, kept: seq<Event>) {
    && |kept| == |NonRecurring(docs)|
    && forall i :: 0 <= i < |kept| ==> PreparedFrom(kept[i], NonRecurring(docs)[i])
  }

  /** A generated member: its guid is its `_id`, both it and its recurrence id were issued
      in [lo, hi), and it still carries the (normalised) rule. */
  predicate Member(g: Event, lo: nat, hi: nat) {
    && g.id == g.guid
    && IssuedIn(g.id, lo, hi)
    && g.recurrenceId.Val?
    && IssuedIn(Some(g.recurrenceId.value), lo, hi)
    && g.dates.rule.Some?
  }

  predicate Ascending(gs: seq<Event>) {
    forall i, j :: 0 <= i < j < |gs| ==> SerialOf(gs[i].id) < SerialOf(gs[j].id)
  }

  predicate GeneratedShape(gs: seq<Event>, lo: nat, hi: nat) {
    && (forall i :: 0 <= i < |gs| ==> Member(gs[i], lo, hi))
    && Ascending(gs)
  }

  lemma {:induction false} NonRecurringPlain(docs: seq<Event>)
    ensures forall i :: 0 <= i < |NonRecurring(docs)| ==> NonRecurring(docs)[i].dates.rule.None?
    decreases |docs|
  {
    if docs != [] {
      NonRecurringPlain(docs[..|docs| - 1]);
    }
  }

  /** on_create keeps exactly the submitted documents without a rule, each prepared, in
      their order; none of them carries a rule. */
  lemma {:induction false} CreateKeepsPlain(docs: seq<Event>, gen: Generator, next: nat)
    ensures CreateFold(docs, gen, next).Ok? ==>
      && KeptShape(docs, CreateFold(docs, gen, next).value.kept)
      && forall i :: 0 <= i < |CreateFold(docs, gen, next).value.kept| ==>
           CreateFold(docs, gen, next).value.kept[i].dates.rule.None?
    decreases |docs|
  {
    if docs != [] && CreateFold(docs, gen, next).Ok? {
      var init, e := docs[..|docs| - 1], docs[|docs| - 1];
      CreateKeepsPlain(init, gen, next);
      var acc := CreateFold(init, gen, next).value;
      var o := CreateFold(docs, gen, next).value;
      assert NonRecurring(docs) == NonRecurring(init) + (if e.dates.rule.None? then [e] else []);
      if e.dates.rule.None? {
        assert o.kept == acc.kept + [Prepare(e, acc.next).0];
      } else {
        assert o.kept == acc.kept;
      }
      NonRecurringPlain(docs);
    }
  }

  lemma SeedMembers(acc: Outcome, e: Event, gen: Generator, next: nat)
    requires e.dates.rule.Some? && next <= acc.next
    requires GeneratedShape(acc.generated, next, acc.next)
    requires CreateStep(acc, e, gen).Ok?
    ensures var o := CreateStep(acc, e, gen).value;
            && acc.next <= o.next && o.kept == acc.kept
            && |o.generated| <= |acc.generated| + MaxOccurrences
            && GeneratedShape(o.generated, next, o.next)
  {
    var o := CreateStep(acc, e, gen).value;
    var (p, n1) := Prepare(e, acc.next);
    var s := SetRecurringMode(p);
    var dates := Materialize(gen, SeedQuery(s).value);
    var more := ExpandSeed(s, Guid(n1), dates, n1 + 1);
    assert o == Outcome(acc.kept, acc.generated + more, n1 + 1 + |dates|);
    forall k | 0 <= k < |more| ensures Member(more[k], next, o.next) {
      assert more[k] == Occurrence(s, Guid(n1), dates[k], Guid(n1 + 1 + k));
    }
    forall i | 0 <= i < |o.generated| ensures Member(o.generated[i], next, o.next) {
      if i < |acc.generated| {
        assert o.generated[i] == acc.generated[i];
        assert Member(acc.generated[i], next, acc.next);
      } else {
        assert o.generated[i] == more[i - |acc.generated|];
      }
    }
    AppendAscending(acc.generated, more, next, acc.next, n1 + 1);
  }

  /** Appending members with serials first, first + 1, ... to members issued before keeps
      the serials strictly increasing. */
  lemma AppendAscending(prev: seq<Event>, more: seq<Event>, next: nat, bound: nat, first: nat)
    requires bound <= first
    requires forall i :: 0 <= i < |prev| ==> IssuedIn(prev[i].id, next, bound)
    requires Ascending(prev)
    requires forall k :: 0 <= k < |more| ==> more[k].id == Some(Guid(first + k))
    ensures Ascending(prev + more)
  {
    var all := prev + more;
    forall i, j | 0 <= i < j < |all| ensures SerialOf(all[i].id) < SerialOf(all[j].id) {
      if j >= |prev| {
        assert all[j] == more[j - |prev|];
        if i < |prev| {
          assert all[i] == prev[i];
        } else {
          assert all[i] == more[i - |prev|];
        }
      }
    }
  }

  /** on_create replaces every recurring document by generated members whose guids (equal
      to their `_id`) and recurrence ids are issued by this call, so differ from every id
      issued before it, whose guids strictly increase along the list (so no two are
      equal), and of which there are at most MaxOccurrences per seed. */
  lemma {:induction false} CreateGeneratesFresh(docs: seq<Event>, gen: Generator, next: nat)
    ensures CreateFold(docs, gen, next).Ok? ==>
      var o := CreateFold(docs, gen, next).value;
      && next <= o.next
      && GeneratedShape(o.generated, next, o.next)
      && |o.generated| <= MaxOccurrences * RecurringCount(docs)
    decreases |docs|
  {
    if docs != [] && CreateFold(docs, gen, next).Ok? {
      var init, e := docs[..|docs| - 1], docs[|docs| - 1];
      CreateGeneratesFresh(init, gen, next);
      var acc := CreateFold(init, gen, next).value;
      assert RecurringCount(docs) == RecurringCount(init) + (if e.dates.rule.Some? then 1 else 0);
      if e.dates.rule.Some? {
        SeedMembers(acc, e, gen, next);
      } else {
        var o := CreateFold(docs, gen, next).value;
        assert o.generated == acc.generated;
        assert acc.next <= o.next;
      }
    }
  }

  /** Expanding one recurring seed: no document is kept, the members follow the
      materialised dates of the normalised rule in order, all share one new recurrence
      id, each keeps the seed's duration and has a new guid equal to its `_id`. */
  lemma ExpandOneSeed(seed: Event, gen: Generator, next: nat)
    requires seed.dates.rule.Some?
    ensures var p := Prepare(seed, next);
            var s := SetRecurringMode(p.0);
            CreateFold([seed], gen, next).Ok? <==> SeedQuery(s).Ok?
    ensures CreateFold([seed], gen, next).Ok? ==>
            var o := CreateFold([seed], gen, next).value;
            var s := SetRecurringMode(Prepare(seed, next).0);
            var dates := Materialize(gen, SeedQuery(s).value);
            && o.kept == []
            && |o.generated| == |dates| <= MaxOccurrences
            && (forall k :: 0 <= k < |dates| ==>
                  && o.generated[k].dates.start == dates[k]
                  && Duration(o.generated[k]) == Duration(seed)
                  && o.generated[k].recurrenceId == o.generated[0].recurrenceId
                  && o.generated[k].id == o.generated[k].guid
                  && IssuedIn(o.generated[k].id, next, o.next))
            && (forall i, j :: 0 <= i < j < |dates| ==> o.generated[i].id != o.generated[j].id)
  {
    assert [seed][..0] == [];
    assert CreateFold([seed], gen, next) == CreateStep(Outcome([], [], next), seed, gen);
    if CreateFold([seed], gen, next).Ok? {
      var o := CreateFold([seed], gen, next).value;
      var (p, n1) := Prepare(seed, next);
      var s := SetRecurringMode(p);
      var dates := Materialize(gen, SeedQuery(s).value);
      assert o == Outcome([], ExpandSeed(s, Guid(n1), dates, n1 + 1), n1 + 1 + |dates|);
      SeedOccurrences(seed, s, Guid(n1), dates, n1 + 1, next, o.generated, o.next);
    }
  }

  /** One recurring document in the middle of on_create: nothing is kept, and its series
      is appended to the members generated so far: one member per materialised date of its
      normalised rule, in order, all with the new recurrence id drawn for it, each keeping
      the document's duration and taking the next guids. */
  lemma CreateStepSeed(acc: Outcome, e: Event, gen: Generator)
    requires e.dates.rule.Some? && CreateStep(acc, e, gen).Ok?
    ensures var p := Prepare(e, acc.next);
            var s := SetRecurringMode(p.0);
            SeedQuery(s).Ok? &&
            var dates := Materialize(gen, SeedQuery(s).value);
            var o := CreateStep(acc, e, gen).value;
            && o.kept == acc.kept
            && o.next == p.1 + 1 + |dates|
            && o.generated == acc.generated + ExpandSeed(s, Guid(p.1), dates, p.1 + 1)
            && forall k :: 0 <= k < |dates| ==>
                 && o.generated[|acc.generated| + k].dates.start == dates[k]
                 && Duration(o.generated[|acc.generated| + k]) == Duration(e)
                 && o.generated[|acc.generated| + k].recurrenceId == Val(Guid(p.1))
                 && o.generated[|acc.generated| + k].id == Some(Guid(p.1 + 1 + k))
  {
    var p := Prepare(e, acc.next);
    var s := SetRecurringMode(p.0);
    var dates := Materialize(gen, SeedQuery(s).value);
    var o := CreateStep(acc, e, gen).value;
    var more := ExpandSeed(s, Guid(p.1), dates, p.1 + 1);
    assert o.generated == acc.generated + more;
    forall k | 0 <= k < |dates|
      ensures o.generated[|acc.generated| + k] == Occurrence(s, Guid(p.1), dates[k], Guid(p.1 + 1 + k))
    {
      assert o.generated[|acc.generated| + k] == more[k];
    }
  }

  /** A prefix of the submitted documents: it succeeds when the whole list does, and what it
      generates is a prefix of what the whole list generates. */
  lemma {:induction false} CreateFoldPrefix(docs: seq<Event>, gen: Generator, next: nat, i: nat)
    requires i <= |docs| && CreateFold(docs, gen, next).Ok?
    ensures CreateFold(docs[..i], gen, next).Ok?
    ensures CreateFold(docs[..i], gen, next).value.generated <= CreateFold(docs, gen, next).value.generated
    decreases |docs|
  {
    if i < |docs| {
      var init, e := docs[..|docs| - 1], docs[|docs| - 1];
      assert init[..i] == docs[..i];
      CreateFoldPrefix(init, gen, next, i);
      var acc := CreateFold(init, gen, next).value;
      if e.dates.rule.Some? {
        CreateStepSeed(acc, e, gen);
      }
    } else {
      assert docs[..i] == docs;
    }
  }

  /** The fold over one more document is one more step. */
  lemma CreateFoldSnoc(docs: seq<Event>, gen: Generator, next: nat, i: nat)
    requires i < |docs| && CreateFold(docs[..i], gen, next).Ok?
    ensures CreateFold(docs[..i + 1], gen, next) == CreateStep(CreateFold(docs[..i], gen, next).value, docs[i], gen)
  {
    assert docs[..i + 1][..i] == docs[..i];
  }

  /** g holds `block` at index `at`. */
  predicate Embedded(g: seq<Event>, at: nat, block: seq<Event>) {
    at + |block| <= |g| && g[at..at + |block|] == block
  }

  /** g holds, from index `at`, one member per date: the k-th starts at dates[k], keeps
      the seed's duration, carries the recurrence id rid and the guid first + k. */
  predicate MembersAt(g: seq<Event>, at: nat, seed: Event, rid: Id, dates: seq<Instant>, first: nat) {
    && at + |dates| <= |g|
    && forall k :: 0 <= k < |dates| ==>
         && g[at + k].dates.start == dates[k]
         && Duration(g[at + k]) == Duration(seed)
         && g[at + k].recurrenceId == Val(rid)
         && g[at + k].id == Some(Guid(first + k))
  }

  /** The series of the recurring document e, expanded after the members `acc` holds, sits
      in g right after those members: e's normalised rule gives a query, and g holds the
      ExpandSeed series over its materialised dates, with the recurrence id drawn for e. */
  predicate SeriesBlock(acc: Outcome, e: Event, gen: Generator, g: seq<Event>)
    requires e.dates.rule.Some?
  {
    var p := Prepare(e, acc.next);
    var s := SetRecurringMode(p.0);
    && SeedQuery(s).Ok?
    && Embedded(g, |acc.generated|, ExpandSeed(s, Guid(p.1), Materialize(gen, SeedQuery(s).value), p.1 + 1))
  }

  /** The members of that block one by one: the k-th starts at the k-th materialised date,
      keeps e's duration, carries the recurrence id drawn for e and the k-th guid after it. */
  predicate SeriesBlockMembers(acc: Outcome, e: Event, gen: Generator, g: seq<Event>)
    requires e.dates.rule.Some?
  {
    var p := Prepare(e, acc.next);
    var s := SetRecurringMode(p.0);
    && SeedQuery(s).Ok?
    && MembersAt(g, |acc.generated|, e, Guid(p.1), Materialize(gen, SeedQuery(s).value), p.1 + 1)
  }

  /** on_create over any list: every recurring document contributes one contiguous block
      of generated members, placed after the members of the documents before it; the
      block is the document's series over the materialised dates of its normalised rule. */
  lemma CreateSeedBlock(docs: seq<Event>, gen: Generator, next: nat, i: nat)
    requires i < |docs| && docs[i].dates.rule.Some? && CreateFold(docs, gen, next).Ok?
    ensures CreateFold(docs[..i], gen, next).Ok?
    ensures SeriesBlock(CreateFold(docs[..i], gen, next).value, docs[i], gen, CreateFold(docs, gen, next).value.generated)
  {
    CreateFoldPrefix(docs, gen, next, i + 1);
    CreateFoldPrefix(docs, gen, next, i);
    CreateFoldSnoc(docs, gen, next, i);
    StepBlock(CreateFold(docs[..i], gen, next).value, docs[i], gen, CreateFold(docs, gen, next).value.generated);
  }

  /** The series a recurring document's step appends sits, in any extension g of the step's
      members, right after the members generated before the step. */
  lemma StepBlock(acc: Outcome, e: Event, gen: Generator, g: seq<Event>)
    requires e.dates.rule.Some? && CreateStep(acc, e, gen).Ok?
    requires CreateStep(acc, e, gen).value.generated <= g
    ensures SeriesBlock(acc, e, gen, g)
  {
    CreateStepSeed(acc, e, gen);
    var p := Prepare(e, acc.next);
    var s := SetRecurringMode(p.0);
    var dates := Materialize(gen, SeedQuery(s).value);
    BlockOfPrefix(acc.generated, ExpandSeed(s, Guid(p.1), dates, p.1 + 1), CreateStep(acc, e, gen).value.generated, g);
  }

  /** on_create over any list: the members of a recurring document's block, one by one. */
  lemma CreateSeedMembers(docs: seq<Event>, gen: Generator, next: nat, i: nat)
    requires i < |docs| && docs[i].dates.rule.Some? && CreateFold(docs, gen, next).Ok?
    ensures CreateFold(docs[..i], gen, next).Ok?
    ensures SeriesBlockMembers(CreateFold(docs[..i], gen, next).value, docs[i], gen, CreateFold(docs, gen, next).value.generated)
  {
    CreateSeedBlock(docs, gen, next, i);
    BlockMembers(CreateFold(docs[..i], gen, next).value, docs[i], gen, CreateFold(docs, gen, next).value.generated);
  }

  lemma BlockMembers(acc: Outcome, e: Event, gen: Generator, g: seq<Event>)
    requires e.dates.rule.Some? && SeriesBlock(acc, e, gen, g)
    ensures SeriesBlockMembers(acc, e, gen, g)
  {
    var p := Prepare(e, acc.next);
    var s := SetRecurringMode(p.0);
    SeriesAt(s, e, Guid(p.1), Materialize(gen, SeedQuery(s).value), p.1 + 1, |acc.generated|, g);
  }

  /** A series embedded at index `at` of g, member by member. */
  lemma SeriesAt(s: Event, seed: Event, rid: Id, dates: seq<Instant>, first: nat, at: nat, g: seq<Event>)
    requires Duration(s) == Duration(seed) && Embedded(g, at, ExpandSeed(s, rid, dates, first))
    ensures MembersAt(g, at, seed, rid, dates, first)
  {
    var block := g[at..at + |dates|];
    SeriesMembers(s, seed, rid, dates, first, block);
    assert forall k :: 0 <= k < |dates| ==> g[at + k] == block[k];
  }

  /** A block b that follows a in a prefix of g sits at index |a| of g. */
  lemma BlockOfPrefix(a: seq<Event>, b: seq<Event>, mid: seq<Event>, g: seq<Event>)
    requires mid == a + b && mid <= g
    ensures Embedded(g, |a|, b)
  {
    assert g[..|mid|] == mid;
    assert g[|a|..|a| + |b|] == mid[|a|..];
  }

  /** The k-th member of a series starts at the k-th date, keeps the seed's duration and
      carries the series' recurrence id and the guid first + k. */
  lemma SeriesMembers(s: Event, seed: Event, rid: Id, dates: seq<Instant>, first: nat, g: seq<Event>)
    requires Duration(s) == Duration(seed) && g == ExpandSeed(s, rid, dates, first)
    ensures forall k :: 0 <= k < |dates| ==>
              && g[k].dates.start == dates[k]
              && Duration(g[k]) == Duration(seed)
              && g[k].recurrenceId == Val(rid)
              && g[k].id == Some(Guid(first + k))
  {
  }

  /** The members ExpandSeed makes from a seed prepared from `seed`. */
  lemma SeedOccurrences(seed: Event, s: Event, rid: Id, dates: seq<Instant>, first: nat, next: nat, g: seq<Event>, hi: nat)
    requires Duration(s) == Duration(seed) && next < first && first + |dates| <= hi
    requires g == ExpandSeed(s, rid, dates, first)
    ensures |g| == |dates|
    ensures forall k :: 0 <= k < |dates| ==>
              && g[k].dates.start == dates[k]
              && Duration(g[k]) == Duration(seed)
              && g[k].recurrenceId == g[0].recurrenceId
              && g[k].id == g[k].guid
              && IssuedIn(g[k].id, next, hi)
    ensures forall i, j :: 0 <= i < j < |dates| ==> g[i].id != g[j].id
  {
    forall i, j | 0 <= i < j < |dates| ensures g[i].id != g[j].id {
      assert g[i].id == Some(Guid(first + i)) && g[j].id == Some(Guid(first + j));
    }
  }

  // ---------------------------------------------------------------------------
  // The loop as the source writes it

  /** The index of the first element of xs equal to x. */
  function FirstIndex<T(==)>(xs: seq<T>, x: T): (i: nat)
    requires x in xs
    ensures i < |xs| && xs[i] == x && x !in xs[..i]
  {
    if xs[0] == x then 0
    else
      var j := FirstIndex(xs[1..], x);
      assert xs[..j + 1] == [xs[0]] + xs[1..][..j];
      j + 1
  }

  /** list.remove(x): the list without its first element equal to x. */
  function RemoveFirst<T(==)>(xs: seq<T>, x: T): (r: seq<T>)
    ensures x in xs ==> r == xs[..FirstIndex(xs, x)] + xs[FirstIndex(xs, x) + 1..]
    ensures x !in xs ==> r == xs
  {
    if xs == [] then []
    else if xs[0] == x then
      assert xs[..0] + xs[1..] == xs[1..];
      xs[1..]
    else
      var rest := RemoveFirst(xs[1..], x);
      RemoveFirstCons(xs, x, rest);
      [xs[0]] + rest
  }

  /** Removing x behind a head that differs from it. */
  lemma RemoveFirstCons<T>(xs: seq<T>, x: T, rest: seq<T>)
    requires xs != [] && xs[0] != x
    requires x in xs[1..] ==> rest == xs[1..][..FirstIndex(xs[1..], x)] + xs[1..][FirstIndex(xs[1..], x) + 1..]
    requires x !in xs[1..] ==> rest == xs[1..]
    ensures x in xs ==> [xs[0]] + rest == xs[..FirstIndex(xs, x)] + xs[FirstIndex(xs, x) + 1..]
    ensures x !in xs ==> [xs[0]] + rest == xs
  {
    if x in xs {
      FirstIndexCons(xs, x);
      ConsSplit(xs, FirstIndex(xs[1..], x));
    } else {
      assert [xs[0]] + xs[1..] == xs;
    }
  }

  /** Cutting the tail of xs at j is cutting xs at j + 1. */
  lemma ConsSplit<T>(xs: seq<T>, j: nat)
    requires j + 1 < |xs|
    ensures [xs[0]] + (xs[1..][..j] + xs[1..][j + 1..]) == xs[..j + 1] + xs[j + 2..]
  {
    assert xs[..j + 1] == [xs[0]] + xs[1..][..j];
    assert xs[j + 2..] == xs[1..][j + 1..];
  }

  lemma FirstIndexCons<T>(xs: seq<T>, x: T)
    requires xs != [] && xs[0] != x && x in xs
    ensures x in xs[1..] && FirstIndex(xs, x) == FirstIndex(xs[1..], x) + 1
  {
    assert xs == [xs[0]] + xs[1..];
  }

  /** on_create as written: a for loop over `docs` that removes each recurring seed from
      `docs` while iterating over it, so that the iterator's next index skips the document
      that followed the seed; the generated members are appended at the end.  Returns the
      list and the next guid serial. */
  function OnCreateAsWritten(docs: seq<Event>, i: nat, generated: seq<Event>, gen: Generator, next: nat): (r: Result<(seq<Event>, nat)>)
    ensures r.Ok? ==> next <= r.value.1 && |generated| <= |r.value.0|
    decreases |docs| - i
  {
    if i >= |docs| then Ok((docs + generated, next))
    else
      var (p, n1) := Prepare(docs[i], next);
      if p.dates.rule.None? then OnCreateAsWritten(docs[i := p], i + 1, generated, gen, n1)
      else
        var s := SetRecurringMode(p);
        var docs1 := docs[i := s];
        match SeedQuery(s)
        case Err(err) => Err(err)
        case Ok(q) =>
          var dates := Materialize(gen, q);
          assert s in docs1 by { assert docs1[i] == s; }
          OnCreateAsWritten(RemoveFirst(docs1, s), i + 1, generated + ExpandSeed(s, Guid(n1), dates, n1 + 1), gen, n1 + 1 + |dates|)
  }

  /** A daily rule with a count of two, and two seeds that use it. */
  function TwiceDaily(): Rule {
    Rule("DAILY", None, Some("count"), None, None, Some(2))
  }

  function SeedNamed(name: string): Event {
    Event(None, None, Absent, Absent, Dates(0, 3600, None, Some(TwiceDaily())), None, None, map["name" := name])
  }

  lemma TwiceDailyDates(s: Event)
    requires s.dates.start == 0 && s.dates.tz.None? && s.dates.rule == Some(TwiceDaily())
    ensures SeedQuery(s).Ok? && Materialize(SimpleGenerator, SeedQuery(s).value) == [0, 86400]
  {
    var q := SeedQuery(s).value;
    assert SimpleQuery(q);
    assert SimpleLength(q, 86400) == 2;
    var r := SimpleGenerator(q);
    assert |r| == 2 && r[0] == 0 && r[1] == 86400;
  }

  /** One step of the fold on a twice-daily seed starting at instant 0 without a guid. */
  lemma TwiceDailyStep(acc: Outcome, e: Event)
    requires e.guid.None? && e.dates.start == 0 && e.dates.tz.None? && e.dates.rule == Some(TwiceDaily())
    ensures CreateStep(acc, e, SimpleGenerator).Ok?
    ensures var o := CreateStep(acc, e, SimpleGenerator).value;
            o.kept == acc.kept && |o.generated| == |acc.generated| + 2 && o.next == acc.next + 4
  {
    var (p, n1) := Prepare(e, acc.next);
    var s := SetRecurringMode(p);
    TwiceDailyDates(s);
  }

  /** Two recurring seeds submitted together: the loop as written expands only the first,
      and the second reaches storage as submitted, without an `_id` and with its rule
      unexpanded. */
  lemma AsWrittenSkipsSecondSeed()
    ensures var a, b := SeedNamed("a"), SeedNamed("b");
            var r := OnCreateAsWritten([a, b], 0, [], SimpleGenerator, 0);
            && r.Ok? && |r.value.0| == 3
            && r.value.0[0] == b && r.value.0[0].id.None? && r.value.0[0].dates.rule.Some?
  {
    var a, b := SeedNamed("a"), SeedNamed("b");
    var gen := SimpleGenerator;
    var (pa, n1) := Prepare(a, 0);
    var sa := SetRecurringMode(pa);
    TwiceDailyDates(sa);
    var more := ExpandSeed(sa, Guid(n1), [0, 86400], n1 + 1);
    assert sa != a;
    assert RemoveFirst([a, b][0 := sa], sa) == [b];
    assert OnCreateAsWritten([a, b], 0, [], gen, 0) == OnCreateAsWritten([b], 1, [] + more, gen, n1 + 3);
  }

  /** The same two seeds through the corrected fold: both are expanded, nothing is kept,
      and every one of the four members has an `_id`. */
  lemma CorrectedExpandsBothSeeds()
    ensures var a, b := SeedNamed("a"), SeedNamed("b");
            var c := CreateFold([a, b], SimpleGenerator, 0);
            && c.Ok? && c.value.kept == [] && |c.value.generated| == 4
            && (forall k :: 0 <= k < 4 ==> c.value.generated[k].id.Some?)
  {
    var a, b := SeedNamed("a"), SeedNamed("b");
    var gen := SimpleGenerator;
    assert [a, b][..1] == [a] && [a][..0] == [];
    assert CreateFold([a], gen, 0) == CreateStep(Outcome([], [], 0), a, gen);
    TwiceDailyStep(Outcome([], [], 0), a);
    var c1 := CreateFold([a], gen, 0).value;
    assert CreateFold([a, b], gen, 0) == CreateStep(c1, b, gen);
    TwiceDailyStep(c1, b);
    CreateGeneratesFresh([a, b], gen, 0);
  }

  // ---------------------------------------------------------------------------
  // Created notifications

  /** A document that belongs to a series: its recurrence id is present and truthy. */
  predicate InSeries(d: Event) {
    d.recurrenceId.Val? && Truthy(d.recurrenceId.value)
  }

  /** The id on_created announces a document under: its recurrence id when it has one,
      otherwise its own `_id`. */
  function NotifyKey(d: Event): Option<Id> {
    if InSeries(d) then Some(d.recurrenceId.value) else d.id
  }

  /** The created notification of a document: events:created:recurring under its
      recurrence id for a series member, otherwise events:created under its `_id`, with
      the document's original creator as the user. */
  function CreatedNotice(d: Event): (n: Notification)
    ensures n.item == NotifyKey(d)
    ensures n.kind == (if InSeries(d) then CreatedRecurringKind else CreatedKind)
    ensures n.user == d.originalCreator && n.recurrenceId.None?
  {
    if InSeries(d) then Notification(CreatedRecurringKind, Some(d.recurrenceId.value), None, d.originalCreator)
    else Notification(CreatedKind, d.id, None, d.originalCreator)
  }

  function Items(ns: seq<Notification>): (r: seq<Option<Id>>)
    ensures |r| == |ns| && forall i :: 0 <= i < |ns| ==> r[i] == ns[i].item
  {
    seq(|ns|, i requires 0 <= i < |ns| => ns[i].item)
  }

  lemma ItemsSnoc(ns: seq<Notification>, n: Notification)
    ensures Items(ns + [n]) == Items(ns) + [n.item]
  {
  }

  /** The notifications on_created sends for a list of created documents: one per document
      whose announced id has not been announced yet. */
  function CreatedNotifications(docs: seq<Event>): (r: seq<Notification>)
    ensures |r| <= |docs|
    decreases |docs|
  {
    if docs == [] then []
    else
      var prev := CreatedNotifications(docs[..|docs| - 1]);
      var d := docs[|docs| - 1];
      if NotifyKey(d) in Items(prev) then prev else prev + [CreatedNotice(d)]
  }

  /** One more document: announced when its id is new, skipped otherwise. */
  lemma CreatedNotificationsStep(docs: seq<Event>, i: nat)
    requires i < |docs|
    ensures var prev := CreatedNotifications(docs[..i]);
            CreatedNotifications(docs[..i + 1]) ==
              if NotifyKey(docs[i]) in Items(prev) then prev else prev + [CreatedNotice(docs[i])]
  {
    assert docs[..i + 1][..i] == docs[..i];
  }

  /** No document before the i-th is announced under the same id. */
  predicate FirstOfKey(docs: seq<Event>, i: int)
    requires 0 <= i < |docs|
  {
    forall i' :: 0 <= i' < i ==> NotifyKey(docs[i']) != NotifyKey(docs[i])
  }

  /** on_created announces every document exactly once by its announced id: no id twice,
      every document's id announced, and every notification that of one of the documents
      (kind events:created:recurring for a series member, events:created otherwise). */
  lemma CreatedNotificationsSpec(docs: seq<Event>)
    ensures var ns := CreatedNotifications(docs);
            && |ns| <= |docs|
            && (forall i, j :: 0 <= i < j < |ns| ==> ns[i].item != ns[j].item)
            && (forall i :: 0 <= i < |docs| ==> NotifyKey(docs[i]) in Items(ns))
            && (forall j :: 0 <= j < |ns| ==> exists i :: 0 <= i < |docs| && ns[j] == CreatedNotice(docs[i]))
  {
    CreatedItemsDistinct(docs);
    var ns := CreatedNotifications(docs);
    assert forall i, j :: 0 <= i < j < |ns| ==> Items(ns)[i] != Items(ns)[j];
    CreatedItemsCover(docs);
    CreatedNoticesFrom(docs);
  }

  lemma {:induction false} CreatedItemsDistinct(docs: seq<Event>)
    ensures Distinct(Items(CreatedNotifications(docs)))
    decreases |docs|
  {
    if docs != [] {
      var init, d := docs[..|docs| - 1], docs[|docs| - 1];
      CreatedItemsDistinct(init);
      var prev := CreatedNotifications(init);
      if NotifyKey(d) !in Items(prev) {
        assert Items(CreatedNotifications(docs)) == Items(prev) + [NotifyKey(d)];
      }
    }
  }

  lemma {:induction false} CreatedItemsCover(docs: seq<Event>)
    ensures forall i :: 0 <= i < |docs| ==> NotifyKey(docs[i]) in Items(CreatedNotifications(docs))
    decreases |docs|
  {
    if docs != [] {
      var init, d := docs[..|docs| - 1], docs[|docs| - 1];
      CreatedItemsCover(init);
      var prev := CreatedNotifications(init);
      var ns := CreatedNotifications(docs);
      if NotifyKey(d) !in Items(prev) {
        assert ns == prev + [CreatedNotice(d)];
        assert Items(ns) == Items(prev) + [NotifyKey(d)];
      }
      forall i | 0 <= i < |docs| ensures NotifyKey(docs[i]) in Items(ns) {
        if i < |init| {
          assert docs[i] == init[i];
          assert NotifyKey(init[i]) in Items(prev);
        }
      }
    }
  }

  lemma {:induction false} CreatedNoticesFrom(docs: seq<Event>)
    ensures var ns := CreatedNotifications(docs);
            forall j :: 0 <= j < |ns| ==> exists i :: 0 <= i < |docs| && ns[j] == CreatedNotice(docs[i])
    decreases |docs|
  {
    if docs != [] {
      var init, d := docs[..|docs| - 1], docs[|docs| - 1];
      CreatedNoticesFrom(init);
      var prev := CreatedNotifications(init);
      var ns := CreatedNotifications(docs);
      forall j | 0 <= j < |ns| ensures exists i :: 0 <= i < |docs| && ns[j] == CreatedNotice(docs[i]) {
        if j < |prev| {
          assert 0 <= j < |CreatedNotifications(init)|;
          var i :| 0 <= i < |init| && prev[j] == CreatedNotice(init[i]);
          assert docs[i] == init[i] && ns[j] == prev[j];
        } else {
          assert ns[j] == CreatedNotice(docs[|docs| - 1]);
        }
      }
    }
  }

  /** The notification on_created keeps for an id is the one of the first document
      announced under that id. */
  lemma {:induction false} CreatedNoticesFirst(docs: seq<Event>)
    ensures var ns := CreatedNotifications(docs);
            forall j :: 0 <= j < |ns| ==>
              exists i :: 0 <= i < |docs| && ns[j] == CreatedNotice(docs[i]) && FirstOfKey(docs, i)
    decreases |docs|
  {
    if docs != [] {
      var init, d := docs[..|docs| - 1], docs[|docs| - 1];
      CreatedNoticesFirst(init);
      var prev := CreatedNotifications(init);
      var ns := CreatedNotifications(docs);
      forall j | 0 <= j < |prev|
        ensures exists i :: 0 <= i < |docs| && prev[j] == CreatedNotice(docs[i]) && FirstOfKey(docs, i)
      {
        assert 0 <= j < |CreatedNotifications(init)|;
        var i :| 0 <= i < |init| && prev[j] == CreatedNotice(init[i]) && FirstOfKey(init, i);
        FirstOfKeyPrefix(docs, i);
      }
      if NotifyKey(d) !in Items(prev) {
        CreatedItemsCover(init);
        forall i | 0 <= i < |docs| - 1 ensures NotifyKey(docs[i]) in Items(prev) {
          assert docs[i] == init[i];
        }
        LastIsFirst(docs, prev);
        assert ns == prev + [CreatedNotice(d)];
      }
    }
  }

  lemma LastIsFirst(docs: seq<Event>, prev: seq<Notification>)
    requires docs != []
    requires forall i :: 0 <= i < |docs| - 1 ==> NotifyKey(docs[i]) in Items(prev)
    requires NotifyKey(docs[|docs| - 1]) !in Items(prev)
    ensures FirstOfKey(docs, |docs| - 1)
  {
  }

  lemma FirstOfKeyPrefix(docs: seq<Event>, i: int)
    requires 0 <= i < |docs| - 1 && FirstOfKey(docs[..|docs| - 1], i)
    ensures FirstOfKey(docs, i)
  {
    var init := docs[..|docs| - 1];
    forall i' | 0 <= i' < i ensures NotifyKey(docs[i']) != NotifyKey(docs[i]) {
      assert docs[i'] == init[i'] && docs[i] == init[i];
    }
  }
}
