# Recurring events of the planning server, in Dafny

This project models the recurrence core of the planning server's events service
(`server/planning/events.py`) and proves what that core promises. The core has five parts:

- **`setRecurringMode`**: normalises a recurring rule's termination mode. `unlimited` clears
  both `count` and `until`, `count` clears `until`, and `until` clears `count`.
- **`overwrite_event_expiry_date`**: refreshes an existing `expiry` key from `dates.end`.
- **byday parsing** in `generate_recurring_dates`. A value is read either as an ordinal
  weekday (`1FR`, `-2MO`) or as a space-separated list of weekday codes. These are the BYDAY
  forms of section 3.3.10 of RFC 5545.
- **`EventsService.on_create`** expands each recurring seed into at most 200 series members.
  The members share a new `recurrence_id`, each has a fresh `_id == guid`, and each keeps
  the seed's duration.
- **`EventsService.on_created`** sends one notification per announced id.
- **`EventsService.on_update`** has two branches:
  - *Rule removed*: detach the original and spike the later members of its series.
  - *Rule present*: regenerate the dates and walk the existing events beside them
    (`zip_longest`). Each position deletes, creates, moves the original, or patches a
    sibling through a nested `on_update` guarded by `skip_on_update`.

## How the model is built

- **Dates and durations** are integers; an instant is a whole number of seconds.
- **Identifiers.** `generate_guid` is a counter: `Guid(n)` is the n-th identifier it hands
  out, and `Given(text)` is an identifier the client chose.
- **The date evaluator.** dateutil's `rrule` and its pytz conversions are an abstract
  `Generator`: a function from the evaluator's arguments (`DateQuery`) to a sequence of
  instants. The core takes its first 200 elements (`Recurrence.Materialize`).
  `Recurrence.SimpleGenerator` is a small concrete DAILY/WEEKLY generator. The lemmas
  state that its dates ascend from `start`, honour `count`, and never pass `until`.
- **Pure code becomes functions.** This covers the byday parser, `setRecurringMode`,
  `overwrite_event_expiry_date`, and the whole of `on_create`, `on_created` and
  `on_update` over an explicit state value (`Series.World`).
- **`Series.World`** holds:
  - the store, a map from `_id` to document;
  - the order in which the backend lists ids;
  - the guid counter;
  - logs of notifications, spikes, history deletions and history creations.
- **Nested patches.** `on_update` calls itself through `self.patch`. This becomes the
  mutually recursive `Series.Patch`, `Series.OnUpdate`, `Series.UpdateSeries`,
  `Series.Recon` and `Series.ReconStep`. Termination is ranked: a nested patch always
  carries `skip_on_update`, so it ranks below the loop that issues it.
- **`Service.EventsService`** is the stateful service. Its fields are that state. Its
  methods run the source's loops and are each proved to reach the state the functions
  describe:
  - the loop over `docs` and the loop over the dates of one seed;
  - the `notifications_sent` loop;
  - the spike loop;
  - the `zip_longest` loop;
  - storing the batch of new events.
- **The rule-present branch in closed form.** Module `SeriesFacts` gives it a closed
  form. Paired positions patch siblings and move the original's updates; the remaining
  positions delete or create. Module `SeriesTheorems` then states, for every input:
  - which documents the branch deletes, patches, creates and keeps;
  - that the store stays consistent;
  - what is logged;
  - exactly when the branch raises.

"Raises" means a Python exception. It is modelled as a `Result` error:
- an ordinal byday value whose weekday part is not a DAYS code (`DAYS.get` gives None,
  which is then called);
- a list byday value with a word that is not a DAYS code (`DAYS.get` gives None, which
  `rrule` then reads as a weekday), such as `MO XX`, `mo`, `MO,TU` or `0FR`;
- a dates patch without `start` or `end`;
- a patch of an id that is not stored.

After an error, the model states only the error, not the partial state.

### Where the code departs from the documented design (the model follows the code)

- Generated events keep the seed's (normalised) recurring rule. The code copies the
  whole seed and never removes the rule.
- The update path never refreshes `expiry`. Only `on_create` calls
  `overwrite_event_expiry_date`.
- Nothing sorts the backend's results: the comparison set is in store order.
  `Series.World.order` models that order; the model does not fix it.
- `on_update` raises when a rule is present but the dates patch lacks `end` or `start`.
  `end` is checked first.
- The code's own comment gives `-2MON` as an example of the ordinal form. DAYS holds
  two-letter codes, so that value raises (`Recurrence.ParseThreeLetterOrdinalRaises`).

## Model

| member | source | states |
|---|---|---|
| `Recurrence.NormaliseRule` | server/planning/events.py:604-612 | the normalised rule is mode-consistent and differs from the input only by `count` or `until` set to None, each only under a mode that clears it |
| `Recurrence.NormaliseModes` | server/planning/events.py:606-612 | `unlimited` clears count and until, `count` clears only until, `until` clears only count, any other mode changes nothing |
| `Recurrence.NormaliseFixpoints` | server/planning/events.py:604-612 | the rule is left unchanged exactly when it is already mode-consistent |
| `Recurrence.SetRecurringMode` | server/planning/events.py:604-612 | on an event only the rule changes, a present rule becomes its normal form, an absent rule stays absent |
| `Recurrence.SetRecurringModeOnUpdates` | server/planning/events.py:604-612 | the same on an update patch, whose dates may be missing |
| `Recurrence.SetRecurringModeIdempotent` | server/planning/events.py:604-612 | normalising twice equals normalising once, for events and for patches |
| `Recurrence.DayOf` | server/planning/events.py:37 | a code found in DAYS is the code of the weekday it names |
| `Recurrence.WeekdaysOf` | server/planning/events.py:587-596 | the words give weekdays exactly when each is a DAYS code, then one per word in order; otherwise the error names the first word that is not one |
| `Recurrence.OrdinalOf` | server/planning/events.py:577-582 | the ordinal is the digit after an optional `-` (`int(byday[:2])` or `int(byday[:1])`), between 1 and 5 in size, negative exactly with the `-` |
| `Recurrence.OrdinalCode` | server/planning/events.py:577-582 | the weekday part is what follows the ordinal (`byday[2:]` or `byday[1:]`) |
| `Recurrence.ParseByDay` | server/planning/events.py:571-587 | absent or empty gives None. In the ordinal form the result raises exactly when the weekday part is not a DAYS code, naming that part; otherwise it is that weekday with the ordinal `OrdinalOf` gives. Outside it the value raises exactly when some word is not a DAYS code, naming such a word; otherwise no words give None and words give their weekdays, one per word, in order |
| `Recurrence.ParseOrdinalRoundTrip` | server/planning/events.py:571-584 | every `nWD` or `-nWD` text parses back to its weekday and ordinal |
| `Recurrence.ParseDaysRoundTrip` | server/planning/events.py:585-587 | a space-separated list of weekday codes parses to exactly those weekdays in order |
| `Recurrence.TokensOfJoin` | server/planning/events.py:587 | `split()` undoes joining whitespace-free words with single spaces |
| `Recurrence.ParseBlankByDay` | server/planning/events.py:587 | a value made only of whitespace has no words and gives None |
| `Recurrence.ParseUnknownWordRaises` | server/planning/events.py:586-596 | `MO XX` raises at the word `XX` |
| `Recurrence.ParseNonCodeWordRaises` | server/planning/events.py:586-596 | lower case `mo` and comma-separated `MO,TU` are single words that are not DAYS codes, so they raise |
| `Recurrence.ParseZeroOrdinalRaises` | server/planning/events.py:571-596 | `0FR` is not in the ordinal form, so it is the single word `0FR`, which raises |
| `Recurrence.ParseThreeLetterOrdinalRaises` | server/planning/events.py:571-584 | `-2MON` and `2FRI` raise at their weekday parts `MON` and `FRI` |
| `Recurrence.TimezoneArg` | server/planning/events.py:100 | a timezone is passed exactly when a non-empty one is given |
| `Recurrence.QueryFor` | server/planning/events.py:543-596 | the evaluator call fails exactly when byday does not parse (an ordinal or a list word that is not a DAYS code); otherwise start, frequency, count and until pass through, interval defaults to 1, the timezone is `TimezoneArg` and the weekdays are the parsed byday |
| `Recurrence.Materialize` | server/planning/events.py:98-102 | the dates taken are a prefix of the generator's, of length min(200, all) |
| `Recurrence.SimpleGeneratorShape` | server/planning/events.py:589-596 | the concrete DAILY/WEEKLY generator starts at start, ascends strictly, yields exactly count dates for a count up to 200 and 200 when unlimited |
| `Recurrence.SimpleGeneratorUntil` | server/planning/events.py:589-596 | no date of the concrete generator lies after until |
| `Creation.OverwriteExpiry` | server/planning/events.py:615-617 | an existing expiry key equals dates.end afterwards, a missing one stays missing, nothing else changes |
| `Creation.OverwriteExpiryIdempotent` | server/planning/events.py:615-617 | refreshing the expiry twice equals refreshing it once |
| `Creation.Prepare` | server/planning/events.py:80-88 | a document keeps its guid or gets the next one, `_id` equals the guid, only id, guid and expiry change |
| `Creation.Occurrence` | server/planning/events.py:103-116 | a member starts at its date, keeps the seed's duration, has `_id == guid ==` the given id and the series id, and differs from the seed in nothing else |
| `Creation.ExpandSeed` | server/planning/events.py:98-116 | one member per date, in order, the k-th with guid serial first + k |
| `Creation.CreateStep` | server/planning/events.py:79-118 | one document of the loop raises exactly when it is recurring with a byday that does not parse; a document without a rule is appended, prepared, to the kept ones; a recurring one keeps nothing; the guid counter never goes back |
| `Creation.CreateFold` | server/planning/events.py:79-120 | the loop over the documents raises exactly when one of them is recurring with a byday that does not parse; the guid counter never goes back |
| `Creation.CreateKeepsPlain` | server/planning/events.py:79-91 | the documents kept are exactly the submitted ones without a rule, each prepared, in their order; none carries a rule |
| `Creation.CreateGeneratesFresh` | server/planning/events.py:91-116 | every generated member has `_id == guid`; its guid and recurrence id are issued by this call; guids strictly increase; a seed yields at most 200 members |
| `Creation.ExpandOneSeed` | server/planning/events.py:91-118 | a single seed succeeds exactly when its byday parses. Then it is replaced by one member per date in order, with one shared recurrence id, its duration and distinct fresh `_id == guid` |
| `Creation.CreateStepSeed` | server/planning/events.py:91-116 | a recurring document whose byday parses keeps nothing and appends its `ExpandSeed` series over the materialised dates of its normalised rule; the k-th new member starts at the k-th date, keeps the document's duration, carries the recurrence id drawn for it and the k-th guid after that id |
| `Creation.CreateFoldPrefix` | server/planning/events.py:79-118 | when the loop over a list succeeds, so does the loop over each prefix, and the members a prefix generates are a prefix of the list's |
| `Creation.CreateSeedBlock` | server/planning/events.py:91-118 | in a list of any length, each recurring document's series sits as one contiguous block of the generated members, right after those of the documents before it |
| `Creation.CreateSeedMembers` | server/planning/events.py:93-116 | in a list of any length, the k-th member of each recurring document's block starts at its k-th materialised date, keeps the document's duration, shares the recurrence id drawn for the document and has the k-th guid after it |
| `Creation.RemoveFirst` | server/planning/events.py:118 | `list.remove(x)` drops the first element equal to x (at `FirstIndex`) and keeps the others in order; without x the list is unchanged |
| `Creation.OnCreateAsWritten` | server/planning/events.py:79-120 | the loop as written never loses generated members and never moves the guid counter back |
| `Creation.AsWrittenSkipsSecondSeed` | server/planning/events.py:79-118 | with two recurring seeds, the loop as written expands only the first and leaves the second unexpanded and without `_id` |
| `Creation.CorrectedExpandsBothSeeds` | server/planning/events.py:76-120 | the corrected fold expands both seeds into four members, each with an `_id` |
| `Creation.CreatedNotice` | server/planning/events.py:131-137 | a series member (truthy recurrence id) is announced as `events:created:recurring` under its recurrence id, any other document as `events:created` under its `_id`; the user is the original creator |
| `Creation.CreatedNotificationsSpec` | server/planning/events.py:128-149 | at most one notification per document and no id announced twice. Every document's id is announced. Each notification is a document's, with kind `events:created:recurring` for series members and `events:created` otherwise |
| `Creation.CreatedNotifications` | server/planning/events.py:128-149 | the `notifications_sent` loop sends at most one notification per document |
| `Creation.CreatedNoticesFirst` | server/planning/events.py:139-144 | the notification sent for an id is that of the first document announced under it |
| `Types.ApplyUpdates` | server/planning/events.py:222-224 | `dict.update` on an event: each key the patch holds replaces the event's (guid, recurrence id, expiry, version creator, details key by key, dates), every other key keeps the event's value, and `_id` and creator never change |
| `Series.Select` | server/planning/events.py:174-181 | a query returns exactly the stored ids whose document matches, in the order the store lists them (`InOrderOf`) |
| `Series.SelectDistinct` | server/planning/events.py:200 | a query over a duplicate-free order returns no id twice |
| `Series.Without` | server/planning/events.py:218 | removing an id from the order keeps exactly the other ids |
| `Series.Delete` | server/planning/events.py:218-219 | a delete removes exactly that document, drops its id from the listing order (`Without`) and logs its history entry; nothing else changes |
| `Series.InsertAll` | server/planning/events.py:248 | storing a batch adds exactly the batch's ids and changes no log |
| `Series.Stamp` | server/planning/events.py:157-159 | the user becomes version creator exactly when a user id is present |
| `Series.SpikeTargets` | server/planning/events.py:172-181 | the corrected spike query finds exactly the stored ids, in store order, of later members of the original's series (`LaterSibling`: the original has a recurrence id, the member shares it, has another `_id` and starts strictly later) |
| `Series.SpikeTargetsAsWritten` | server/planning/events.py:172-181 | the query as written finds exactly the stored ids, in store order, that `LaterSiblingAsWritten` accepts: it runs whenever the `recurrence_id` key exists, even holding None, and matches None as the store does |
| `Series.Detach` | server/planning/events.py:166-191 | rule removed: no document changes; the later members of the series are spiked; one `events:updated` is sent; the updates get rule None and recurrence id None |
| `Series.Existing` | server/planning/events.py:197-204 | the comparison set is `[original]` when the original had no rule. Otherwise it lists exactly the stored members of the series starting no earlier than the original, each with its stored document, in store order, each once when the order has no repeats |
| `Series.Shift` | server/planning/events.py:233-234 | a moved dates patch starts at the date and ends one duration later, keeping tz and rule |
| `Series.Moved` | server/planning/events.py:232-234 | the original's updates change only in their dates, which move to the date |
| `Series.SiblingUpdates` | server/planning/events.py:237-242 | a sibling's patch drops the guid, moves the dates and sets skip_on_update, and changes nothing else |
| `Series.NewOccurrence` | server/planning/events.py:222-231 | a created member is the original with the updates applied (`ApplyUpdates`), except that it has `_id == guid ==` a fresh id and starts at the date, one duration long |
| `Series.OnUpdate` | server/planning/events.py:151-155 | a patch flagged skip_on_update returns at once with the flag removed and the state unchanged |
| `Series.SeriesId` | server/planning/events.py:195 | the series keeps the original's truthy recurrence id, otherwise takes the next guid |
| `Series.SeriesSetup` | server/planning/events.py:193-213 | the setup raises exactly when end or start is missing or byday does not parse. Otherwise it normalises the rule, sets the recurrence id, fixes the comparison set and the duration, and takes as dates the first 200 the evaluator gives for the updates' start, tz and normalised rule |
| `Series.Patch` | server/planning/events.py:244 | patching an id that is not stored raises NotFound |
| `Series.UpdateSeries` | server/planning/events.py:193-256 | the rule-present branch gives the setup's error when the setup raises; when it succeeds, its last notification is one `events:updated:recurring` with the original's id, the series id and the version creator |
| `Series.Recon` | server/planning/events.py:215-244 | the first n positions of the `zip_longest` loop keep a dates patch in the updates and an id on every new member |
| `Series.ReconStep` | server/planning/events.py:216-244 | one position of the loop keeps a dates patch in the updates and an id on every new member |
| `Series.Finish` | server/planning/events.py:246-256 | the new members are stored and logged as created in order, one `events:updated:recurring` is appended with the series id and the version creator, and the guid counter, spikes and deletions are unchanged |
| `SeriesFacts.Resolved` | server/planning/events.py:237-242 | a sibling's patch as stored has no guid, no flag and the moved dates, and is otherwise the updates |
| `SeriesFacts.PatchSkipped` | server/planning/events.py:152-155 | the nested patch of a sibling writes its unflagged updates over that sibling and changes nothing else: no notification, no spike, no history |
| `SeriesFacts.AlikeDerived` | server/planning/events.py:222-241 | moving the original's updates does not change the patches or new members derived for other positions |
| `SeriesFacts.StepDelete` | server/planning/events.py:216-219 | a position without a date deletes its event with a history entry |
| `SeriesFacts.StepCreate` | server/planning/events.py:220-231 | a position without an event collects a new member with the next guid |
| `SeriesFacts.StepOriginal` | server/planning/events.py:232-234 | the original's position moves the updates |
| `SeriesFacts.StepSibling` | server/planning/events.py:235-244 | a sibling's position patches the stored sibling with the moved updates |
| `SeriesFacts.ReconPairs` | server/planning/events.py:215-244 | the paired positions never fail; they patch each sibling and move the original's updates, and change nothing else |
| `SeriesFacts.ReconDeletes` | server/planning/events.py:215-219 | the positions past the last date delete the remaining events in order |
| `SeriesFacts.ReconCreates` | server/planning/events.py:215-231 | the positions past the last event create one member per remaining date, in order, with consecutive guids |
| `SeriesFacts.ReconFinal` | server/planning/events.py:215-244 | the whole loop ends without error in the closed-form state |
| `SeriesFacts.NewMembers` | server/planning/events.py:220-231 | the j-th created member is the new occurrence for the (e + j)-th date with guid serial first + j |
| `SeriesFacts.ExistingStored` | server/planning/events.py:197-204 | the comparison set never repeats an id, and each id is stored or is the original's |
| `SeriesFacts.SeriesResult` | server/planning/events.py:193-256 | the rule-present branch is its setup, then the whole loop in closed form, then the final store and notification |
| `SeriesFacts.SeriesErrors` | server/planning/events.py:206-213 | the rule-present branch raises exactly when end or start is missing or byday does not parse; nested patches never fail |
| `SeriesTheorems.FinalPassFacts` | server/planning/events.py:215-244 | after the loop: the guid counter advances once per created member; a history entry is logged for each event past the last date; the updates move only at the original's own position; no other log changes |
| `SeriesTheorems.InsertAllStores` | server/planning/events.py:248 | a batch with distinct ids stores each document under its own id |
| `SeriesTheorems.SeriesLogs` | server/planning/events.py:215-256 | rule present: nothing spiked; one guid per created member; one `events:updated:recurring` with the series id and the user; history for created and deleted events; updates moved only at the original's position |
| `SeriesTheorems.SeriesStore` | server/planning/events.py:215-248 | rule present: the events past the last date are gone and each new member is stored under a fresh guid. Each paired sibling holds the updates moved to its date; every other document, the original's included, is unchanged |
| `SeriesTheorems.SeriesValid` | server/planning/events.py:215-248 | rule present: the store stays consistent (ids listed once, documents under their own `_id`, guids below the counter) |
| `SeriesTheorems.SeriesKeepsOriginal` | server/planning/events.py:232-234 | the branch itself leaves the original's stored document in place unless it deletes it |
| `SeriesTheorems.PatchSeries` | server/planning/events.py:244 | a patch with a rule runs the rule-present branch, then writes the returned updates over the original if it is still stored |
| `SeriesTheorems.PatchMovesOriginal` | server/planning/events.py:232-234 | a paired original ends at its regenerated date with the same duration and the series' recurrence id |
| `SeriesTheorems.PatchDetaches` | server/planning/events.py:166-191 | a patch without a rule stores the original with rule and recurrence id None, changes no other document, spikes the later members and sends one `events:updated` |
| `SeriesTheorems.SpikeAsWrittenAgrees` | server/planning/events.py:172-181 | for an original in a series, the spike query as written selects exactly its later members |
| `SeriesTheorems.DetachedTwiceSpikesStranger` | server/planning/events.py:172-181 | for a detached original whose recurrence_id is None, the query as written spikes a later stand-alone event the corrected query leaves alone |
| `Service.EventsService.OnCreate` | server/planning/events.py:76-120 | the loop leaves the kept documents followed by the generated members, or the first error, and advances only the guid counter |
| `Service.EventsService.CreateOne` | server/planning/events.py:79-118 | one document of the loop, as the fold's step |
| `Service.EventsService.ExpandInto` | server/planning/events.py:98-116 | the inner loop builds one seed's series and uses one guid per date |
| `Service.EventsService.OnCreated` | server/planning/events.py:122-149 | the loop appends exactly the de-duplicated created notifications and changes nothing else |
| `Service.EventsService.Patch` | server/planning/events.py:244 | the nested patch reaches the state the functional patch describes, or its error |
| `Service.EventsService.OnUpdate` | server/planning/events.py:151-165 | on_update reaches the state and updates the functional on_update describes, or its error |
| `Service.EventsService.Detach` | server/planning/events.py:166-191 | the spike loop reaches the rule-removed branch's state and updates |
| `Service.EventsService.UpdateSeries` | server/planning/events.py:193-256 | the rule-present branch reaches the functional branch's state and updates, or its error |
| `Service.EventsService.ReconcileAll` | server/planning/events.py:215-244 | the zip_longest loop reaches the state of all positions, or the first error |
| `Service.EventsService.Reconcile` | server/planning/events.py:216-244 | one position of the loop, as the functional step |
| `Service.EventsService.Conclude` | server/planning/events.py:246-256 | the new members are stored with their history entry, then one `events:updated:recurring` is sent |
| `Service.EventsService.StoreAll` | server/planning/events.py:248 | storing the batch one document at a time reaches the functional insert |

## Left out

- The rule evaluator: dateutil's `rrule` (frequencies, byweekday expansion, calendar
  arithmetic) and the pytz localisation around it (server/planning/events.py:558-568,
  589-601). These are a foreign library, modelled as the abstract `Generator`. Only the
  small DAILY/WEEKLY `SimpleGenerator` is concrete.
- Persistence and framework plumbing: `post_in_mongo`, `patch_in_mongo`, the Eve default
  and etag resolution, and the backend. The store is a map with a listing order.
  - `Series.Patch` stands for Eve's patch. It runs `on_update` on the stored document,
    then writes the returned updates over it if it is still stored.
  - `self.create` stores the batch without running `on_create` on it, as the backend
    does.
- `get_user`: the requesting user is a parameter. `set_original_creator` and the string
  conversions `str(...)` of the notification fields are not modelled. Notification
  fields are the ids and user values themselves.
- `set_ingest_provider_sequence`, the schema `events_schema`, `EventsResource` and
  `organizer_roles`: sequence service and declarations, with no recurrence behaviour.
- Non-ASCII whitespace: `Recurrence.IsSpace` holds the ASCII separators of `str.split()`
  (and the four information separators). Python also splits at other Unicode spaces,
  such as U+00A0, which the model does not treat as separators.
- An empty recurring-rule dict is falsy in Python. A `Rule` value always has a frequency
  and stands for a non-empty dict.
- Unknown keyword arguments of `generate_recurring_dates`, and a frequency outside
  FREQUENCIES, are errors of the evaluator, not of the core.
- A guid key holding None in a submitted document is treated as an absent key.
- In-place mutation. The event of `setRecurringMode` and `overwrite_event_expiry_date`, the
  `docs` list of `on_create` and the `updates` dict of `on_update` are modelled as values
  that the functions and methods return. Python's aliasing between the caller's dict and
  the callee's is not captured beyond the returned patch.
- A patch's dates sub-document keeps the document's start and end when the patch lacks
  them (`Types.ApplyUpdates`), because an event of this model always has both. Eve
  replaces the sub-document as a whole. So a rule-removed patch without start or end, for
  which the source has just filled in `dates` as `{}`, would store dates without them in
  the source; the model keeps the document's. A rule-present patch without them raises
  before anything is written.
- Service.EventsService.OnCreate: after an error the state is specified only for the
  untouched fields. The guid counter may have advanced, as Python's partial run leaves
  it.
- Service.EventsService.UpdateSeries: after an error only the error is specified; the
  partial state a raised exception leaves behind is not.
- A document without `dates`, or dates without `start` or `end`: the source raises
  KeyError (server/planning/events.py:91, 96, 617). `Types.Event` makes dates, start and
  end mandatory, so the model has no such document and no such error.
- An unknown timezone name: `pytz.timezone` raises (server/planning/events.py:100, 211).
  The model passes the name through (`Recurrence.TimezoneArg`, `Recurrence.QueryFor`)
  and has no error for it; which names exist is the timezone database's business.
- Series.Recon, Series.ReconStep: their own contracts state only that a dates patch and
  the members' ids survive. What the loop computes is stated by `SeriesFacts.ReconFinal`
  (the whole loop in closed form) and by the lemmas `SeriesFacts.StepDelete`,
  `StepCreate`, `StepOriginal` and `StepSibling` (one position each).
- Series.UpdateSeries: its own contract gives the error case and the final notification;
  the rest of the resulting state is stated by `SeriesFacts.SeriesResult` and the
  `SeriesTheorems` lemmas.
- Creation.CreateStep, Creation.CreateFold: their own contracts give the error case, the
  kept documents and the counter. Which members are generated is stated by lemmas:
  `Creation.CreateStepSeed` (one step), `Creation.CreateSeedBlock` and
  `Creation.CreateSeedMembers` (each seed's block in a list of any length),
  `Creation.CreateKeepsPlain` and `Creation.CreateGeneratesFresh`.
- Concurrency between requests is not modelled.

## Findings

| source | as written | input that shows it | evidently intended | confidence | as-written member | corrected member |
|---|---|---|---|---|---|---|
| server/planning/events.py:79-118 | `docs.remove(event)` inside `for event in docs` shifts the list under the iterator, so the document after each recurring seed is skipped: not prepared, not expanded, no `_id` | two recurring seeds submitted together: the second reaches storage unexpanded and without `_id` | every submitted document is prepared and every seed expanded; output = kept documents, then generated members | high (not executed) | `Creation.AsWrittenSkipsSecondSeed` | `Creation.CorrectedExpandsBothSeeds` |
| server/planning/events.py:172-181 | `if 'recurrence_id' in original` is true for a key holding None (which the branch itself stores), and `{'recurrence_id': None}` matches every event without one | removing the rule of an event detached before: a later stand-alone event is spiked | spike only the later members of an actual series (the original has a recurrence id) | medium (not executed) | `SeriesTheorems.DetachedTwiceSpikesStranger` | `Series.Detach` |

The corrected behaviour is what the rest of the model uses:
- **Seed expansion.** `Creation.CreateFold`, driven by `Service.EventsService.OnCreate`,
  builds a fresh output list. The as-written loop is `Creation.OnCreateAsWritten`.
- **Spike query.** `Series.SpikeTargets`, used by `Series.Detach` and
  `Service.EventsService.Detach`, runs only when the original's recurrence id holds a
  value. The as-written query is `Series.SpikeTargetsAsWritten`.
  `SeriesTheorems.SpikeAsWrittenAgrees` proves that the two agree whenever the original
  does belong to a series.
