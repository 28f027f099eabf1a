# RescueReady checklist core in Dafny

RescueReady is a mobile checklist app for five emergency categories: fire,
earthquake, flood, hurricane and power outage. This project models the two
parts of it that hold logic rather than rendering.

- **Default checklist catalog** (module `DefaultChecklists`). A fixed table of
  five seed items per category, and the lookup `getDefaultItems`, which returns
  a deep copy of a category's seeds or an empty list for any other string.
  The lookup is the function `DefaultItems`. The deep copy is the method
  `GetDefaultItems`, which allocates a new array on every call.
- **Checklist event emitter** (module `ChecklistEvents`). A single, in-process
  publish/subscribe channel. The class `ChecklistEventEmitter` holds the
  ordered listener list as a `seq` field.
  - `Subscribe` appends a listener and returns its unsubscribe handle.
  - `Unsubscribe` filters out every entry of that listener by identity.
  - `Emit` walks the list in a loop and calls each listener. An exception from
    a listener is caught and the walk goes on.

Listeners are opaque ids (`ListenerId`). Which listener throws when called is
a parameter of `Emit` (`throws`), because the callbacks are foreign code.
`Emit` returns two values: the sequence of calls it made, in order, and the
listeners whose exceptions it caught. `Emit` has no `modifies` clause, so it
cannot change the listener list.

The record field `label` is named `text` in `Item`, because `label` is a
Dafny keyword. The optional `isCustom` field is an `Option<bool>`, and `None`
means the field is absent.

The emitter has a single channel with no category key. Unsubscribing
removes every entry of the listener, so for a listener subscribed twice,
either handle removes both entries (`utils/checklistEvents.ts:13`; lemma
`DoubleSubscriptionRemovedAtOnce`).

## Model

| member | source | states |
|---|---|---|
| `DefaultChecklists.DefaultItems` | constants/DefaultChecklists.ts:49-64 | each of the five categories gives exactly 5 items and any other string gives the empty list; every item is unchecked with `isCustom` absent, and item k has id `<prefix>-k` in display order, with prefix `power` for `poweroutage` |
| `DefaultChecklists.GetDefaultItems` | constants/DefaultChecklists.ts:49-64 | each call returns a newly allocated array whose contents are the category's seed list |
| `DefaultChecklists.ToggleThenFetchAgain` | constants/DefaultChecklists.ts:52-60 | toggling an item in one returned copy leaves a later call's result equal to the seeds; the two copies are different arrays |
| `DefaultChecklists.ItemIdInjective` | constants/DefaultChecklists.ts:10-46 | a seed id `<prefix>-<digit>` determines both its prefix and its position |
| `DefaultChecklists.DefaultIdsDistinct` | constants/DefaultChecklists.ts:9-47 | no two items of one category's list share an id |
| `DefaultChecklists.IdPrefixesDistinct` | constants/DefaultChecklists.ts:10-46 | the five categories use five different id prefixes |
| `DefaultChecklists.CrossCategoryIdsDisjoint` | constants/DefaultChecklists.ts:9-47 | seed ids of two different category strings never collide |
| `DefaultChecklists.SeedsNeverCustom` | constants/DefaultChecklists.ts:9-47 | no seed item of any category is checked or custom |
| `ChecklistEvents.Without` | utils/checklistEvents.ts:13 | the filtered list has no entry of the removed listener, keeps every other listener that was present, and is a subsequence of the old list (relative order kept) |
| `ChecklistEvents.WithoutMultiset` | utils/checklistEvents.ts:13 | filtering removes every occurrence of the listener and keeps every other entry as many times as it occurred |
| `ChecklistEvents.Failures` | utils/checklistEvents.ts:20-26 | the recorded failures are exactly the listeners in the list that throw, as a subsequence in call order |
| `ChecklistEvents.FailuresMultiset` | utils/checklistEvents.ts:20-26 | each entry of a throwing listener is recorded once per occurrence, and a listener that does not throw is never recorded |
| `ChecklistEvents.ChecklistEventEmitter.constructor` | utils/checklistEvents.ts:4-5 | a new emitter has an empty listener list |
| `ChecklistEvents.ChecklistEventEmitter.Subscribe` | utils/checklistEvents.ts:7-16 | the new list is the old list with the listener appended; the handle captures that listener |
| `ChecklistEvents.ChecklistEventEmitter.Unsubscribe` | utils/checklistEvents.ts:12-15 | the new list is the old list with every entry of the handle's listener filtered out |
| `ChecklistEvents.ChecklistEventEmitter.Emit` | utils/checklistEvents.ts:18-27 | every listener entry is called exactly once, in list order, even after one throws; the caught failures are the throwing entries in order; the list is not changed |
| `ChecklistEvents.UnsubscribeIdempotent` | utils/checklistEvents.ts:13 | unsubscribing the same listener a second time leaves the list unchanged |
| `ChecklistEvents.NoOccurrenceUnchanged` | utils/checklistEvents.ts:13 | unsubscribing a listener that is not subscribed changes nothing |
| `ChecklistEvents.WithoutAppend` | utils/checklistEvents.ts:13 | filtering distributes over concatenation of listener lists |
| `ChecklistEvents.SubscribeThenUnsubscribe` | utils/checklistEvents.ts:7-15 | subscribing and then unsubscribing a listener gives the old list with that listener removed; if it was not subscribed before, exactly the old list |
| `ChecklistEvents.DoubleSubscriptionRemovedAtOnce` | utils/checklistEvents.ts:7-15 | a listener subscribed twice is gone, both entries, after one unsubscribe |
| `ChecklistEvents.UnsubscribeCommutes` | utils/checklistEvents.ts:12-13 | unsubscribing two listeners gives the same list in either order |
| `ChecklistEvents.UnsubscribeKeepsOthers` | utils/checklistEvents.ts:13 | unsubscribing `l` keeps every other listener as often as it occurred and in its relative order; the length drops by the number of entries of `l` |
| `ChecklistEvents.IsolatedFailure` | utils/checklistEvents.ts:20-26 | with a throwing listener subscribed before a normal one, emit still calls both in order and records only the first as failed |
| `ChecklistEvents.SubscribeEmitUnsubscribe` | utils/checklistEvents.ts:4-27 | emit on a new emitter calls nobody; once subscribed, a listener is called exactly once per emit; after its handle is called, it is not called again |

## Left out

- Logging: the `console.log` and `console.error` calls in `utils/checklistEvents.ts` have no effect on behaviour and are not modelled.
- JSON serialisation: `JSON.parse(JSON.stringify(...))` is modelled only by its result, a fresh copy of plain values.
- The module-level singleton `checklistEvents` (`utils/checklistEvents.ts:30`): the model constructs emitters explicitly.
- Listener side effects: a listener's effect on the emitter during an emit is not modelled. This includes a listener that subscribes or unsubscribes while it is being called. The trace of calls is taken from the list as it stood when the emit began.
- ChecklistEvents.ChecklistEventEmitter.Unsubscribe: the handle is not bound to the emitter that issued it, and any listener id can be wrapped in a handle. The source's closure captures its own emitter and listener, so there a handle can only unsubscribe from that emitter.
- ChecklistEvents.ChecklistEventEmitter.Emit: whether a call throws depends only on the listener, so all entries of a listener subscribed twice throw alike in one emit. A real callback may throw on one call and not on the next. This affects only the recorded failures, never the calls made.
- ChecklistEvents.ChecklistEventEmitter.Emit: a thrown exception is modelled only as a recorded failed call, not as a value carried by it.
- The screens, the add-item modal and the list-item component are rendering and UI policy, and are not part of this model. This covers the blank-label guard and the delete button shown only for custom items.
- Persistence, category reset, stats aggregation and per-category event channels are not part of this model: the catalog and emitter code do not implement them.
