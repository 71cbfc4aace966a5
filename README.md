# Workout log ("Steps") — a Dafny model

The Steps component keeps an ordered list of workouts, each an id, a date
(free text, meant as `DD.MM.YY`) and a distance (the text of a number). The
entry form submits a date and a distance: a blank form is ignored; a date
that already appears (non-empty) on some record adds the submitted distance
into the first such record, in place; any other submission is appended with
the id `length + 1`. Each row of the table can be edited through a private
buffer (saved into the list by id, or cancelled) and removed (every record
with that id is filtered out).

- `steps.dfy`, module `Steps`: the `Workout` record, the three list
  reducers as functions on `seq<Workout>` (`AddSubmission`, `Replace`,
  `Without`, built on a model of `findIndex`), lemmas about them, and the
  `WorkoutStore` class whose handlers replace the list by a reducer's
  result in one atomic step.
- `workout_item.dfy`, module `Rows`: the `WorkoutItem` class, the per-row
  state machine with its fields `item`, `edit` and `editedData`, and three
  client methods that run whole edit sequences against a store.

The numeric coercion and addition of two distance strings on a merge is a
parameter `sumDistance: (string, string) -> string` of `AddSubmission` and
`HandleCreate`; no property proved here depends on what it computes.

Two behaviours of the code are modelled as written, although the row key
`key={item.id}` (Steps.tsx:98) relies on unique ids and an Edit button
suggests a fresh buffer:

- Ids are not unique. A new id is the current length plus one, so after a
  removal it can repeat an id that is still in the list (`IdsCanCollide`
  exhibits one such sequence). Removing an id drops every record that
  carries it (`WithoutCount`), so the list shortens by exactly one when a
  single record carries the id, which is the case whenever ids are unique
  (`WithoutUniquePresent`).
- Pressing Edit does not reseed the edit buffer from the current record;
  the buffer is filled only when the row mounts and on Cancel. After a merge
  changes a row's record, Edit then Save writes the stale buffer back over
  the merge (`StaleBufferOnEdit`).

## Model

| member | source | states |
|---|---|---|
| Steps.InitialWorkouts | src/components/Steps/Steps.tsx:15-18 | the list starts with two records, ids 0 and 1 |
| Steps.FindIndex | src/components/Steps/Steps.tsx:31 | the result is -1 exactly when no element satisfies the predicate; otherwise it is an in-range position whose element satisfies it and no earlier element does |
| Steps.AddSubmission | src/components/Steps/Steps.tsx:26-48 | a blank submission leaves the list unchanged; with no record of the same non-empty date the result is the old list followed by exactly one record `{id: length+1, date, distance}`; otherwise the length is kept, the first record with that date keeps its id and date and its distance becomes `sumDistance(old, submitted)`, and every other position is unchanged (so the defensive `!elem` branch is never taken) |
| Steps.Replace | src/components/Steps/Steps.tsx:53-61 | update keeps the length and every id position; with the id present, the first record having it is replaced by the given record at the same index and every other entry is unchanged; with the id absent the list is unchanged |
| Steps.Without | src/components/Steps/Steps.tsx:93-95 | remove keeps exactly the records whose id differs, never grows the list, and leaves it unchanged when the id is absent |
| Steps.EmptyDateAppends | src/components/Steps/Steps.tsx:31-32 | a submission with an empty date and a non-empty distance is always appended, never merged |
| Steps.OnlyFirstSameDateMerges | src/components/Steps/Steps.tsx:31 | a later record with the same date as the first match is left untouched |
| Steps.AddSubmissionIds | src/components/Steps/Steps.tsx:32-47 | create grows the list by at most one, keeps the id and date of every existing position, and an appended record carries id old length + 1 |
| Steps.AddSubmissionKeepsDistinctDates | src/components/Steps/Steps.tsx:30-48 | if no two records share a non-empty date before create, none do after |
| Steps.WithoutAppend | src/components/Steps/Steps.tsx:94 | filtering distributes over concatenation, so remaining records keep their relative order |
| Steps.WithoutCount | src/components/Steps/Steps.tsx:94 | remove shortens the list by exactly the number of records that carry the id |
| Steps.WithoutUniquePresent | src/components/Steps/Steps.tsx:94 | with unique ids, removing a present id shortens the list by exactly one |
| Steps.IdsCanCollide | src/components/Steps/Steps.tsx:32 | remove 0, append twice, remove 1, append once: two records end up with id 3 |
| Steps.MergeIntoInitial | src/components/Steps/Steps.tsx:40-45 | submitting `04.04.17`/`5` to the initial list merges into the first record and leaves the second alone |
| Steps.WorkoutStore.constructor | src/components/Steps/Steps.tsx:15-18 | the store starts with the initial list |
| Steps.WorkoutStore.HandleCreate | src/components/Steps/Steps.tsx:21-51 | the new list is the create reducer applied to the old one |
| Steps.WorkoutStore.HandleUpdate | src/components/Steps/Steps.tsx:53-61 | the new list is the update reducer applied to the old one |
| Steps.WorkoutStore.HandleRemove | src/components/Steps/Steps.tsx:93-95 | the new list is the remove reducer applied to the old one |
| Rows.WithField | src/components/Steps/Steps.tsx:126-129 | a field change sets the named field to the value and keeps the id and the other field |
| Rows.WorkoutItem.constructor | src/components/Steps/Steps.tsx:118-120 | a mounted row is not editing, its buffer equals its record, and the row invariant (buffer id = record id) holds |
| Rows.WorkoutItem.Receive | src/components/Steps/Steps.tsx:118-120 | a re-render under the same key (the same id) changes the row's record only; the buffer and the mode stay |
| Rows.WorkoutItem.ToggleEdit | src/components/Steps/Steps.tsx:124 | toggle negates `edit` and leaves the buffer and the record alone |
| Rows.WorkoutItem.HandleChange | src/components/Steps/Steps.tsx:126-129 | a field change alters only the named field of the buffer, never the record or the mode |
| Rows.WorkoutItem.HandleCancel | src/components/Steps/Steps.tsx:131-134 | cancel sets the buffer equal to the record and `edit` to false |
| Rows.WorkoutItem.HandleSave | src/components/Steps/Steps.tsx:136-139 | save applies update with exactly the current buffer, whose id is the row's own, and sets `edit` to false |
| Rows.WorkoutItem.HandleRemove | src/components/Steps/Steps.tsx:122 | remove applies the remove reducer with the row's id |
| Rows.EditChangeCancel | src/components/Steps/Steps.tsx:124-134 | edit, change, cancel leaves the list unchanged and the buffer equal to the record |
| Rows.EditChangeSave | src/components/Steps/Steps.tsx:124-139 | edit, change, save on a freshly mounted row changes exactly the row's list entry, to the record with the edited field |
| Rows.StaleBufferOnEdit | src/components/Steps/Steps.tsx:120-124 | after a merge into a mounted row's record, edit then save restores the pre-merge list |

## Left out

- Rendering, CSS class names and the static labels: presentation only.
- Capturing the form with `FormData` and resetting it after a submission: a
  submission is modelled as a date and a distance string.
- Extra form keys spread into a new record: only `id`, `date` and `distance`
  are modelled.
- The numeric coercion and floating-point addition of two distance strings:
  it is the parameter `sumDistance`, not a model of IEEE doubles or parsing.
- Hook scheduling (batched state updates, functional updaters, mounting by key
  and unmounting): each handler is one atomic step on the state; a re-render
  of a row under its key is the method `Receive`.
- `src/containers/App/App.tsx`: it only renders the component.
