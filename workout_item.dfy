/** One row of the workout table. A row is either shown or being edited; while
    editing, changes go to a private buffer and reach the list only on save. */
module Rows {
  import opened Steps

  /** The two inputs a row shows while editing. */
  datatype Field = Date | Distance

  function FieldOf(w: Workout, field: Field): string
  {
    match field
    case Date => w.date
    case Distance => w.distance
  }

  /** The buffer after the input named `field` reports `value`. */
  function WithField(w: Workout, field: Field, value: string): (r: Workout)
    ensures FieldOf(r, field) == value
    ensures r.id == w.id
    ensures forall other :: other != field ==> FieldOf(r, other) == FieldOf(w, other)
  {
    match field
    case Date => w.(date := value)
    case Distance => w.(distance := value)
  }

  /** The per-row state: the record the list currently holds for this row
      (`item`), whether the row is being edited, and the edit buffer. */
  class WorkoutItem {
    var item: Workout
    var edit: bool
    var editedData: Workout

    /** The buffer always belongs to the row's own record, so a save updates
        the row's own id. */
    ghost predicate Valid()
      reads this
    {
      editedData.id == item.id
    }

    /** Mounting a row: not editing, and the buffer is a copy of the record. */
    constructor (item: Workout)
      ensures Valid()
      ensures this.item == item && !edit && editedData == item
    {
      this.item := item;
      edit := false;
      editedData := item;
    }

    /** The list re-renders the row with a (possibly changed) record under
        the same key (`key` is the id): only the record changes, the buffer
        is not reseeded. */
    method Receive(newItem: Workout)
      requires Valid() && newItem.id == item.id
      modifies this`item
      ensures Valid()
      ensures item == newItem
      ensures edit == old(edit) && editedData == old(editedData)
    {
      item := newItem;
    }

    /** The Edit button flips the mode and leaves the buffer as it is. */
    method ToggleEdit()
      requires Valid()
      modifies this`edit
      ensures Valid()
      ensures edit == !old(edit)
      ensures editedData == old(editedData) && item == old(item)
    {
      edit := !edit;
    }

    /** An input of the row reports a new value: only that field of the
        buffer changes. */
    method HandleChange(field: Field, value: string)
      requires Valid()
      modifies this`editedData
      ensures Valid()
      ensures editedData == WithField(old(editedData), field, value)
      ensures FieldOf(editedData, field) == value && editedData.id == old(editedData).id
      ensures item == old(item) && edit == old(edit)
    {
      editedData := WithField(editedData, field, value);
    }

    /** Cancel throws the buffer away and leaves edit mode; the list is not
        touched. */
    method HandleCancel()
      requires Valid()
      modifies this`editedData, this`edit
      ensures Valid()
      ensures editedData == item && !edit
      ensures item == old(item)
    {
      editedData := item;
      edit := false;
    }

    /** Save hands exactly the buffer to the list's update and leaves edit
        mode. */
    method HandleSave(store: WorkoutStore)
      requires Valid()
      modifies this`edit, store
      ensures Valid() && old(editedData).id == item.id
      ensures store.workouts == Replace(old(store.workouts), old(editedData))
      ensures !edit && editedData == old(editedData) && item == old(item)
    {
      store.HandleUpdate(editedData);
      edit := false;
    }

    /** Remove asks the list to drop every record with this row's id. */
    method HandleRemove(store: WorkoutStore)
      modifies store
      ensures store.workouts == Without(old(store.workouts), item.id)
    {
      store.HandleRemove(item.id);
    }
  }

  /** Edit, change any field, cancel: the list is as before, the row is back
      in display mode and its buffer equals the record again. */
  method EditChangeCancel(row: WorkoutItem, store: WorkoutStore, field: Field, value: string)
    requires row.Valid() && !row.edit
    modifies row
    ensures row.Valid()
    ensures store.workouts == old(store.workouts)
    ensures row.item == old(row.item) && row.editedData == row.item && !row.edit
  {
    row.ToggleEdit();
    row.HandleChange(field, value);
    row.HandleCancel();
  }

  /** Edit, change a field, save: the list's record with that id now holds
      the edited field, and nothing else in the list moved. */
  method EditChangeSave(row: WorkoutItem, store: WorkoutStore, field: Field, value: string, i: nat)
    requires !row.edit && row.editedData == row.item
    requires i < |store.workouts| && store.workouts[i] == row.item
    requires forall j :: 0 <= j < i ==> store.workouts[j].id != row.item.id
    modifies row, store
    ensures |store.workouts| == |old(store.workouts)|
    ensures store.workouts[i] == WithField(old(row.item), field, value)
    ensures forall j :: 0 <= j < |store.workouts| && j != i ==> store.workouts[j] == old(store.workouts)[j]
    ensures !row.edit
  {
    row.ToggleEdit();
    row.HandleChange(field, value);
    row.HandleSave(store);
  }

  /** Entering edit mode does not reseed the buffer. Mount a row on the first
      initial record, merge a new distance into that record and re-render the
      row, then press Edit and Save: the buffer still holds the record as it
      was at mount, so saving writes the old distance back over the merge. */
  method StaleBufferOnEdit(sumDistance: (string, string) -> string) returns (store: WorkoutStore, row: WorkoutItem)
    ensures row.item == Workout(0, "04.04.17", sumDistance("10", "5"))
    ensures row.editedData == Workout(0, "04.04.17", "10")
    ensures store.workouts == InitialWorkouts()
  {
    store := new WorkoutStore();
    row := new WorkoutItem(store.workouts[0]);
    store.HandleCreate(Submission("04.04.17", "5"), sumDistance);
    MergeIntoInitial(sumDistance);
    row.Receive(store.workouts[0]);
    row.ToggleEdit();
    row.HandleSave(store);
    assert store.workouts == InitialWorkouts() by {
      var merged := AddSubmission(InitialWorkouts(), Submission("04.04.17", "5"), sumDistance);
      assert store.workouts == Replace(merged, InitialWorkouts()[0]);
      assert IdMatcher(0)(merged[0]);
    }
  }
}
