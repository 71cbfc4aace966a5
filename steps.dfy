/** The workout list kept by the Steps component: the record type, the three
    reducers that the component hands to its state setter (create, update,
    remove), and a store object that applies them in place. */
module Steps {

  /** One logged workout. `date` is free text (meant as DD.MM.YY) and
      `distance` is the text of a number; neither is parsed here. */
  datatype Workout = Workout(id: int, date: string, distance: string)

  /** The values captured from the entry form: its two named inputs. */
  datatype Submission = Submission(date: string, distance: string)

  /** The list the component starts with. */
  function InitialWorkouts(): (ws: seq<Workout>)
    ensures |ws| == 2 && ws[0].id == 0 && ws[1].id == 1
  {
    [Workout(0, "04.04.17", "10"), Workout(1, "05.04.17", "15")]
  }

  /** Array.prototype.findIndex: the first position whose element satisfies
      `p`, or -1 when there is none. */
  function FindIndex<T>(s: seq<T>, p: T -> bool): (r: int)
    ensures -1 <= r < |s|
    ensures r == -1 <==> forall j :: 0 <= j < |s| ==> !p(s[j])
    ensures 0 <= r ==> p(s[r]) && forall j :: 0 <= j < r ==> !p(s[j])
  {
    if |s| == 0 then -1
    else if p(s[0]) then 0
    else
      var k := FindIndex(s[1..], p);
      if k == -1 then -1 else k + 1
  }

  /** A record merges with a submission when its date is non-empty and equal
      to the submitted date. */
  predicate SameDate(w: Workout, date: string)
  {
    w.date != "" && w.date == date
  }

  function DateMatcher(date: string): Workout -> bool
  {
    (w: Workout) => SameDate(w, date)
  }

  function IdMatcher(id: int): Workout -> bool
  {
    (w: Workout) => w.id == id
  }

  /** A submission is ignored when none of its values is truthy. */
  predicate IsBlank(sub: Submission)
  {
    sub.date == "" && sub.distance == ""
  }

  /** The record a submission becomes when it is appended: its id is one more
      than the current length. */
  function NewRecord(ws: seq<Workout>, sub: Submission): Workout
  {
    Workout(|ws| + 1, sub.date, sub.distance)
  }

  /** `i` is the position that the create reducer merges into. */
  predicate IsFirstSameDate(ws: seq<Workout>, i: int, date: string)
  {
    0 <= i < |ws| && SameDate(ws[i], date) && forall j :: 0 <= j < i ==> !SameDate(ws[j], date)
  }

  /** The create reducer. `sumDistance` stands for the numeric coercion and
      addition applied to the two distance strings on a merge; nothing below
      depends on what it computes. */
  function AddSubmission(ws: seq<Workout>, sub: Submission, sumDistance: (string, string) -> string): (r: seq<Workout>)
    // a blank form changes nothing
    ensures IsBlank(sub) ==> r == ws
    // no record with that non-empty date: exactly one record is appended
    ensures !IsBlank(sub) && (forall j :: 0 <= j < |ws| ==> !SameDate(ws[j], sub.date)) ==>
              r == ws + [Workout(|ws| + 1, sub.date, sub.distance)]
    // otherwise the first such record absorbs the distance, in place
    ensures forall i :: !IsBlank(sub) && IsFirstSameDate(ws, i, sub.date) ==>
              && |r| == |ws|
              && r[i] == Workout(ws[i].id, ws[i].date, sumDistance(ws[i].distance, sub.distance))
              && forall j :: 0 <= j < |ws| && j != i ==> r[j] == ws[j]
  {
    if IsBlank(sub) then ws
    else
      var i := FindIndex(ws, DateMatcher(sub.date));
      var newData := NewRecord(ws, sub);
      if i != -1 then
        if !(0 <= i < |ws|) then ws + [newData]   // the component's defensive `!elem` branch
        else
          var elem := ws[i];
          var merged := elem.(distance := sumDistance(elem.distance, sub.distance));
          ws[..i] + [merged] + ws[i + 1..]
      else ws + [newData]
  }

  /** The update reducer: the first record with the same id is replaced by `w`. */
  function Replace(ws: seq<Workout>, w: Workout): (r: seq<Workout>)
    ensures |r| == |ws|
    ensures (forall j :: 0 <= j < |ws| ==> ws[j].id != w.id) ==> r == ws
    ensures forall i :: 0 <= i < |ws| && ws[i].id == w.id && (forall j :: 0 <= j < i ==> ws[j].id != w.id) ==>
              r[i] == w && forall j :: 0 <= j < |ws| && j != i ==> r[j] == ws[j]
    ensures forall j :: 0 <= j < |ws| ==> r[j].id == ws[j].id
  {
    var index := FindIndex(ws, IdMatcher(w.id));
    if index != -1 then ws[..index] + [w] + ws[index + 1..] else ws
  }

  /** The remove reducer: every record with the given id is filtered out. */
  function Without(ws: seq<Workout>, id: int): (r: seq<Workout>)
    ensures |r| <= |ws|
    ensures forall w :: w in r <==> w in ws && w.id != id
    ensures (forall j :: 0 <= j < |ws| ==> ws[j].id != id) ==> r == ws
  {
    if |ws| == 0 then []
    else (if ws[0].id == id then [] else [ws[0]]) + Without(ws[1..], id)
  }

  /** No two records share an id. */
  predicate UniqueIds(ws: seq<Workout>)
  {
    forall i, j :: 0 <= i < j < |ws| ==> ws[i].id != ws[j].id
  }

  /** No two records share a non-empty date. */
  predicate DistinctDates(ws: seq<Workout>)
  {
    forall i, j :: 0 <= i < j < |ws| && ws[i].date != "" ==> ws[i].date != ws[j].date
  }

  /** A submission with an empty date never merges: past the blank guard it
      always appends. */
  lemma EmptyDateAppends(ws: seq<Workout>, sub: Submission, sumDistance: (string, string) -> string)
    requires sub.date == "" && sub.distance != ""
    ensures AddSubmission(ws, sub, sumDistance) == ws + [NewRecord(ws, sub)]
  {
  }

  /** Only the first record with the submitted date is merged; a later record
      carrying the same date is left as it was. */
  lemma OnlyFirstSameDateMerges(ws: seq<Workout>, sub: Submission, sumDistance: (string, string) -> string, i: int, k: int)
    requires !IsBlank(sub) && IsFirstSameDate(ws, i, sub.date)
    requires i < k < |ws| && SameDate(ws[k], sub.date)
    ensures AddSubmission(ws, sub, sumDistance)[k] == ws[k]
  {
  }

  /** Creating keeps the column of ids, except that an append adds the id
      one past the old length at the end. */
  lemma AddSubmissionIds(ws: seq<Workout>, sub: Submission, sumDistance: (string, string) -> string)
    ensures var r := AddSubmission(ws, sub, sumDistance);
            && |ws| <= |r| <= |ws| + 1
            && (forall j :: 0 <= j < |ws| ==> r[j].id == ws[j].id && r[j].date == ws[j].date)
            && (|r| == |ws| + 1 ==> r[|ws|].id == |ws| + 1)
  {
    var i := FindIndex(ws, DateMatcher(sub.date));
    if !IsBlank(sub) && i != -1 {
      assert IsFirstSameDate(ws, i, sub.date);
    }
  }

  /** Creating never introduces a second record with the same non-empty date. */
  lemma AddSubmissionKeepsDistinctDates(ws: seq<Workout>, sub: Submission, sumDistance: (string, string) -> string)
    requires DistinctDates(ws)
    ensures DistinctDates(AddSubmission(ws, sub, sumDistance))
  {
    var r := AddSubmission(ws, sub, sumDistance);
    if IsBlank(sub) {
      return;
    }
    var i := FindIndex(ws, DateMatcher(sub.date));
    if i == -1 {
      assert forall j :: 0 <= j < |ws| ==> !SameDate(ws[j], sub.date) by {
        forall j | 0 <= j < |ws| ensures !SameDate(ws[j], sub.date) {
          assert !DateMatcher(sub.date)(ws[j]);
        }
      }
      assert r == ws + [NewRecord(ws, sub)];
      forall a, b | 0 <= a < b < |r| && r[a].date != ""
        ensures r[a].date != r[b].date
      {
        if b == |ws| {
          assert !SameDate(ws[a], sub.date);
        }
      }
    } else {
      assert IsFirstSameDate(ws, i, sub.date);
      assert |r| == |ws| && forall j :: 0 <= j < |ws| ==> r[j].date == ws[j].date;
    }
  }

  /** Filtering commutes with concatenation, so the records that stay keep
      their relative order. */
  lemma {:induction false} WithoutAppend(a: seq<Workout>, b: seq<Workout>, id: int)
    ensures Without(a + b, id) == Without(a, id) + Without(b, id)
  {
    if |a| == 0 {
      assert a + b == b;
    } else {
      assert (a + b)[1..] == a[1..] + b;
      WithoutAppend(a[1..], b, id);
    }
  }

  /** How many records carry the id. */
  function CountId(ws: seq<Workout>, id: int): nat
  {
    if |ws| == 0 then 0
    else (if ws[0].id == id then 1 else 0) + CountId(ws[1..], id)
  }

  /** Removing an id drops exactly the records that carry it. */
  lemma {:induction false} WithoutCount(ws: seq<Workout>, id: int)
    ensures CountId(ws, id) <= |ws|
    ensures |Without(ws, id)| == |ws| - CountId(ws, id)
  {
    if |ws| > 0 {
      WithoutCount(ws[1..], id);
    }
  }

  /** With unique ids, removing an id that is present shortens the list by
      exactly one. */
  lemma {:induction false} WithoutUniquePresent(ws: seq<Workout>, id: int)
    requires UniqueIds(ws)
    requires exists j :: 0 <= j < |ws| && ws[j].id == id
    ensures |Without(ws, id)| == |ws| - 1
  {
    if ws[0].id == id {
      assert forall j :: 0 <= j < |ws[1..]| ==> ws[1..][j].id != id by {
        forall j | 0 <= j < |ws[1..]| ensures ws[1..][j].id != id {
          assert ws[1..][j] == ws[j + 1];
        }
      }
    } else {
      var j :| 0 <= j < |ws| && ws[j].id == id;
      assert ws[1..][j - 1].id == id;
      WithoutUniquePresent(ws[1..], id);
    }
  }

  /** Ids come from the current length, so they can repeat: starting from the
      initial list, remove id 0, append two records, remove id 1 and append
      once more, and two records end up with id 3. */
  lemma IdsCanCollide(sumDistance: (string, string) -> string)
    ensures var s1 := Without(InitialWorkouts(), 0);
            var s2 := AddSubmission(s1, Submission("06.04.17", "3"), sumDistance);
            var s3 := AddSubmission(s2, Submission("07.04.17", "4"), sumDistance);
            var s4 := Without(s3, 1);
            var s5 := AddSubmission(s4, Submission("08.04.17", "5"), sumDistance);
            s5 == [Workout(2, "06.04.17", "3"), Workout(3, "07.04.17", "4"), Workout(3, "08.04.17", "5")]
            && !UniqueIds(s5)
  {
    CollideRemoveZero();
    CollideAppendSecond(sumDistance);
    CollideAppendThird(sumDistance);
    CollideRemoveOne();
    CollideAppendLast(sumDistance);
    var s5 := [Workout(2, "06.04.17", "3"), Workout(3, "07.04.17", "4"), Workout(3, "08.04.17", "5")];
    assert s5[1].id == s5[2].id;
  }

  // The five steps of IdsCanCollide, one lemma each so that each proof stays small.

  lemma CollideRemoveZero()
    ensures Without(InitialWorkouts(), 0) == [Workout(1, "05.04.17", "15")]
  {
    var s0 := InitialWorkouts();
    assert s0[1..][1..] == [];
  }

  lemma CollideAppendSecond(sumDistance: (string, string) -> string)
    ensures AddSubmission([Workout(1, "05.04.17", "15")], Submission("06.04.17", "3"), sumDistance)
            == [Workout(1, "05.04.17", "15"), Workout(2, "06.04.17", "3")]
  {
    var s1 := [Workout(1, "05.04.17", "15")];
    assert !SameDate(s1[0], "06.04.17") by { assert "05.04.17"[1] != "06.04.17"[1]; }
    assert forall j :: 0 <= j < |s1| ==> !SameDate(s1[j], "06.04.17");
    var s2 := AddSubmission(s1, Submission("06.04.17", "3"), sumDistance);
    assert s2 == s1 + [Workout(2, "06.04.17", "3")];
  }

  lemma CollideAppendThird(sumDistance: (string, string) -> string)
    ensures AddSubmission([Workout(1, "05.04.17", "15"), Workout(2, "06.04.17", "3")], Submission("07.04.17", "4"), sumDistance)
            == [Workout(1, "05.04.17", "15"), Workout(2, "06.04.17", "3"), Workout(3, "07.04.17", "4")]
  {
    var s2 := [Workout(1, "05.04.17", "15"), Workout(2, "06.04.17", "3")];
    var s3 := AddSubmission(s2, Submission("07.04.17", "4"), sumDistance);
    assert !SameDate(s2[0], "07.04.17") by { assert "05.04.17"[1] != "07.04.17"[1]; }
    assert !SameDate(s2[1], "07.04.17") by { assert "06.04.17"[1] != "07.04.17"[1]; }
    assert forall j :: 0 <= j < |s2| ==> !SameDate(s2[j], "07.04.17");
    assert s3 == s2 + [Workout(3, "07.04.17", "4")];
  }

  lemma CollideRemoveOne()
    ensures Without([Workout(1, "05.04.17", "15"), Workout(2, "06.04.17", "3"), Workout(3, "07.04.17", "4")], 1)
            == [Workout(2, "06.04.17", "3"), Workout(3, "07.04.17", "4")]
  {
    var s3 := [Workout(1, "05.04.17", "15"), Workout(2, "06.04.17", "3"), Workout(3, "07.04.17", "4")];
    assert s3[1..][1..][1..] == [];
  }

  lemma CollideAppendLast(sumDistance: (string, string) -> string)
    ensures AddSubmission([Workout(2, "06.04.17", "3"), Workout(3, "07.04.17", "4")], Submission("08.04.17", "5"), sumDistance)
            == [Workout(2, "06.04.17", "3"), Workout(3, "07.04.17", "4"), Workout(3, "08.04.17", "5")]
  {
    var s4 := [Workout(2, "06.04.17", "3"), Workout(3, "07.04.17", "4")];
    var s5 := AddSubmission(s4, Submission("08.04.17", "5"), sumDistance);
    assert !SameDate(s4[0], "08.04.17") by { assert "06.04.17"[1] != "08.04.17"[1]; }
    assert !SameDate(s4[1], "08.04.17") by { assert "07.04.17"[1] != "08.04.17"[1]; }
    assert forall j :: 0 <= j < |s4| ==> !SameDate(s4[j], "08.04.17");
    assert s5 == s4 + [Workout(3, "08.04.17", "5")];
  }

  /** Submitting a known date to the initial list merges into that record. */
  lemma MergeIntoInitial(sumDistance: (string, string) -> string)
    ensures AddSubmission(InitialWorkouts(), Submission("04.04.17", "5"), sumDistance)
            == [Workout(0, "04.04.17", sumDistance("10", "5")), Workout(1, "05.04.17", "15")]
  {
    var ws := InitialWorkouts();
    assert IsFirstSameDate(ws, 0, "04.04.17");
  }

  /** The component's list state. Each handler replaces the list by what the
      matching reducer returns, as one atomic step. */
  class WorkoutStore {
    var workouts: seq<Workout>

    constructor ()
      ensures workouts == InitialWorkouts()
    {
      workouts := InitialWorkouts();
    }

    method HandleCreate(sub: Submission, sumDistance: (string, string) -> string)
      modifies this
      ensures workouts == AddSubmission(old(workouts), sub, sumDistance)
    {
      workouts := AddSubmission(workouts, sub, sumDistance);
    }

    method HandleUpdate(w: Workout)
      modifies this
      ensures workouts == Replace(old(workouts), w)
    {
      workouts := Replace(workouts, w);
    }

    method HandleRemove(id: int)
      modifies this
      ensures workouts == Without(old(workouts), id)
    {
      workouts := Without(workouts, id);
    }
  }
}
