/**
 * The workout list kept by the tracker's controller (`App`): the list itself,
 * the edit mode with the remembered index and coordinates, and the browser's
 * storage slot under the key "workout", held as an optional list.
 */
module Tracker {
  import opened Wrappers
  import opened Validation
  import opened Labels
  import opened Workouts

  /**
   * The index lookup of `_findWorkoutIndex`: the first index whose workout has
   * the id, or -1 when none has it (the search for the entry finds nothing,
   * and looking up "nothing" in the list gives -1).
   */
  function IndexOfId(ws: seq<Workout>, id: string): (r: int)
    ensures -1 <= r < |ws|
    ensures r >= 0 ==> ws[r].id == id && forall j :: 0 <= j < r ==> ws[j].id != id
    ensures r == -1 <==> forall j :: 0 <= j < |ws| ==> ws[j].id != id
  {
    if ws == [] then -1
    else if ws[0].id == id then 0
    else
      var r := IndexOfId(ws[1..], id);
      if r == -1 then -1 else r + 1
  }

  /** `splice(i, 1)`: the list without entry i, the others in their order. */
  function RemoveAt(ws: seq<Workout>, i: nat): (r: seq<Workout>)
    requires i < |ws|
    ensures |r| == |ws| - 1
    ensures forall k :: 0 <= k < i ==> r[k] == ws[k]
    ensures forall k :: i <= k < |r| ==> r[k] == ws[k + 1]
  {
    ws[..i] + ws[i + 1..]
  }

  /** `newWorkoutObj(type, coords)` in `_newWorkout`, reached only with an accepted form. */
  function BuildWorkout(f: Form, coords: Coords, id: string, date: CalendarDay): (w: Workout)
    requires Accepted(Info(f))
    requires date.month < 12
    ensures WellFormed(w)
    ensures w.id == id && w.date == date && w.coords == coords
    ensures w.Running? <==> f.kind == "running"
    ensures f.distance == Finite(w.distance) && f.duration == Finite(w.duration)
    ensures w.Running? ==> f.cadence == Finite(w.cadence)
    ensures w.Cycling? ==> f.elevation == Finite(w.elevation)
  {
    AcceptedMeansUsable(Info(f));
    if f.kind == "running" then
      NewRunning(id, date, coords, f.distance.value, f.duration.value, f.cadence.value)
    else
      NewCycling(id, date, coords, f.distance.value, f.duration.value, f.elevation.value)
  }

  predicate AllWellFormed(ws: seq<Workout>) {
    forall i :: 0 <= i < |ws| ==> WellFormed(ws[i])
  }

  predicate DistinctIds(ws: seq<Workout>) {
    forall i, j :: 0 <= i < j < |ws| ==> ws[i].id != ws[j].id
  }

  /**
   * Deleting at the found index removes one entry, the first with that id,
   * and keeps every other entry: the multiset drops exactly that workout.
   */
  lemma DeleteRemovesFoundEntry(ws: seq<Workout>, id: string)
    requires IndexOfId(ws, id) >= 0
    ensures ws[IndexOfId(ws, id)].id == id
    ensures |RemoveAt(ws, IndexOfId(ws, id))| == |ws| - 1
    ensures multiset(RemoveAt(ws, IndexOfId(ws, id))) + multiset{ws[IndexOfId(ws, id)]} == multiset(ws)
  {
    RemoveAtMultiset(ws, IndexOfId(ws, id));
  }

  /** Removing entry i takes exactly that entry out of the multiset of entries. */
  lemma RemoveAtMultiset(ws: seq<Workout>, i: nat)
    requires i < |ws|
    ensures multiset(RemoveAt(ws, i)) + multiset{ws[i]} == multiset(ws)
  {
    assert ws == ws[..i] + [ws[i]] + ws[i + 1..];
  }

  /** With distinct ids, the deleted id no longer occurs and every other id still does. */
  lemma DeleteWithDistinctIds(ws: seq<Workout>, id: string)
    requires DistinctIds(ws) && IndexOfId(ws, id) >= 0
    ensures IndexOfId(RemoveAt(ws, IndexOfId(ws, id)), id) == -1
    ensures DistinctIds(RemoveAt(ws, IndexOfId(ws, id)))
    ensures forall j :: 0 <= j < |ws| && ws[j].id != id ==> IndexOfId(RemoveAt(ws, IndexOfId(ws, id)), ws[j].id) >= 0
  {
    var i := IndexOfId(ws, id);
    var r := RemoveAt(ws, i);
    forall k | 0 <= k < |r| ensures r[k].id != id {
      if k >= i {
        assert r[k] == ws[k + 1];
      }
    }
    forall j | 0 <= j < |ws| && ws[j].id != id ensures IndexOfId(r, ws[j].id) >= 0 {
      if j < i {
        assert r[j] == ws[j];
      } else {
        assert j > i;
        assert r[j - 1] == ws[j];
      }
    }
  }

  /** Validated construction keeps a list of well-formed records well-formed, on every path. */
  lemma MutationsKeepWellFormed(ws: seq<Workout>, w: Workout, i: nat)
    requires AllWellFormed(ws) && WellFormed(w)
    ensures AllWellFormed(ws + [w])
    ensures i < |ws| ==> AllWellFormed(ws[i := w]) && AllWellFormed(RemoveAt(ws, i))
  {
  }

  class App {
    /** `#workouts` */
    var workouts: seq<Workout>
    /** `#editState` */
    var editState: bool
    /** `#workoutIndex`, meaningful only in edit mode */
    var workoutIndex: nat
    /** `#latLng`: the coordinates of the workout being edited */
    var latLng: Option<Coords>
    /** The storage slot under the key "workout": None when nothing is stored. */
    var storage: Option<seq<Workout>>

    /** In edit mode the remembered index points into the list and the coordinates are that entry's. */
    ghost predicate Valid()
      reads this
    {
      editState ==> workoutIndex < |workouts| && latLng == Some(workouts[workoutIndex].coords)
    }

    /** `new App()`: an empty list, edit mode off, then `_getLocalStorage`. */
    constructor (persisted: Option<seq<Workout>>)
      ensures Valid() && !editState && latLng == None && storage == persisted
      ensures workouts == (if persisted.Some? then persisted.value else [])
    {
      workouts := [];
      editState := false;
      workoutIndex := 0;
      latLng := None;
      storage := persisted;
      new;
      LoadFromStorage();
    }

    /** `_setLocalStorage`: the slot now holds the whole list, overwriting what it held. */
    method SaveToStorage()
      modifies this`storage
      ensures storage == Some(workouts)
    {
      storage := Some(workouts);
    }

    /** `_getLocalStorage`: a stored list replaces the current one; an empty slot keeps it. */
    method LoadFromStorage()
      modifies this`workouts
      ensures workouts == (if storage.Some? then storage.value else old(workouts))
    {
      match storage
      case None =>
      case Some(data) =>
        workouts := data;
    }

    /** `location.reload()`: the page starts a fresh `App` from what the slot holds. */
    method Reload()
      modifies this
      ensures Valid() && !editState && latLng == None && workoutIndex == 0
      ensures storage == old(storage)
      ensures workouts == (if storage.Some? then storage.value else [])
    {
      workouts := [];
      editState := false;
      workoutIndex := 0;
      latLng := None;
      LoadFromStorage();
    }

    /** `_findWorkoutIndex`: the scan `find` performs over the list. */
    method FindWorkoutIndex(id: string) returns (r: int)
      ensures r == IndexOfId(workouts, id)
    {
      var i := 0;
      while i < |workouts|
        invariant 0 <= i <= |workouts|
        invariant forall j :: 0 <= j < i ==> workouts[j].id != id
      {
        if workouts[i].id == id {
          return i;
        }
        i := i + 1;
      }
      return -1;
    }

    /**
     * `_enableEdit` on a rendered entry: edit mode on, and the entry's index
     * and coordinates remembered. The list is not touched.
     */
    method EnableEdit(id: string)
      requires IndexOfId(workouts, id) >= 0
      modifies this`editState, this`workoutIndex, this`latLng
      ensures Valid() && editState
      ensures workoutIndex == IndexOfId(workouts, id)
      ensures latLng == Some(workouts[workoutIndex].coords)
      ensures workouts == old(workouts) && storage == old(storage)
    {
      editState := true;
      var i := FindWorkoutIndex(id);
      workoutIndex := i;
      latLng := Some(workouts[i].coords);
    }

    /**
     * The "add" path of `_newWorkout`: a rejected form changes nothing; an
     * accepted one appends one workout at the clicked point and saves the list.
     */
    method SubmitNew(f: Form, click: Coords, id: string, date: CalendarDay) returns (ok: bool)
      requires Valid() && !editState && ValidDay(date)
      modifies this
      ensures Valid()
      ensures ok == Accepted(Info(f))
      ensures !ok ==> unchanged(this)
      ensures ok ==> workouts == old(workouts) + [BuildWorkout(f, click, id, date)]
      ensures ok ==> storage == Some(workouts)
      ensures ok ==> editState == old(editState) && workoutIndex == old(workoutIndex) && latLng == old(latLng)
      ensures AllWellFormed(old(workouts)) ==> AllWellFormed(workouts)
    {
      if !Accepted(Info(f)) {
        return false;
      }
      var w := BuildWorkout(f, click, id, date);
      if AllWellFormed(workouts) {
        MutationsKeepWellFormed(workouts, w, 0);
      }
      workouts := workouts + [w];
      SaveToStorage();
      return true;
    }

    /**
     * The "update" path of `_newWorkout`: a rejected form changes nothing; an
     * accepted one replaces the remembered entry with a new workout at that
     * entry's coordinates, saves the list and reloads the page.
     */
    method SubmitEdit(f: Form, id: string, date: CalendarDay) returns (ok: bool)
      requires Valid() && editState && ValidDay(date)
      modifies this
      ensures Valid()
      ensures ok == Accepted(Info(f))
      ensures !ok ==> unchanged(this)
      ensures ok ==> workouts == old(workouts)[old(workoutIndex) := BuildWorkout(f, old(latLng).value, id, date)]
      ensures ok ==> storage == Some(workouts) && !editState && latLng == None
      ensures ok ==> |workouts| == |old(workouts)|
      ensures ok ==> workouts[old(workoutIndex)].coords == old(workouts)[old(workoutIndex)].coords
      ensures ok ==> forall k :: 0 <= k < |workouts| && k != old(workoutIndex) ==> workouts[k] == old(workouts)[k]
      ensures AllWellFormed(old(workouts)) ==> AllWellFormed(workouts)
    {
      var coords := latLng.value;
      if !Accepted(Info(f)) {
        return false;
      }
      var w := BuildWorkout(f, coords, id, date);
      if AllWellFormed(workouts) {
        MutationsKeepWellFormed(workouts, w, workoutIndex);
      }
      workouts := workouts[workoutIndex := w];
      SaveToStorage();
      Reload();
      return true;
    }

    /** `_newWorkout`: the edit path in edit mode, the add path otherwise. */
    method NewWorkout(f: Form, click: Coords, id: string, date: CalendarDay) returns (ok: bool)
      requires Valid() && ValidDay(date)
      modifies this
      ensures Valid()
      ensures ok == Accepted(Info(f))
      ensures !ok ==> unchanged(this)
      ensures ok && !old(editState) ==> workouts == old(workouts) + [BuildWorkout(f, click, id, date)]
      ensures ok && old(editState) ==>
        workouts == old(workouts)[old(workoutIndex) := BuildWorkout(f, old(latLng).value, id, date)]
      ensures ok ==> storage == Some(workouts) && !editState
      ensures AllWellFormed(old(workouts)) ==> AllWellFormed(workouts)
    {
      if editState {
        ok := SubmitEdit(f, id, date);
      } else {
        ok := SubmitNew(f, click, id, date);
      }
    }

    /**
     * `_delete` on a rendered entry: removes the first entry with the id,
     * saves, reloads from the slot and then reloads the page.
     */
    method Delete(id: string)
      requires IndexOfId(workouts, id) >= 0
      modifies this
      ensures Valid() && !editState && latLng == None
      ensures workouts == RemoveAt(old(workouts), IndexOfId(old(workouts), id))
      ensures storage == Some(workouts)
    {
      var i := FindWorkoutIndex(id);
      workouts := RemoveAt(workouts, i);
      SaveToStorage();
      LoadFromStorage();
      Reload();
    }

    /** `_reset`: the slot is emptied and the reloaded page starts with no workouts. */
    method Reset()
      modifies this
      ensures storage == None && workouts == []
      ensures Valid() && !editState && latLng == None
    {
      storage := None;
      Reload();
    }
  }
}
