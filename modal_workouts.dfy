/**
 * The workout picker of a course (components/ModalWorkouts/ModalWorkouts.tsx): which workouts
 * count as done, which one is pre-selected, the day subtitles, and where "start" leads.
 */
module ModalWorkouts {
  import opened Wrappers
  import opened Text
  import opened Errors
  import opened Types
  import Fitness

  /** `workoutsProgress.find(wp => wp.workoutId === workoutId)`: the first entry for the workout. */
  function FindProgress(entries: seq<WorkoutProgress>, workoutId: string): (r: Option<WorkoutProgress>)
    ensures r.None? <==> forall i | 0 <= i < |entries| :: entries[i].workoutId != workoutId
    ensures r.Some? ==> exists i | 0 <= i < |entries| ::
      (entries[i] == r.value && r.value.workoutId == workoutId && forall j | 0 <= j < i :: entries[j].workoutId != workoutId)
  {
    if entries == [] then None
    else if entries[0].workoutId == workoutId then Some(entries[0])
    else
      var r := FindProgress(entries[1..], workoutId);
      assert forall i | 1 <= i < |entries| :: entries[i] == entries[1..][i - 1];
      if r.Some? then
        ghost var i :| 0 <= i < |entries[1..]| && entries[1..][i] == r.value && r.value.workoutId == workoutId
          && forall j | 0 <= j < i :: entries[1..][j].workoutId != workoutId;
        assert entries[i + 1] == r.value && forall j | 0 <= j < i + 1 :: entries[j].workoutId != workoutId;
        r
      else r
  }

  /** The entry at `k` is the first one for `workoutId`. */
  predicate FirstEntryAt(entries: seq<WorkoutProgress>, workoutId: string, k: int) {
    0 <= k < |entries| && entries[k].workoutId == workoutId
    && forall j | 0 <= j < k :: entries[j].workoutId != workoutId
  }

  /** `isWorkoutCompleted`: the first entry for the workout decides; none means not done. */
  function IsWorkoutCompleted(progress: Option<CourseProgress>, workoutId: string): (done: bool)
    ensures done <==> progress.Some? && exists k | FirstEntryAt(progress.value.workoutsProgress, workoutId, k) ::
      progress.value.workoutsProgress[k].workoutCompleted
  {
    match progress
    case None => false
    case Some(p) =>
      var entry := FindProgress(p.workoutsProgress, workoutId);
      FirstEntryUnique(p.workoutsProgress, workoutId);
      entry.Some? && entry.value.workoutCompleted
  }

  /** At most one position holds the first entry for a workout. */
  lemma FirstEntryUnique(entries: seq<WorkoutProgress>, workoutId: string)
    ensures forall i, k | FirstEntryAt(entries, workoutId, i) && FirstEntryAt(entries, workoutId, k) :: i == k
  {
  }

  /** Only the first entry for a workout counts: later entries, done or not, change nothing. */
  lemma FirstEntryDecides(p: CourseProgress, workoutId: string, k: nat)
    requires FirstEntryAt(p.workoutsProgress, workoutId, k)
    ensures IsWorkoutCompleted(Some(p), workoutId) <==> p.workoutsProgress[k].workoutCompleted
  {
    FirstEntryUnique(p.workoutsProgress, workoutId);
  }

  /** The position of the first workout that is not done, or `|workouts|` when all are. */
  function FirstIncomplete(workouts: seq<Workout>, progress: CourseProgress): (i: nat)
    ensures i <= |workouts|
    ensures i < |workouts| ==> !IsWorkoutCompleted(Some(progress), workouts[i].id)
    ensures forall j | 0 <= j < i :: IsWorkoutCompleted(Some(progress), workouts[j].id)
  {
    if workouts == [] then 0
    else if !IsWorkoutCompleted(Some(progress), workouts[0].id) then 0
    else 1 + FirstIncomplete(workouts[1..], progress)
  }

  /** The workout the selection effect picks; an empty id counts as no id and falls back to the first. */
  function AutoSelection(workouts: seq<Workout>, progress: Option<CourseProgress>): (id: string)
    requires |workouts| > 0
    ensures exists i | 0 <= i < |workouts| :: workouts[i].id == id
    ensures progress.None? ==> id == workouts[0].id
    ensures progress.Some? ==> var i := FirstIncomplete(workouts, progress.value);
      (i < |workouts| && workouts[i].id != "" ==> id == workouts[i].id)
      && (i == |workouts| ==> id == workouts[0].id)
  {
    if progress.None? then workouts[0].id
    else
      var i := FirstIncomplete(workouts, progress.value);
      if i < |workouts| && workouts[i].id != "" then workouts[i].id else workouts[0].id
  }

  /** The picked workout is not done whenever some workout with an id is still open. */
  lemma AutoSelectionOpen(workouts: seq<Workout>, progress: CourseProgress)
    requires forall i | 0 <= i < |workouts| :: workouts[i].id != ""
    requires exists i | 0 <= i < |workouts| :: !IsWorkoutCompleted(Some(progress), workouts[i].id)
    ensures !IsWorkoutCompleted(Some(progress), AutoSelection(workouts, Some(progress)))
  {
  }

  /** `getWorkoutSubtitle(workout, index)`: day numbers count from 1. */
  function Subtitle(courseName: Option<string>, index: nat): (r: string)
    ensures Fitness.Truthy(courseName) ==> r == courseName.value + " / " + NatToString(index + 1) + " день"
    ensures !Fitness.Truthy(courseName) ==> r == "Тренировка " + NatToString(index + 1) + " / " + NatToString(index + 1) + " день"
  {
    var day := NatToString(index + 1);
    if Fitness.Truthy(courseName) then courseName.value + " / " + day + " день"
    else "Тренировка " + day + " / " + day + " день"
  }

  /** Both subtitle forms end in the same day count. */
  lemma SubtitleEndsWithDay(courseName: Option<string>, index: nat)
    ensures var suffix := " / " + NatToString(index + 1) + " день";
      |Subtitle(courseName, index)| >= |suffix| &&
      Subtitle(courseName, index)[|Subtitle(courseName, index)| - |suffix|..] == suffix
  {
    var suffix := " / " + NatToString(index + 1) + " день";
    var r := Subtitle(courseName, index);
    if Fitness.Truthy(courseName) {
      assert r == courseName.value + suffix;
    } else {
      assert r == "Тренировка " + NatToString(index + 1) + suffix;
    }
  }

  /** The route `handleStart` pushes. */
  function StartPath(courseId: string, workoutId: string): (r: string)
    ensures |r| == |courseId| + |workoutId| + 19
    ensures r[..9] == "/courses/" && r[|r| - |workoutId|..] == workoutId
  {
    "/courses/" + courseId + "/workouts/" + workoutId
  }

  /** For ids without '/', the route's segments give both ids back. */
  lemma StartPathSegments(courseId: string, workoutId: string)
    requires '/' !in courseId && '/' !in workoutId
    ensures Split(StartPath(courseId, workoutId), '/') == ["", "courses", courseId, "workouts", workoutId]
  {
    var parts := ["", "courses", courseId, "workouts", workoutId];
    var tail := "workouts/" + workoutId;
    var mid := courseId + "/" + tail;
    var whole := "courses/" + mid;
    assert Join(parts[3..], '/') == tail by {
      assert parts[3..][1..] == [workoutId];
    }
    assert Join(parts[2..], '/') == mid by {
      assert parts[2..][1..] == parts[3..];
    }
    assert Join(parts[1..], '/') == whole by {
      assert parts[1..][1..] == parts[2..];
    }
    assert StartPath(courseId, workoutId) == "/" + whole;
    assert forall k | 0 <= k < |parts| :: '/' !in parts[k] by {
      assert '/' !in "courses" && '/' !in "workouts";
    }
    SplitJoin(parts, '/');
  }

  class Picker {
    var workouts: seq<Workout>
    var progress: Option<CourseProgress>
    var isLoading: bool
    var error: Option<string>
    var selectedWorkoutId: Option<string>
    var location: Option<string>   // the route pushed, if any
    var closed: bool               // `onClose` was called

    constructor ()
      ensures workouts == [] && progress.None? && isLoading && error.None? && selectedWorkoutId.None?
      ensures location.None? && !closed
    {
      workouts, progress, isLoading, error := [], None, true, None;
      selectedWorkoutId, location, closed := None, None, false;
    }

    /**
     * `loadWorkouts` for `courseId`, given the answers of the workouts request and of the
     * progress request (which is only made after the first succeeds, and whose failure is ignored).
     */
    method Load(courseId: string, workoutsReply: Result<seq<Workout>, Thrown>, progressReply: Result<CourseProgress, Thrown>)
      modifies this
      ensures courseId == "" ==> unchanged(this)
      ensures courseId != "" ==> !isLoading
      ensures courseId != "" && workoutsReply.Ok? ==>
        (workouts == workoutsReply.value && error == old(error)
         && progress == (if progressReply.Ok? then Some(progressReply.value) else old(progress)))
      ensures courseId != "" && workoutsReply.Err? ==>
        (workouts == old(workouts) && progress == old(progress) && error == Some(GetErrorMessage(workoutsReply.error)))
      ensures selectedWorkoutId == old(selectedWorkoutId) && location == old(location) && closed == old(closed)
    {
      if courseId == "" {
        return;
      }
      isLoading := true;
      match workoutsReply {
        case Ok(list) =>
          workouts := list;
          if progressReply.Ok? {
            progress := Some(progressReply.value);
          }
        case Err(e) =>
          error := Some(GetErrorMessage(e));
      }
      isLoading := false;
    }

    /** The selection effect: only with workouts loaded and nothing selected yet. */
    method AutoSelect()
      modifies this
      ensures |workouts| > 0 && !Fitness.Truthy(old(selectedWorkoutId)) ==>
        selectedWorkoutId == Some(AutoSelection(workouts, progress))
      // whatever the effect picks is one of the listed workouts
      ensures selectedWorkoutId != old(selectedWorkoutId) ==>
        selectedWorkoutId.Some? && exists i | 0 <= i < |workouts| :: workouts[i].id == selectedWorkoutId.value
      ensures |workouts| == 0 || Fitness.Truthy(old(selectedWorkoutId)) ==> unchanged(this)
      ensures workouts == old(workouts) && progress == old(progress) && isLoading == old(isLoading)
      ensures error == old(error) && location == old(location) && closed == old(closed)
    {
      if |workouts| > 0 && !Fitness.Truthy(selectedWorkoutId) {
        selectedWorkoutId := Some(AutoSelection(workouts, progress));
      }
    }

    /** `handleWorkoutSelect`: the user ticks one of the listed workouts. */
    method Select(i: nat)
      requires i < |workouts|
      modifies this
      ensures workouts == old(workouts) && progress == old(progress) && isLoading == old(isLoading)
      ensures selectedWorkoutId == Some(workouts[i].id)
      ensures error == old(error) && location == old(location) && closed == old(closed)
    {
      selectedWorkoutId := Some(workouts[i].id);
    }

    /** `handleStart`: nothing without a selection; otherwise open the workout and close. */
    method Start(courseId: string)
      modifies this
      ensures !Fitness.Truthy(selectedWorkoutId) ==> unchanged(this)
      ensures Fitness.Truthy(selectedWorkoutId) ==> location == Some(StartPath(courseId, selectedWorkoutId.value)) && closed
      ensures workouts == old(workouts) && progress == old(progress) && isLoading == old(isLoading)
      ensures error == old(error) && selectedWorkoutId == old(selectedWorkoutId)
    {
      if Fitness.Truthy(selectedWorkoutId) {
        location := Some(StartPath(courseId, selectedWorkoutId.value));
        closed := true;
      }
    }
  }
}
