/**
 * The signed-in user's course list (app/main/page.tsx): loading the selected courses and their
 * progress, the progress summary of one card, and removing a course.
 */
module MainPage {
  import opened Wrappers
  import opened Errors
  import opened Types

  /** `Promise.all` over the per-course requests: every course in request order, or the first failure. */
  function AllCourses(replies: seq<Result<Course, Thrown>>): (r: Result<seq<Course>, Thrown>)
    ensures r.Ok? <==> forall i | 0 <= i < |replies| :: replies[i].Ok?
    ensures r.Ok? ==> |r.value| == |replies| && forall i | 0 <= i < |replies| :: r.value[i] == replies[i].value
    ensures r.Err? ==> exists i | 0 <= i < |replies| :: replies[i] == Err(r.error) && forall j | 0 <= j < i :: replies[j].Ok?
  {
    if replies == [] then Ok([])
    else if replies[0].Err? then Err(replies[0].error)
    else
      var rest := AllCourses(replies[1..]);
      if rest.Err? then
        assert replies[1..][0] == replies[1];
        ghost var i :| 0 <= i < |replies[1..]| && replies[1..][i] == Err(rest.error) && forall j | 0 <= j < i :: replies[1..][j].Ok?;
        assert replies[i + 1] == Err(rest.error) && forall j | 0 <= j < i + 1 :: replies[j].Ok?;
        rest
      else Ok([replies[0].value] + rest.value)
  }

  /**
   * The progress map after the first `n` answers: an answered request stores its progress under
   * the id it asked for, so of two answers for the same id the later one stays.
   */
  function ProgressMapOf(ids: seq<string>, results: seq<Option<CourseProgress>>, n: nat): (r: map<string, CourseProgress>)
    requires |ids| == |results| && n <= |ids|
    // every key is one of the first `n` ids whose progress request was answered
    ensures forall k | k in r :: exists i | 0 <= i < n :: ids[i] == k && results[i].Some?
  {
    if n == 0 then map[]
    else
      var m := ProgressMapOf(ids, results, n - 1);
      if results[n - 1].Some? then m[ids[n - 1] := results[n - 1].value] else m
  }

  /** The map holds exactly the ids with an answered request, each with its last answer. */
  lemma {:induction false} ProgressMapContents(ids: seq<string>, results: seq<Option<CourseProgress>>, n: nat, k: string)
    requires |ids| == |results| && n <= |ids|
    ensures k in ProgressMapOf(ids, results, n) <==> exists i | 0 <= i < n :: ids[i] == k && results[i].Some?
    ensures k in ProgressMapOf(ids, results, n) ==>
      exists i | 0 <= i < n :: ids[i] == k && results[i].Some? && ProgressMapOf(ids, results, n)[k] == results[i].value
        && forall j | i < j < n :: ids[j] == k ==> results[j].None?
  {
    if n > 0 {
      ProgressMapContents(ids, results, n - 1, k);
      if results[n - 1].Some? && ids[n - 1] == k {
      } else if k in ProgressMapOf(ids, results, n - 1) {
        var i :| 0 <= i < n - 1 && ids[i] == k && results[i].Some? && ProgressMapOf(ids, results, n - 1)[k] == results[i].value
          && forall j | i < j < n - 1 :: ids[j] == k ==> results[j].None?;
        assert ProgressMapOf(ids, results, n)[k] == results[i].value;
      }
    }
  }

  /** With distinct ids, each answered course maps to its own answer. */
  lemma DistinctIdsKeepEveryAnswer(ids: seq<string>, results: seq<Option<CourseProgress>>, i: nat)
    requires |ids| == |results| && i < |ids|
    requires forall a, b | 0 <= a < b < |ids| :: ids[a] != ids[b]
    requires results[i].Some?
    ensures ids[i] in ProgressMapOf(ids, results, |ids|)
    ensures ProgressMapOf(ids, results, |ids|)[ids[i]] == results[i].value
  {
    ProgressMapContents(ids, results, |ids|, ids[i]);
  }

  /** The `forEach` that fills `progressMapData`. */
  method BuildProgressMap(ids: seq<string>, results: seq<Option<CourseProgress>>) returns (m: map<string, CourseProgress>)
    requires |ids| == |results|
    ensures m == ProgressMapOf(ids, results, |ids|)
  {
    m := map[];
    for i := 0 to |results|
      invariant m == ProgressMapOf(ids, results, i)
    {
      if results[i].Some? {
        m := m[ids[i] := results[i].value];
      }
    }
  }

  /** The number of finished workouts. */
  function CompletedCount(ws: seq<WorkoutProgress>): (c: nat)
    ensures c <= |ws|
    ensures c == |ws| <==> forall i | 0 <= i < |ws| :: ws[i].workoutCompleted
    ensures c == 0 <==> forall i | 0 <= i < |ws| :: !ws[i].workoutCompleted
  {
    if ws == [] then 0
    else
      assert forall i | 1 <= i < |ws| :: ws[i] == ws[1..][i - 1];
      (if ws[0].workoutCompleted then 1 else 0) + CompletedCount(ws[1..])
  }

  datatype ProgressSummary = ProgressSummary(completed: nat, total: nat, isCompleted: bool)

  /** `getCourseProgress` */
  function GetCourseProgress(progressMap: map<string, CourseProgress>, courseId: string): (r: Option<ProgressSummary>)
    ensures r.None? <==> courseId !in progressMap
    ensures r.Some? ==> r.value.total == |progressMap[courseId].workoutsProgress|
    ensures r.Some? ==> r.value.completed <= r.value.total
    ensures r.Some? ==> (r.value.completed == r.value.total <==>
      forall i | 0 <= i < r.value.total :: progressMap[courseId].workoutsProgress[i].workoutCompleted)
    ensures r.Some? ==> r.value.isCompleted == progressMap[courseId].courseCompleted
  {
    if courseId !in progressMap then None
    else
      var p := progressMap[courseId];
      Some(ProgressSummary(CompletedCount(p.workoutsProgress), |p.workoutsProgress|, p.courseCompleted))
  }

  /** The course flag is taken as sent: a course can be marked finished with workouts still open. */
  lemma CourseFlagIndependent()
    ensures var w := WorkoutProgress("w1", false, []);
      var s := GetCourseProgress(map["c" := CourseProgress("c", true, [w])], "c");
      s.Some? && s.value.isCompleted && s.value.completed < s.value.total
  {
  }

  const AuthPath := "/auth"

  class ProfilePage {
    var courses: seq<Course>
    var progressMap: map<string, CourseProgress>
    var loading: bool
    var error: Option<string>
    var loadingRef: bool           // `loadingRef.current`
    var location: Option<string>   // the route pushed, if any
    var reloaded: bool             // `window.location.reload()` was called

    predicate Valid()
      reads this
    {
      loadingRef ==> loading
    }

    constructor ()
      ensures courses == [] && progressMap == map[] && loading && error.None? && !loadingRef
      ensures location.None? && !reloaded
      ensures Valid()
    {
      courses, progressMap, loading, error := [], map[], true, None;
      loadingRef, location, reloaded := false, None, false;
    }

    /** The start of `loadUserCourses`: the ids to fetch, if a fetch starts. */
    method BeginLoad(user: Option<User>) returns (fetching: Option<seq<string>>)
      requires Valid()
      modifies this
      ensures Valid()
      ensures old(loadingRef) ==> fetching.None? && unchanged(this)
      ensures !old(loadingRef) && (user.None? || user.value.selectedCourses == []) ==>
        fetching.None? && !loading && loadingRef == old(loadingRef)
      ensures !old(loadingRef) && user.Some? && user.value.selectedCourses != [] ==>
        fetching == Some(user.value.selectedCourses) && loading && loadingRef
      ensures courses == old(courses) && progressMap == old(progressMap) && error == old(error)
      ensures location == old(location) && reloaded == old(reloaded)
    {
      if loadingRef {
        return None;
      }
      if user.None? || user.value.selectedCourses == [] {
        loading := false;
        return None;
      }
      loadingRef := true;
      loading := true;
      fetching := Some(user.value.selectedCourses);
    }

    /**
     * The end of `loadUserCourses` for the ids `BeginLoad` returned: `replies[i]` answers the course
     * request for `ids[i]` and `progress[i]` its progress request (a failed one is `None`).
     */
    method FinishLoad(ids: seq<string>, replies: seq<Result<Course, Thrown>>, progress: seq<Option<CourseProgress>>)
      requires Valid()
      requires |replies| == |ids| && |progress| == |ids|
      modifies this
      ensures Valid()
      ensures !loading && !loadingRef
      ensures AllCourses(replies).Ok? ==>
        courses == AllCourses(replies).value && progressMap == ProgressMapOf(ids, progress, |ids|) && error.None?
      ensures AllCourses(replies).Err? ==>
        courses == old(courses) && progressMap == old(progressMap) && error == Some(GetErrorMessage(AllCourses(replies).error))
      ensures location == old(location) && reloaded == old(reloaded)
    {
      var all := AllCourses(replies);
      match all {
        case Ok(list) =>
          courses := list;
          progressMap := BuildProgressMap(ids, progress);
          error := None;
        case Err(e) =>
          error := Some(GetErrorMessage(e));
      }
      loading := false;
      loadingRef := false;
    }

    /** The page's effect: once the session has loaded, a visitor without one is sent to sign in. */
    method OnAuthChange(authLoading: bool, isAuthenticated: bool, user: Option<User>) returns (fetching: Option<seq<string>>)
      requires Valid()
      modifies this
      ensures Valid()
      ensures authLoading ==> fetching.None? && unchanged(this)
      ensures !authLoading && !isAuthenticated ==> fetching.None? && location == Some(AuthPath)
      ensures !authLoading && !isAuthenticated ==> loading == old(loading) && loadingRef == old(loadingRef)
      ensures fetching.Some? ==> !authLoading && isAuthenticated && !old(loadingRef) && loadingRef
      // signed in: no navigation, and `loadUserCourses` runs as `BeginLoad` states
      ensures !authLoading && isAuthenticated ==> location == old(location)
      ensures !authLoading && isAuthenticated && old(loadingRef) ==> fetching.None? && unchanged(this)
      ensures !authLoading && isAuthenticated && !old(loadingRef) && (user.None? || user.value.selectedCourses == []) ==>
        fetching.None? && !loading && !loadingRef
      ensures !authLoading && isAuthenticated && !old(loadingRef) && user.Some? && user.value.selectedCourses != [] ==>
        fetching == Some(user.value.selectedCourses) && loading && loadingRef
      ensures courses == old(courses) && progressMap == old(progressMap) && error == old(error)
      ensures reloaded == old(reloaded)
    {
      fetching := None;
      if !authLoading {
        if !isAuthenticated {
          location := Some(AuthPath);
          return;
        }
        fetching := BeginLoad(user);
      }
    }

    /** `handleRemoveCourse`: nothing without confirmation; a failure is shown in an alert. */
    method RemoveCourse(confirmed: bool, reply: Result<(), Thrown>) returns (alertText: Option<string>)
      requires Valid()
      modifies this
      ensures Valid()
      ensures !confirmed ==> alertText.None? && unchanged(this)
      ensures confirmed && reply.Ok? ==> alertText.None? && reloaded
      ensures confirmed && reply.Err? ==> alertText == Some(GetErrorMessage(reply.error)) && reloaded == old(reloaded)
      ensures courses == old(courses) && progressMap == old(progressMap) && error == old(error)
      ensures loading == old(loading) && loadingRef == old(loadingRef) && location == old(location)
    {
      alertText := None;
      if !confirmed {
        return;
      }
      if reply.Ok? {
        reloaded := true;
      } else {
        alertText := Some(GetErrorMessage(reply.error));
      }
    }
  }
}
