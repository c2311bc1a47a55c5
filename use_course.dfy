/**
 * The `useCourse` hook (hooks/useCourse.ts): whether the shown course counts as added, the
 * loading flag around an add or remove request, and the page reload after one succeeds.
 */
module UseCourseHook {
  import opened Wrappers
  import opened Errors
  import opened Types
  import Fitness

  /** The request `toggleAddRemove` sends. */
  datatype ToggleCall = RemoveCourse(courseId: string) | AddCourse(courseId: string)

  /** The request for the current flag: remove an added course, add any other. */
  function CallFor(isAdd: bool, course: Course): (call: ToggleCall)
    ensures call.courseId == course.id
    ensures call.RemoveCourse? <==> isAdd
  {
    if isAdd then RemoveCourse(course.id) else AddCourse(course.id)
  }

  /** The flag after the request settles: a success records what was done, a failure changes nothing. */
  function AfterToggle(call: ToggleCall, reply: Result<(), Thrown>): (isAdd: Option<bool>)
    ensures reply.Err? <==> isAdd.None?
    ensures isAdd.Some? ==> (isAdd.value <==> call.AddCourse?)
  {
    if reply.Err? then None else Some(call.AddCourse?)
  }

  /** A successful toggle flips the flag, so two successful toggles restore it. */
  lemma ToggleFlips(isAdd: bool, course: Course)
    ensures AfterToggle(CallFor(isAdd, course), Ok(())) == Some(!isAdd)
    ensures AfterToggle(CallFor(!isAdd, course), Ok(())) == Some(isAdd)
  {
  }

  class CourseToggle {
    var isAdd: bool
    var isLoading: bool
    var reloaded: bool   // `window.location.reload()` was called

    constructor ()
      ensures !isAdd && !isLoading && !reloaded
    {
      isAdd, isLoading, reloaded := false, false, false;
    }

    /** The effect on `[course, user]`: the check is a stub, so the course never counts as added. */
    method CheckIfAdded(course: Option<Course>, user: Option<string>)
      modifies this
      ensures !isAdd
      ensures isLoading == old(isLoading) && reloaded == old(reloaded)
    {
      if course.None? || !Fitness.Truthy(user) {
        isAdd := false;
        return;
      }
      isAdd := false;
    }

    /** The start of `toggleAddRemove`: nothing without a course and a user, else the request is sent. */
    method BeginToggle(course: Option<Course>, user: Option<string>) returns (call: Option<ToggleCall>)
      modifies this
      ensures call.Some? <==> course.Some? && Fitness.Truthy(user)
      ensures call.Some? ==> call.value == CallFor(old(isAdd), course.value) && isLoading
      ensures call.None? ==> unchanged(this)
      ensures isAdd == old(isAdd) && reloaded == old(reloaded)
    {
      if course.None? || !Fitness.Truthy(user) {
        return None;
      }
      isLoading := true;
      call := Some(CallFor(isAdd, course.value));
    }

    /** The end of `toggleAddRemove`, once `reply` has arrived; a failure is reported by an alert. */
    method FinishToggle(call: ToggleCall, reply: Result<(), Thrown>) returns (alertText: Option<string>)
      modifies this
      ensures !isLoading
      ensures AfterToggle(call, reply).Some? ==> isAdd == AfterToggle(call, reply).value && reloaded
      ensures reply.Err? ==>
        isAdd == old(isAdd) && reloaded == old(reloaded) && alertText == Some(GetErrorMessage(reply.error))
      ensures reply.Ok? ==> alertText.None?
    {
      match reply {
        case Ok(_) =>
          isAdd := call.AddCourse?;
          reloaded := true;
          alertText := None;
        case Err(e) =>
          alertText := Some(GetErrorMessage(e));
      }
      isLoading := false;
    }
  }
}
