/**
 * The course loader (components/FetchingCourses/FetchingCourses.tsx): fetches the course list
 * once into the course store and classifies a failure.
 */
module FetchingCourses {
  import opened Wrappers
  import opened Errors
  import opened Types
  import opened CourseSlice

  const NoConnection := "Что-то с интернетом"

  /**
   * What the `catch` dispatches for a failed fetch: `None` when nothing is dispatched (an error
   * that is not an Axios error), else the `setFetchError` payload (`None` when the server body
   * has no message).
   */
  function FetchFailure(e: Thrown): (action: Option<Option<string>>)
    ensures action.None? <==> !e.AxiosError?
    ensures e.AxiosError? && e.response.Some? ==> action == Some(e.response.value.serverMessage)
    ensures e.AxiosError? && e.response.None? && e.requestSent ==> action == Some(Some(NoConnection))
    ensures e.AxiosError? && e.response.None? && !e.requestSent ==> action == Some(Some(UnknownErrorMessage))
  {
    match e
    case AxiosError(_, response, requestSent) =>
      if response.Some? then Some(response.value.serverMessage)
      else if requestSent then Some(Some(NoConnection))
      else Some(Some(UnknownErrorMessage))
    case _ => None
  }

  /**
   * Unlike `getErrorMessage`, the loader ignores the status: a 500 with no message in the body
   * records no error text at all.
   */
  lemma StatusNotConsulted(message: string)
    ensures FetchFailure(AxiosError(message, Some(AxiosResponse(Some(500), None)), true)) == Some(None)
    ensures GetErrorMessage(AxiosError(message, Some(AxiosResponse(Some(500), None)), true)) != ""
  {
  }

  /** The start of the effect: nothing happens once courses are loaded, else loading begins. */
  method StartFetch(store: CourseStore) returns (fetching: bool)
    modifies store
    ensures fetching <==> |old(store.allCourses)| == 0
    ensures fetching ==> store.isLoading
    ensures !fetching ==> unchanged(store)
    ensures store.allCourses == old(store.allCourses) && store.error == old(store.error)
    ensures store.myCourseIds == old(store.myCourseIds) && store.myCourses == old(store.myCourses)
  {
    if |store.allCourses| > 0 {
      return false;
    }
    store.SetFetchIsLoading(true);
    fetching := true;
  }

  /** The end of the effect, once `getCourses` has answered `reply`. */
  method FinishFetch(store: CourseStore, reply: Result<seq<Course>, Thrown>)
    modifies store
    ensures !store.isLoading
    ensures reply.Ok? ==> store.allCourses == reply.value && store.error == old(store.error)
    ensures reply.Err? ==> store.allCourses == old(store.allCourses)
    ensures reply.Err? && FetchFailure(reply.error).Some? ==> store.error == FetchFailure(reply.error).value
    ensures reply.Err? && FetchFailure(reply.error).None? ==> store.error == old(store.error)
    ensures store.myCourseIds == old(store.myCourseIds) && store.myCourses == old(store.myCourses)
  {
    match reply {
      case Ok(courses) =>
        store.SetAllCourses(courses);
      case Err(e) =>
        var action := FetchFailure(e);
        if action.Some? {
          store.SetFetchError(action.value);
        }
    }
    store.SetFetchIsLoading(false);
  }
}
