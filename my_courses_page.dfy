/**
 * The "my courses" profile page (app/users/me/courses/page.tsx): the effect that fetches the
 * user's selected course ids, the effect that derives the selected courses from the full list,
 * and the logout button.
 */
module MyCoursesPage {
  import opened Wrappers
  import opened Errors
  import opened Types
  import opened CourseSlice
  import opened FetchingCourses
  import Fitness
  import AuthSlice

  /** The courses of `all` whose id is selected, in the order of `all`. */
  function MyCoursesOf(all: seq<Course>, ids: seq<string>): (r: seq<Course>)
    ensures |r| <= |all|
    ensures forall c :: c in r <==> c in all && c.id in ids
  {
    if all == [] then []
    else if all[0].id in ids then [all[0]] + MyCoursesOf(all[1..], ids)
    else MyCoursesOf(all[1..], ids)
  }

  /** The derived list keeps the order of the full list. */
  lemma {:induction false} MyCoursesOrdered(all: seq<Course>, ids: seq<string>)
    ensures IsSubsequence(MyCoursesOf(all, ids), all)
  {
    if all != [] {
      MyCoursesOrdered(all[1..], ids);
      var r := MyCoursesOf(all, ids);
      if all[0].id in ids {
        assert r[0] == all[0] && r[1..] == MyCoursesOf(all[1..], ids);
      } else {
        SubsequenceOfTail(r, all);
      }
    }
  }

  lemma SubsequenceOfTail(a: seq<Course>, b: seq<Course>)
    requires b != [] && IsSubsequence(a, b[1..])
    ensures IsSubsequence(a, b)
  {
  }

  /** Selecting every course's id gives back the whole list; selecting none gives nothing. */
  lemma {:induction false} MyCoursesExtremes(all: seq<Course>, ids: seq<string>)
    ensures (forall c | c in all :: c.id in ids) ==> MyCoursesOf(all, ids) == all
    ensures MyCoursesOf(all, []) == []
  {
    if all != [] {
      MyCoursesExtremes(all[1..], ids);
    }
  }

  /** A list without repeated ids yields a derived list without repeated ids. */
  lemma MyCoursesUnique(all: seq<Course>, ids: seq<string>)
    requires UniqueIds(all)
    ensures UniqueIds(MyCoursesOf(all, ids))
  {
    MyCoursesOrdered(all, ids);
    SubsequenceKeepsUnique(MyCoursesOf(all, ids), all);
  }

  /**
   * The fetch guard as written: the page reads `fetchIsLoading` from the course state, which
   * has no such field, so the loading flag it means is always `undefined` and never blocks.
   */
  predicate ShouldFetchAsWritten(token: Option<string>, myCourses: seq<Course>, isLoading: bool): (go: bool)
    ensures go ==> token.Some? && myCourses == []
    // the loading flag plays no part
    ensures Fitness.Truthy(token) && myCourses == [] ==> go
  {
    Fitness.Truthy(token) && |myCourses| == 0
  }

  /** The intended guard: a token, no courses yet, and no fetch in progress. */
  predicate ShouldFetch(token: Option<string>, myCourses: seq<Course>, isLoading: bool): (go: bool)
    ensures go ==> !isLoading && token.Some? && myCourses == []
  {
    Fitness.Truthy(token) && |myCourses| == 0 && !isLoading
  }

  /** While a fetch is in progress, the written guard starts another one. */
  lemma LoadingIgnored(myCourses: seq<Course>)
    requires myCourses == []
    ensures ShouldFetchAsWritten(Some("t"), myCourses, true)
    ensures !ShouldFetch(Some("t"), myCourses, true)
  {
  }

  /** The two guards differ exactly while loading. */
  lemma GuardsAgreeWhenIdle(token: Option<string>, myCourses: seq<Course>, isLoading: bool)
    ensures ShouldFetch(token, myCourses, isLoading) <==> ShouldFetchAsWritten(token, myCourses, isLoading) && !isLoading
  {
  }

  /**
   * The `catch` as written: `setFetchError(…)` is called without `dispatch`, which only builds
   * an action, so no error ever reaches the store.
   */
  function ErrorDispatchAsWritten(e: Thrown): (action: Option<Option<string>>)
    ensures action.None?
  {
    None
  }

  /** An Axios error that the loader would record is lost by the page. */
  lemma FetchErrorLost(message: string)
    ensures ErrorDispatchAsWritten(AxiosError(message, None, true)).None?
    ensures FetchFailure(AxiosError(message, None, true)) == Some(Some(NoConnection))
  {
  }

  /** The `MeCourses` page component, over the two stores it reads and dispatches to. */
  class MeCourses {
    const auth: AuthSlice.AuthStore
    const courses: CourseStore
    var location: Option<string>   // the last `router.push` target

    constructor (auth: AuthSlice.AuthStore, courses: CourseStore)
      ensures this.auth == auth && this.courses == courses && location.None?
    {
      this.auth := auth;
      this.courses := courses;
      location := None;
    }

    /** The start of the fetch effect, with the intended guard. */
    method StartFetch() returns (fetching: bool)
      modifies courses
      ensures fetching == ShouldFetch(auth.token, old(courses.myCourses), old(courses.isLoading))
      ensures fetching ==> courses.isLoading
      ensures !fetching ==> unchanged(courses)
      ensures courses.allCourses == old(courses.allCourses) && courses.error == old(courses.error)
      ensures courses.myCourseIds == old(courses.myCourseIds) && courses.myCourses == old(courses.myCourses)
    {
      fetching := ShouldFetch(auth.token, courses.myCourses, courses.isLoading);
      if fetching {
        courses.SetFetchIsLoading(true);
      }
    }

    /**
     * The end of the fetch effect, once `getCoursesMe` has answered, with the `catch` corrected to
     * dispatch its error as the loader does. As written the page never dispatches it (see
     * `ErrorDispatchAsWritten` and `FetchErrorLost`), so the store's error is then left unchanged.
     */
    method FinishFetch(reply: Result<User, Thrown>)
      modifies courses
      ensures !courses.isLoading
      ensures reply.Ok? ==> courses.myCourseIds == reply.value.selectedCourses && courses.error == old(courses.error)
      ensures reply.Err? ==> courses.myCourseIds == old(courses.myCourseIds)
      ensures reply.Err? && FetchFailure(reply.error).Some? ==> courses.error == FetchFailure(reply.error).value
      ensures reply.Err? && FetchFailure(reply.error).None? ==> courses.error == old(courses.error)
      ensures courses.allCourses == old(courses.allCourses) && courses.myCourses == old(courses.myCourses)
    {
      match reply {
        case Ok(user) =>
          courses.SetMyCourseIds(user.selectedCourses);
        case Err(e) =>
          var action := FetchFailure(e);
          if action.Some? {
            courses.SetFetchError(action.value);
          }
      }
      courses.SetFetchIsLoading(false);
    }

    /** The derivation effect: with ids and courses both present, the selected courses are recomputed. */
    method SyncMyCourses()
      modifies courses
      ensures |courses.myCourseIds| > 0 && |courses.allCourses| > 0 ==>
        courses.myCourses == MyCoursesOf(courses.allCourses, courses.myCourseIds)
      ensures !(|old(courses.myCourseIds)| > 0 && |old(courses.allCourses)| > 0) ==> unchanged(courses)
      ensures courses.allCourses == old(courses.allCourses) && courses.myCourseIds == old(courses.myCourseIds)
      ensures courses.isLoading == old(courses.isLoading) && courses.error == old(courses.error)
    {
      if |courses.myCourseIds| > 0 && |courses.allCourses| > 0 {
        courses.SetMyCourses(MyCoursesOf(courses.allCourses, courses.myCourseIds));
      }
    }

    /** `onLogout`: `logout`, then the home page. */
    method OnLogout()
      requires auth.Valid()
      modifies auth, this
      ensures auth.Valid()
      ensures auth.user.None? && auth.token.None? && !auth.isAuth && auth.error.None?
      ensures auth.loading == old(auth.loading)
      ensures auth.storage == old(auth.storage) - {AuthSlice.TokenKey}
      ensures location == Some("/")
    {
      auth.Logout();
      location := Some("/");
    }
  }
}
