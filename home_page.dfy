/**
 * The course catalogue on the home page (app/page.tsx): the duration and time strings, the
 * "already added" check, the add button, and the loading and adding flows.
 */
module HomePage {
  import opened Wrappers
  import opened Text
  import opened Errors
  import opened Types
  import MyCoursesPage

  /** The Russian word after a day count: only 1 is singular, and there is no rule for 21, 22, …. */
  function DaySuffix(days: int): (r: string)
    ensures r == "день" <==> days == 1
    ensures r == "дня" <==> days != 1 && days < 5
    ensures r == "дней" <==> days >= 5
  {
    if days == 1 then "день" else if days < 5 then "дня" else "дней"
  }

  const DefaultDuration := "25 дней"

  /** `formatDuration`: a missing or zero count shows the default. */
  function FormatDuration(days: Option<int>): (r: string)
    ensures days.None? || days == Some(0) ==> r == DefaultDuration
    ensures days.Some? && days.value != 0 ==> r == IntToString(days.value) + " " + DaySuffix(days.value)
  {
    if days.None? || days.value == 0 then DefaultDuration
    else IntToString(days.value) + " " + DaySuffix(days.value)
  }

  /** Counts ending in 1 or 2 above 20 take the plural of 5 and more. */
  lemma NoTwentyOneRule()
    ensures FormatDuration(Some(1)) == "1 день"
    ensures FormatDuration(Some(3)) == "3 дня"
    ensures FormatDuration(Some(21)) == "21 дней"
    ensures FormatDuration(Some(22)) == "22 дней"
  {
    SmallNumbers();
  }

  const DefaultTime := "20-50 мин/день"

  /** `formatTime` */
  function FormatTime(range: Option<MinutesRange>): (r: string)
    ensures range.None? ==> r == DefaultTime
    ensures range.Some? ==> r == IntToString(range.value.from) + "-" + IntToString(range.value.to) + " мин/день"
  {
    if range.None? then DefaultTime
    else IntToString(range.value.from) + "-" + IntToString(range.value.to) + " мин/день"
  }

  /** The default time reads exactly like an explicit 20 to 50 minute range. */
  lemma DefaultTimeIsTwentyToFifty()
    ensures FormatTime(None) == FormatTime(Some(MinutesRange(20, 50)))
  {
    SmallNumbers();
    var printed := IntToString(20) + "-" + IntToString(50) + " мин/день";
    assert printed == "20" + "-" + "50" + " мин/день";
    assert "20" + "-" + "50" + " мин/день" == DefaultTime;
  }

  /** `isCourseSelected`: a signed-in user whose selected courses list the id. */
  predicate IsCourseSelected(user: Option<User>, courseId: string): (selected: bool)
    // a visitor who is not signed in, or who has chosen nothing, sees no course as added
    ensures user.None? || user.value.selectedCourses == [] ==> !selected
    ensures selected ==> courseId in user.value.selectedCourses
  {
    user.Some? && courseId in user.value.selectedCourses
  }

  /** A listed course shows as added exactly when the profile page lists it among the user's courses. */
  lemma SelectedMeansListed(user: User, courses: seq<Course>, c: Course)
    requires c in courses
    ensures IsCourseSelected(Some(user), c.id) <==> c in MyCoursesPage.MyCoursesOf(courses, user.selectedCourses)
  {
  }

  datatype ButtonView = ButtonView(disabled: bool, caption: string, title: string)

  /** The add button of one card. */
  function AddButton(isSelected: bool, isAdding: bool): (b: ButtonView)
    ensures b.disabled <==> isSelected || isAdding
    // an added course shows the check mark even while a request for it is running
    ensures isSelected ==> b.caption == "✓" && b.title == "Курс уже добавлен"
    ensures !isSelected && isAdding ==> b.caption == "..." && b.title == "Добавление..."
    ensures !b.disabled <==> b.caption == "+"
    ensures !b.disabled ==> b.title == "Добавить курс"
  {
    var caption := if isSelected then "✓" else if isAdding then "..." else "+";
    var title := if isSelected then "Курс уже добавлен" else if isAdding then "Добавление..." else "Добавить курс";
    ButtonView(isSelected || isAdding, caption, title)
  }

  /** The button of a course that is neither added nor being added is the only one that can be pressed. */
  lemma OnlyFreshCoursesClickable(user: Option<User>, addingCourseId: Option<string>, courseId: string)
    ensures !AddButton(IsCourseSelected(user, courseId), addingCourseId == Some(courseId)).disabled
      <==> !IsCourseSelected(user, courseId) && addingCourseId != Some(courseId)
  {
  }

  const AddedMessage := "Курс успешно добавлен!"

  class Home {
    var courses: seq<Course>
    var loading: bool
    var error: Option<string>
    var addingCourseId: Option<string>
    var loadingRef: bool        // `loadingRef.current`
    var location: Option<string>   // `window.location.href` when it was set
    var reloaded: bool          // `window.location.reload()` was called

    /** A load in progress always shows the spinner. */
    predicate Valid()
      reads this
    {
      loadingRef ==> loading
    }

    constructor ()
      ensures courses == [] && loading && error.None? && addingCourseId.None? && !loadingRef
      ensures location.None? && !reloaded
      ensures Valid()
    {
      courses, loading, error, addingCourseId := [], true, None, None;
      loadingRef, location, reloaded := false, None, false;
    }

    /** The start of `loadCourses`: refused while a load is running. */
    method BeginLoadCourses() returns (started: bool)
      requires Valid()
      modifies this
      ensures Valid()
      ensures started <==> !old(loadingRef)
      ensures started ==> loadingRef && loading
      ensures !started ==> unchanged(this)
      ensures courses == old(courses) && error == old(error) && addingCourseId == old(addingCourseId)
      ensures location == old(location) && reloaded == old(reloaded)
    {
      if loadingRef {
        return false;
      }
      loadingRef := true;
      loading := true;
      started := true;
    }

    /** The end of `loadCourses`, once `coursesApi.getAll` has answered `reply`. */
    method FinishLoadCourses(reply: Result<seq<Course>, Thrown>)
      requires Valid()
      modifies this
      ensures Valid()
      ensures !loading && !loadingRef
      ensures reply.Ok? ==> courses == reply.value && error.None?
      ensures reply.Err? ==> courses == old(courses) && error == Some(GetErrorMessage(reply.error))
      ensures addingCourseId == old(addingCourseId) && location == old(location) && reloaded == old(reloaded)
    {
      match reply {
        case Ok(list) =>
          courses := list;
          error := None;
        case Err(e) =>
          error := Some(GetErrorMessage(e));
      }
      loading := false;
      loadingRef := false;
    }

    /** The start of `handleAddCourse`: without a session the browser goes to the sign-in page. */
    method BeginAddCourse(isAuthenticated: bool, courseId: string) returns (started: bool)
      requires Valid()
      modifies this
      ensures Valid()
      ensures started == isAuthenticated
      ensures !started ==> location == Some("/auth") && addingCourseId == old(addingCourseId)
      ensures started ==> addingCourseId == Some(courseId) && location == old(location)
      ensures courses == old(courses) && loading == old(loading) && error == old(error)
      ensures loadingRef == old(loadingRef) && reloaded == old(reloaded)
    {
      if !isAuthenticated {
        location := Some("/auth");
        return false;
      }
      addingCourseId := Some(courseId);
      started := true;
    }

    /** The end of `handleAddCourse`, once the add and `getMe` requests have answered. */
    method FinishAddCourse(add: Result<(), Thrown>, me: Result<User, Thrown>) returns (alertText: string)
      requires Valid()
      modifies this
      ensures Valid()
      ensures addingCourseId.None?
      ensures add.Ok? && me.Ok? ==> alertText == AddedMessage && reloaded
      ensures add.Err? ==> alertText == GetErrorMessage(add.error) && reloaded == old(reloaded)
      ensures add.Ok? && me.Err? ==> alertText == GetErrorMessage(me.error) && reloaded == old(reloaded)
      ensures courses == old(courses) && loading == old(loading) && error == old(error)
      ensures loadingRef == old(loadingRef) && location == old(location)
    {
      if add.Err? {
        alertText := GetErrorMessage(add.error);
      } else if me.Err? {
        alertText := GetErrorMessage(me.error);
      } else {
        alertText := AddedMessage;
        reloaded := true;
      }
      addingCourseId := None;
    }
  }
}
