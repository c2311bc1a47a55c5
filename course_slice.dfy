/**
 * The Redux course slice (store/features/courseSlise.ts): the course catalogue, the loading
 * flag and error of the last fetch, and the user's course ids and courses.
 */
module CourseSlice {
  import opened Wrappers
  import opened Types

  /** Some course in the list has this `_id` (`allCourses.some(c => c._id === id)`). */
  predicate HasId(cs: seq<Course>, id: string) {
    exists i | 0 <= i < |cs| :: cs[i].id == id
  }

  /** No two courses of the list share an `_id`. */
  predicate UniqueIds(cs: seq<Course>) {
    forall i, j | 0 <= i < j < |cs| :: cs[i].id != cs[j].id
  }

  /** The list after `addCourse`: the course is appended only when its `_id` is new. */
  function WithCourse(cs: seq<Course>, c: Course): (r: seq<Course>)
    ensures HasId(r, c.id)
    ensures HasId(cs, c.id) ==> r == cs
    ensures !HasId(cs, c.id) ==> r == cs + [c]
  {
    if HasId(cs, c.id) then cs
    else
      assert (cs + [c])[|cs|].id == c.id;
      cs + [c]
  }

  /** The list after `removeCourse`: `allCourses.filter(c => c._id !== id)`. */
  function WithoutId(cs: seq<Course>, id: string): (r: seq<Course>)
    ensures |r| <= |cs|
    // no course with the removed `_id` is left
    ensures !HasId(r, id)
  {
    if cs == [] then []
    else (if cs[0].id == id then [] else [cs[0]]) + WithoutId(cs[1..], id)
  }

  /** Removal keeps exactly the courses with a different `_id`, and never lengthens the list. */
  lemma {:induction false} WithoutIdMembers(cs: seq<Course>, id: string)
    ensures forall c :: c in WithoutId(cs, id) <==> c in cs && c.id != id
    ensures |WithoutId(cs, id)| <= |cs|
    ensures !HasId(WithoutId(cs, id), id)
  {
    if cs != [] {
      WithoutIdMembers(cs[1..], id);
      assert forall c :: c in cs <==> c == cs[0] || c in cs[1..];
    }
  }

  /** Removing from a concatenation removes from each part: order is kept. */
  lemma {:induction false} WithoutIdAppend(a: seq<Course>, b: seq<Course>, id: string)
    ensures WithoutId(a + b, id) == WithoutId(a, id) + WithoutId(b, id)
  {
    if a != [] {
      WithoutIdAppend(a[1..], b, id);
      assert (a + b)[1..] == a[1..] + b;
    } else {
      assert a + b == b;
    }
  }

  /** Removing an `_id` that no course has leaves the list unchanged. */
  lemma {:induction false} WithoutAbsentId(cs: seq<Course>, id: string)
    requires !HasId(cs, id)
    ensures WithoutId(cs, id) == cs
  {
    if cs != [] {
      assert !HasId(cs[1..], id) by {
        forall k | 0 <= k < |cs[1..]| ensures cs[1..][k].id != id {
          assert cs[1..][k] == cs[k + 1];
        }
      }
      WithoutAbsentId(cs[1..], id);
      assert cs[0].id != id;
      assert cs == [cs[0]] + cs[1..];
    }
  }

  /** `removeCourse` is idempotent. */
  lemma WithoutIdIdempotent(cs: seq<Course>, id: string)
    ensures WithoutId(WithoutId(cs, id), id) == WithoutId(cs, id)
  {
    WithoutIdMembers(cs, id);
    WithoutAbsentId(WithoutId(cs, id), id);
  }

  /** Adding a course with a new `_id` and then removing that `_id` restores the list. */
  lemma AddThenRemove(cs: seq<Course>, c: Course)
    requires !HasId(cs, c.id)
    ensures WithoutId(WithCourse(cs, c), c.id) == cs
  {
    WithoutIdAppend(cs, [c], c.id);
    WithoutAbsentId(cs, c.id);
    assert WithoutId([c], c.id) == [];
  }

  /** `addCourse` keeps the ids unique and grows the list by at most one. */
  lemma AddKeepsUnique(cs: seq<Course>, c: Course)
    requires UniqueIds(cs)
    ensures UniqueIds(WithCourse(cs, c))
    ensures |cs| <= |WithCourse(cs, c)| <= |cs| + 1
  {
  }

  /** A sub-list in the same order as the original. */
  predicate IsSubsequence(a: seq<Course>, b: seq<Course>)
    decreases |b|
  {
    a == [] || (b != [] && ((a[0] == b[0] && IsSubsequence(a[1..], b[1..])) || IsSubsequence(a, b[1..])))
  }

  /** `removeCourse` keeps the surviving courses in their original order. */
  lemma {:induction false} WithoutIdOrdered(cs: seq<Course>, id: string)
    ensures IsSubsequence(WithoutId(cs, id), cs)
  {
    if cs != [] {
      WithoutIdOrdered(cs[1..], id);
      if cs[0].id != id {
        assert WithoutId(cs, id)[1..] == WithoutId(cs[1..], id);
      } else {
        assert WithoutId(cs, id) == WithoutId(cs[1..], id);
      }
    }
  }

  /** A sub-list of a list with unique ids has unique ids. */
  lemma {:induction false} SubsequenceKeepsUnique(a: seq<Course>, b: seq<Course>)
    requires IsSubsequence(a, b) && UniqueIds(b)
    ensures UniqueIds(a)
    ensures forall c :: c in a ==> c in b
    decreases |b|
  {
    if a != [] {
      assert b != [];
      assert UniqueIds(b[1..]) by {
        forall i, j | 0 <= i < j < |b[1..]| ensures b[1..][i].id != b[1..][j].id {
          assert b[i + 1].id != b[j + 1].id;
        }
      }
      if a[0] == b[0] && IsSubsequence(a[1..], b[1..]) {
        SubsequenceKeepsUnique(a[1..], b[1..]);
        forall i, j | 0 <= i < j < |a| ensures a[i].id != a[j].id {
          if i == 0 {
            assert a[j] == a[1..][j - 1];
            assert a[j] in b[1..];
            var k :| 0 <= k < |b[1..]| && b[1..][k] == a[j];
            assert b[0].id != b[k + 1].id;
          } else {
            assert a[i] == a[1..][i - 1] && a[j] == a[1..][j - 1];
          }
        }
        assert forall c :: c in a ==> c == a[0] || c in a[1..];
      } else {
        SubsequenceKeepsUnique(a, b[1..]);
      }
    }
  }

  /** `removeCourse` keeps the ids unique. */
  lemma RemoveKeepsUnique(cs: seq<Course>, id: string)
    requires UniqueIds(cs)
    ensures UniqueIds(WithoutId(cs, id))
  {
    WithoutIdOrdered(cs, id);
    SubsequenceKeepsUnique(WithoutId(cs, id), cs);
  }

  /** The slice's state (`CourseState`). Each reducer assigns the fields it names in place. */
  class CourseStore {
    var allCourses: seq<Course>
    var isLoading: bool
    var error: Option<string>
    var myCourseIds: seq<string>
    var myCourses: seq<Course>

    /** `initialState` */
    constructor ()
      ensures allCourses == [] && !isLoading && error == None
      ensures myCourseIds == [] && myCourses == []
    {
      allCourses := [];
      isLoading := false;
      error := None;
      myCourseIds := [];
      myCourses := [];
    }

    method SetAllCourses(courses: seq<Course>)
      modifies this
      ensures allCourses == courses
      ensures isLoading == old(isLoading) && error == old(error)
      ensures myCourseIds == old(myCourseIds) && myCourses == old(myCourses)
    {
      allCourses := courses;
    }

    method SetFetchIsLoading(flag: bool)
      modifies this
      ensures isLoading == flag
      ensures allCourses == old(allCourses) && error == old(error)
      ensures myCourseIds == old(myCourseIds) && myCourses == old(myCourses)
    {
      isLoading := flag;
    }

    method SetFetchError(message: Option<string>)
      modifies this
      ensures error == message
      ensures allCourses == old(allCourses) && isLoading == old(isLoading)
      ensures myCourseIds == old(myCourseIds) && myCourses == old(myCourses)
    {
      error := message;
    }

    /** `addCourse`: push the course unless a course with its `_id` is already listed. */
    method AddCourse(c: Course)
      modifies this
      ensures allCourses == WithCourse(old(allCourses), c)
      ensures UniqueIds(old(allCourses)) ==> UniqueIds(allCourses)
      ensures isLoading == old(isLoading) && error == old(error)
      ensures myCourseIds == old(myCourseIds) && myCourses == old(myCourses)
    {
      var present := HasId(allCourses, c.id);
      if !present {
        allCourses := allCourses + [c];
      }
      if UniqueIds(old(allCourses)) {
        AddKeepsUnique(old(allCourses), c);
      }
    }

    /** `removeCourse`: keep only the courses whose `_id` differs. */
    method RemoveCourse(id: string)
      modifies this
      ensures allCourses == WithoutId(old(allCourses), id)
      ensures !HasId(allCourses, id)
      ensures UniqueIds(old(allCourses)) ==> UniqueIds(allCourses)
      ensures isLoading == old(isLoading) && error == old(error)
      ensures myCourseIds == old(myCourseIds) && myCourses == old(myCourses)
    {
      allCourses := WithoutId(allCourses, id);
      WithoutIdMembers(old(allCourses), id);
      if UniqueIds(old(allCourses)) {
        RemoveKeepsUnique(old(allCourses), id);
      }
    }

    method SetMyCourseIds(ids: seq<string>)
      modifies this
      ensures myCourseIds == ids
      ensures allCourses == old(allCourses) && isLoading == old(isLoading)
      ensures error == old(error) && myCourses == old(myCourses)
    {
      myCourseIds := ids;
    }

    method SetMyCourses(courses: seq<Course>)
      modifies this
      ensures myCourses == courses
      ensures allCourses == old(allCourses) && isLoading == old(isLoading)
      ensures error == old(error) && myCourseIds == old(myCourseIds)
    {
      myCourses := courses;
    }
  }
}
