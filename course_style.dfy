/**
 * The course picture and background colour of the home page (app/page.tsx) and the profile
 * page (app/main/page.tsx): the first key, in table order, that occurs in the lower-cased
 * Russian course name decides; both pages use the same tables and defaults.
 */
module CourseStyle {
  import opened Text
  import opened Types

  /** A key-to-value table in `Object.entries` order. */
  type Table = seq<(string, string)>

  const ImageTable: Table := [
    ("йога", "/img/yoga.png"), ("yoga", "/img/yoga.png"),
    ("стретчинг", "/img/stretching.png"), ("stretching", "/img/stretching.png"),
    ("фитнес", "/img/fitness.png"), ("fitness", "/img/fitness.png"),
    ("степ-аэробика", "/img/step-aerobics.png"), ("step-aerobics", "/img/step-aerobics.png"),
    ("бодифлекс", "/img/bodyflex.png"), ("bodyflex", "/img/bodyflex.png")
  ]

  const ColorTable: Table := [
    ("йога", "bg-yellow-300"), ("yoga", "bg-yellow-300"),
    ("стретчинг", "bg-blue-300"), ("stretching", "bg-blue-300"),
    ("фитнес", "bg-orange-300"), ("fitness", "bg-orange-300"),
    ("степ-аэробика", "bg-pink-300"), ("step-aerobics", "bg-pink-300"),
    ("бодифлекс", "bg-purple-300"), ("bodyflex", "bg-purple-300")
  ]

  const DefaultImage := "/img/fitness.png"
  const DefaultColor := "bg-gray-300"

  /** The position of the first entry whose key occurs in `name`, or `|table|` when none does. */
  function FirstMatchIndex(table: Table, name: string): (i: nat)
    ensures i <= |table|
    ensures i < |table| ==> Contains(name, table[i].0)
    ensures forall j | 0 <= j < i :: !Contains(name, table[j].0)
  {
    if table == [] then 0
    else if Contains(name, table[0].0) then 0
    else 1 + FirstMatchIndex(table[1..], name)
  }

  /** The value of the first matching entry, else `default`. */
  function FirstMatch(table: Table, name: string, default: string): string {
    var i := FirstMatchIndex(table, name);
    if i < |table| then table[i].1 else default
  }

  /** The `for … of Object.entries(table)` loop with its early `return`. */
  method LookupFirst(table: Table, name: string, default: string) returns (r: string)
    ensures r == FirstMatch(table, name, default)
  {
    for i := 0 to |table|
      invariant forall j | 0 <= j < i :: !Contains(name, table[j].0)
    {
      if Contains(name, table[i].0) {
        return table[i].1;
      }
    }
    return default;
  }

  function CourseImage(course: Course): string {
    FirstMatch(ImageTable, ToLower(course.nameRU), DefaultImage)
  }

  function CourseBgColor(course: Course): string {
    FirstMatch(ColorTable, ToLower(course.nameRU), DefaultColor)
  }

  /** `getCourseImage` */
  method GetCourseImage(course: Course) returns (image: string)
    ensures image == CourseImage(course)
  {
    image := LookupFirst(ImageTable, ToLower(course.nameRU), DefaultImage);
  }

  /** `getCourseBgColor` */
  method GetCourseBgColor(course: Course) returns (color: string)
    ensures color == CourseBgColor(course)
  {
    color := LookupFirst(ColorTable, ToLower(course.nameRU), DefaultColor);
  }

  /** Two tables with the same keys in the same order pick the same entry. */
  lemma {:induction false} SameKeysSameIndex(a: Table, b: Table, name: string)
    requires |a| == |b| && forall i | 0 <= i < |a| :: a[i].0 == b[i].0
    ensures FirstMatchIndex(a, name) == FirstMatchIndex(b, name)
  {
    if a != [] && !Contains(name, a[0].0) {
      SameKeysSameIndex(a[1..], b[1..], name);
    }
  }

  /** The picture and the colour always come from the same key: both match, or neither does. */
  lemma ImageAndColorAgree(course: Course)
    ensures FirstMatchIndex(ImageTable, ToLower(course.nameRU)) == FirstMatchIndex(ColorTable, ToLower(course.nameRU))
    ensures CourseBgColor(course) == DefaultColor <==> FirstMatchIndex(ImageTable, ToLower(course.nameRU)) == |ImageTable|
  {
    TablesShareKeys();
    SameKeysSameIndex(ImageTable, ColorTable, ToLower(course.nameRU));
    ColorsAreNotDefault();
  }

  lemma TablesShareKeys()
    ensures |ImageTable| == |ColorTable| && forall i | 0 <= i < |ImageTable| :: ImageTable[i].0 == ColorTable[i].0
  {
  }

  lemma ColorsAreNotDefault()
    ensures forall i | 0 <= i < |ColorTable| :: ColorTable[i].1 != DefaultColor
  {
  }

  /** A name with a yoga key gets the yoga picture and colour, whatever other keys it contains. */
  lemma YogaWins(course: Course)
    requires Contains(ToLower(course.nameRU), "йога")
    ensures CourseImage(course) == "/img/yoga.png"
    ensures CourseBgColor(course) == "bg-yellow-300"
  {
  }

  /** Lower-casing comes first, so a capitalised name still matches. */
  lemma CapitalisedYoga(course: Course)
    requires course.nameRU == "Фитнес-Йога"
    ensures CourseImage(course) == "/img/yoga.png"
  {
    var lower := ToLower(course.nameRU);
    assert lower[7] == 'й' && lower[8] == 'о' && lower[9] == 'г' && lower[10] == 'а';
    assert lower[7..11] == "йога";
    assert OccursAt(lower, "йога", 7);
  }
}
