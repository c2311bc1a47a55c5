/**
 * The catalogue card (components/CourseCard/CourseCard.tsx): the picture comes from an EXACT
 * lookup of the lower-cased names, unlike the substring rule of the pages, and the duration,
 * time and difficulty strings fall back to empty strings.
 */
module CourseCard {
  import opened Wrappers
  import opened Text
  import opened Types
  import CourseStyle
  import HomePage

  const CardDefaultImage := "/img/yoga.png"

  /** `getCourseImage(nameRU, nameEN)`: the Russian name first, then the English one. */
  function CardImage(nameRU: string, nameEN: string): (r: string)
    ensures Lookup(CourseStyle.ImageTable, ToLower(nameRU)).Some? ==>
      r == Lookup(CourseStyle.ImageTable, ToLower(nameRU)).value
    ensures Lookup(CourseStyle.ImageTable, ToLower(nameRU)).None? ==>
      r == Lookup(CourseStyle.ImageTable, ToLower(nameEN)).GetOr(CardDefaultImage)
    ensures (forall i | 0 <= i < |CourseStyle.ImageTable| ::
        CourseStyle.ImageTable[i].0 != ToLower(nameRU) && CourseStyle.ImageTable[i].0 != ToLower(nameEN))
      ==> r == CardDefaultImage
    ensures r == CardDefaultImage || exists i | 0 <= i < |CourseStyle.ImageTable| :: CourseStyle.ImageTable[i].1 == r
  {
    match Lookup(CourseStyle.ImageTable, ToLower(nameRU))
    case Some(image) => image
    case None =>
      match Lookup(CourseStyle.ImageTable, ToLower(nameEN))
      case Some(image) => image
      case None => CardDefaultImage
  }

  /** `k` cannot occur in `s` when one of its characters never does. */
  lemma AbsentCharacter(s: string, k: string, j: nat)
    requires j < |k| && forall i | 0 <= i < |s| :: s[i] != k[j]
    ensures !Contains(s, k)
  {
    forall i | 0 <= i <= |s| - |k|
      ensures !OccursAt(s, k, i)
    {
      assert s[i..i + |k|][j] == s[i + j];
    }
  }

  /**
   * A course named "Фитнес для всех" gets the default yoga picture on its card but the fitness
   * picture on the home page, which looks for keys inside the name.
   */
  lemma CardAndPageDisagree(course: Course)
    requires course.nameRU == "Фитнес для всех" && course.nameEN == "Fitness for all"
    ensures CardImage(course.nameRU, course.nameEN) == CardDefaultImage
    ensures CourseStyle.CourseImage(course) == "/img/fitness.png"
  {
    LowerFitnessName(course.nameRU);
    NoCardKey(ToLower(course.nameRU));
    NoCardKey(ToLower(course.nameEN));
    FitnessKeyFirst(ToLower(course.nameRU));
  }

  lemma LowerFitnessName(name: string)
    requires name == "Фитнес для всех"
    ensures ToLower(name) == "фитнес для всех"
  {
    var lower := ToLower(name);
    assert forall i | 0 <= i < 15 :: lower[i] == LowerChar(name[i]);
  }

  /** No key is 15 characters long. */
  lemma NoCardKey(lower: string)
    requires |lower| == 15
    ensures Lookup(CourseStyle.ImageTable, lower).None?
  {
  }

  lemma FitnessKeyFirst(lower: string)
    requires lower == "фитнес для всех"
    ensures CourseStyle.FirstMatchIndex(CourseStyle.ImageTable, lower) == 4
  {
    AbsentCharacter(lower, "йога", 0);
    AbsentCharacter(lower, "yoga", 0);
    AbsentCharacter(lower, "стретчинг", 2);
    AbsentCharacter(lower, "stretching", 0);
    assert OccursAt(lower, "фитнес", 0);
    var t := CourseStyle.ImageTable;
    assert CourseStyle.FirstMatchIndex(t[4..], lower) == 0;
    assert CourseStyle.FirstMatchIndex(t[3..], lower) == 1 by { assert t[3..][1..] == t[4..]; }
    assert CourseStyle.FirstMatchIndex(t[2..], lower) == 2 by { assert t[2..][1..] == t[3..]; }
    assert CourseStyle.FirstMatchIndex(t[1..], lower) == 3 by { assert t[1..][1..] == t[2..]; }
  }

  /** The duration line: any non-zero count in days, always with the plural "дней". */
  function CardDuration(days: Option<int>): (r: string)
    ensures days.None? || days == Some(0) <==> r == ""
    ensures days.Some? && days.value != 0 ==> r == IntToString(days.value) + " дней"
  {
    if days.None? || days.value == 0 then "" else IntToString(days.value) + " дней"
  }

  /** The card and the home page write the same duration differently. */
  lemma CardDurationDiffers()
    ensures CardDuration(Some(1)) == "1 дней" && HomePage.FormatDuration(Some(1)) == "1 день"
    ensures CardDuration(None) == "" && HomePage.FormatDuration(None) == "25 дней"
  {
    assert NatToString(1) == "1";
  }

  /** The minutes line: empty without a range. */
  function CardTime(range: Option<MinutesRange>): (r: string)
    ensures range.None? <==> r == ""
  {
    if range.None? then "" else IntToString(range.value.from) + "-" + IntToString(range.value.to) + " мин/день"
  }

  /** Given a range, the card and the home page print the same minutes line. */
  lemma CardTimeMatchesPage(range: MinutesRange)
    ensures CardTime(Some(range)) == HomePage.FormatTime(Some(range))
    ensures CardTime(None) != HomePage.FormatTime(None)
  {
  }

  /** `course.difficulty || ''` */
  function CardDifficulty(difficulty: Option<string>): (r: string)
    ensures difficulty.None? ==> r == ""
    ensures difficulty.Some? ==> r == difficulty.value
  {
    if difficulty.None? then "" else difficulty.value
  }

  /** The difficulty tag is drawn exactly for a present, non-empty difficulty. */
  lemma DifficultyTagShown(course: Course)
    ensures CardDifficulty(course.difficulty) != "" <==> course.difficulty.Some? && course.difficulty.value != ""
  {
  }
}
