/** The compact college card: at most two course badges, then "+N more". */
module CollegeCard {
  import opened Wrappers
  import Badges
  import Firebase

  function CourseBadges(college: Firebase.College): (r: Badges.BadgeRow<string>)
    ensures r.shown == college.courses[..Badges.Min(2, |college.courses|)]
    ensures r.more.Some? <==> |college.courses| > 2
    ensures r.more.Some? ==> r.more.value == |college.courses| - 2 && |r.shown| + r.more.value == |college.courses|
  {
    Badges.Truncate(college.courses, 2)
  }

  /** Four courses on a compact card: two badges and "+2 more". */
  lemma FourCoursesShowTwoMore(college: Firebase.College)
    requires |college.courses| == 4
    ensures CourseBadges(college) == Badges.BadgeRow(college.courses[..2], Some(2))
  {
  }
}
