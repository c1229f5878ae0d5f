/** The college listing page: its page-local record, the `filteredColleges` chain and its course badges. */
module CollegesPage {
  import opened Text
  import opened Seqs
  import opened Wrappers
  import Badges

  /** The page-local College record (not the one of the data layer); fees and packages are display strings here. */
  datatype College = College(
    id: string, name: string, location: string, state: string, rating: real, reviews: int,
    collegeType: string, avgPackage: string, highestPackage: string, placementRate: int,
    courses: seq<string>, fees: string, established: int, image: string, featured: bool)

  datatype Criteria = Criteria(
    searchTerm: string, selectedState: string, selectedType: string, selectedCourse: string)

  const NoCriteria := Criteria("", "", "", "")

  /** Case-insensitive substring search over name and location; the state is not searched. */
  predicate MatchesSearch(college: College, term: string) {
    Contains(Lower(college.name), Lower(term)) || Contains(Lower(college.location), Lower(term))
  }

  predicate MatchesState(college: College, selected: string) {
    selected == "" || college.state == selected
  }

  predicate MatchesType(college: College, selected: string) {
    selected == "" || college.collegeType == selected
  }

  /** `courses.includes(selectedCourse)`: some course is exactly the chosen one. */
  predicate MatchesCourse(college: College, selected: string) {
    selected == "" || selected in college.courses
  }

  predicate Matches(college: College, c: Criteria) {
    MatchesSearch(college, c.searchTerm) && MatchesState(college, c.selectedState)
    && MatchesType(college, c.selectedType) && MatchesCourse(college, c.selectedCourse)
  }

  /** `filteredColleges` */
  function FilteredColleges(colleges: seq<College>, c: Criteria): seq<College> {
    Filter(college => Matches(college, c), colleges)
  }

  /** The result is the order-preserving subsequence of exactly the colleges passing all four tests. */
  lemma FilteredCollegesSpec(colleges: seq<College>, c: Criteria)
    ensures IsSubsequence(FilteredColleges(colleges, c), colleges)
    ensures |FilteredColleges(colleges, c)| <= |colleges|
    ensures forall x :: x in FilteredColleges(colleges, c) <==> x in colleges && Matches(x, c)
    ensures forall x :: multiset(FilteredColleges(colleges, c))[x] == if Matches(x, c) then multiset(colleges)[x] else 0
  {
    FilterIsSubsequence(college => Matches(college, c), colleges);
    FilterMembers(college => Matches(college, c), colleges);
    FilterCount(college => Matches(college, c), colleges);
  }

  lemma FilteredCollegesIdempotent(colleges: seq<College>, c: Criteria)
    ensures FilteredColleges(FilteredColleges(colleges, c), c) == FilteredColleges(colleges, c)
  {
    FilterIdempotent(college => Matches(college, c), colleges);
  }

  /** With every criterion empty, the result is the input. */
  lemma NoCriteriaKeepsAll(colleges: seq<College>)
    ensures FilteredColleges(colleges, NoCriteria) == colleges
  {
    forall i | 0 <= i < |colleges| ensures Matches(colleges[i], NoCriteria) {
      ContainsEmpty(Lower(colleges[i].name));
    }
    FilterKeepsAll(college => Matches(college, NoCriteria), colleges);
  }

  /**
   * Search ignores case and looks at name and location only: a college matches exactly
   * when the lower-cased term occurs in one of those two, whatever its state.
   */
  lemma SearchIsCaseInsensitive(college: College, term: string, anyState: string)
    ensures MatchesSearch(college, term) <==>
      (exists i: nat :: OccursAt(Lower(college.name), Lower(term), i))
      || (exists i: nat :: OccursAt(Lower(college.location), Lower(term), i))
    ensures MatchesSearch(college, term) == MatchesSearch(college, Lower(term))
    ensures MatchesSearch(college.(state := anyState), term) == MatchesSearch(college, term)
  {
    ContainsIff(Lower(college.name), Lower(term));
    ContainsIff(Lower(college.location), Lower(term));
    LowerIdempotent(term);
  }

  /**
   * State on the page result: with none chosen the result is what the other three tests
   * keep; with one chosen, every college shown is in exactly that state.
   */
  lemma StateSelection(colleges: seq<College>, c: Criteria)
    ensures c.selectedState == "" ==>
      FilteredColleges(colleges, c) == Filter(x => MatchesSearch(x, c.searchTerm) && MatchesType(x, c.selectedType)
                                                   && MatchesCourse(x, c.selectedCourse), colleges)
    ensures c.selectedState != "" ==>
      forall x :: x in FilteredColleges(colleges, c) ==> x.state == c.selectedState
  {
    FilterMembers(college => Matches(college, c), colleges);
    if c.selectedState == "" {
      FilterExtensional(college => Matches(college, c),
                        x => MatchesSearch(x, c.searchTerm) && MatchesType(x, c.selectedType)
                             && MatchesCourse(x, c.selectedCourse), colleges);
    }
  }

  /**
   * Type on the page result: with none chosen the result is what the other three tests
   * keep; with one chosen, every college shown has exactly that type.
   */
  lemma TypeSelection(colleges: seq<College>, c: Criteria)
    ensures c.selectedType == "" ==>
      FilteredColleges(colleges, c) == Filter(x => MatchesSearch(x, c.searchTerm) && MatchesState(x, c.selectedState)
                                                   && MatchesCourse(x, c.selectedCourse), colleges)
    ensures c.selectedType != "" ==>
      forall x :: x in FilteredColleges(colleges, c) ==> x.collegeType == c.selectedType
  {
    FilterMembers(college => Matches(college, c), colleges);
    if c.selectedType == "" {
      FilterExtensional(college => Matches(college, c),
                        x => MatchesSearch(x, c.searchTerm) && MatchesState(x, c.selectedState)
                             && MatchesCourse(x, c.selectedCourse), colleges);
    }
  }

  /**
   * Course on the page result: with none chosen the result is what the other three tests
   * keep; with one chosen, every college shown lists exactly that course.
   */
  lemma CourseSelection(colleges: seq<College>, c: Criteria)
    ensures c.selectedCourse == "" ==>
      FilteredColleges(colleges, c) == Filter(x => MatchesSearch(x, c.searchTerm) && MatchesState(x, c.selectedState)
                                                   && MatchesType(x, c.selectedType), colleges)
    ensures c.selectedCourse != "" ==>
      forall x :: x in FilteredColleges(colleges, c) ==> c.selectedCourse in x.courses
  {
    FilterMembers(college => Matches(college, c), colleges);
    if c.selectedCourse == "" {
      FilterExtensional(college => Matches(college, c),
                        x => MatchesSearch(x, c.searchTerm) && MatchesState(x, c.selectedState)
                             && MatchesType(x, c.selectedType), colleges);
    }
  }

  /** Choosing a course, with everything else fixed, can only drop colleges from the result. */
  lemma ChoosingCourseNarrows(colleges: seq<College>, c: Criteria, course: string)
    ensures IsSubsequence(FilteredColleges(colleges, c.(selectedCourse := course)),
                          FilteredColleges(colleges, c.(selectedCourse := "")))
  {
    var narrow := c.(selectedCourse := course);
    var wide := c.(selectedCourse := "");
    FilterNarrowing(college => Matches(college, narrow), college => Matches(college, wide), colleges);
  }

  /** The listing shows at most four course badges, then "+N more". */
  function CourseBadges(college: College): (r: Badges.BadgeRow<string>)
    ensures r.shown == college.courses[..Badges.Min(4, |college.courses|)]
    ensures r.more.Some? <==> |college.courses| > 4
    ensures r.more.Some? ==> r.more.value == |college.courses| - 4
  {
    Badges.Truncate(college.courses, 4)
  }
}
