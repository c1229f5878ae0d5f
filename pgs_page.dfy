/** The PG listing page: its page-local record and the `filteredPGs` predicate chain. */
module PGsPage {
  import opened Text
  import opened Seqs

  datatype Gender = Male | Female | CoEd

  /** The label the page compares `selectedGender` against. */
  function GenderLabel(g: Gender): string {
    match g
    case Male => "Male"
    case Female => "Female"
    case CoEd => "Co-ed"
  }

  datatype Owner = Owner(name: string, phone: string)

  /** The page-local PG record (not the one of the data layer). */
  datatype PG = PG(
    id: string, name: string, location: string, nearbyCollege: string, distance: string,
    rating: real, reviews: int, gender: Gender, rent: int, deposit: int,
    amenities: seq<string>, roomType: string, verified: bool, owner: Owner,
    images: seq<string>, available: bool)

  /** The four pieces of page state the filter reads; "" means "not chosen". */
  datatype Criteria = Criteria(
    searchTerm: string, selectedGender: string, selectedBudget: string, selectedRoomType: string)

  const NoCriteria := Criteria("", "", "", "")

  const Under10k := "Under \U{20B9}10k"
  const From10kTo15k := "\U{20B9}10k - \U{20B9}15k"
  const From15kTo20k := "\U{20B9}15k - \U{20B9}20k"
  const Above20k := "Above \U{20B9}20k"

  /** Case-insensitive substring search over name, location and nearby college. */
  predicate MatchesSearch(pg: PG, term: string) {
    Contains(Lower(pg.name), Lower(term))
    || Contains(Lower(pg.location), Lower(term))
    || Contains(Lower(pg.nearbyCollege), Lower(term))
  }

  predicate MatchesGender(pg: PG, selected: string) {
    selected == "" || GenderLabel(pg.gender) == selected
  }

  predicate MatchesRoomType(pg: PG, selected: string) {
    selected == "" || pg.roomType == selected
  }

  /** The `switch` over the budget label; a label matching no case leaves the budget test passing. */
  predicate MatchesBudget(rent: int, budget: string) {
    if budget == "" then true
    else if budget == Under10k then rent < 10000
    else if budget == From10kTo15k then 10000 <= rent <= 15000
    else if budget == From15kTo20k then 15000 <= rent <= 20000
    else if budget == Above20k then rent > 20000
    else true
  }

  predicate Matches(pg: PG, c: Criteria) {
    MatchesSearch(pg, c.searchTerm) && MatchesGender(pg, c.selectedGender)
    && MatchesBudget(pg.rent, c.selectedBudget) && MatchesRoomType(pg, c.selectedRoomType)
  }

  /** `filteredPGs` */
  function FilteredPGs(pgs: seq<PG>, c: Criteria): seq<PG> {
    Filter(pg => Matches(pg, c), pgs)
  }

  /**
   * The result is the order-preserving subsequence of `pgs` made of exactly the
   * PGs that pass all four tests; so "Showing n of m" has n <= m.
   */
  lemma FilteredPGsSpec(pgs: seq<PG>, c: Criteria)
    ensures IsSubsequence(FilteredPGs(pgs, c), pgs)
    ensures |FilteredPGs(pgs, c)| <= |pgs|
    ensures forall pg :: pg in FilteredPGs(pgs, c) <==> pg in pgs && Matches(pg, c)
    ensures forall pg :: multiset(FilteredPGs(pgs, c))[pg] == if Matches(pg, c) then multiset(pgs)[pg] else 0
  {
    FilterIsSubsequence(pg => Matches(pg, c), pgs);
    FilterMembers(pg => Matches(pg, c), pgs);
    FilterCount(pg => Matches(pg, c), pgs);
  }

  /** Re-applying the same criteria to the result changes nothing. */
  lemma FilteredPGsIdempotent(pgs: seq<PG>, c: Criteria)
    ensures FilteredPGs(FilteredPGs(pgs, c), c) == FilteredPGs(pgs, c)
  {
    FilterIdempotent(pg => Matches(pg, c), pgs);
  }

  /** The result equals the input exactly when every PG passes. */
  lemma FilteredPGsKeepsAllIff(pgs: seq<PG>, c: Criteria)
    ensures FilteredPGs(pgs, c) == pgs <==> forall i :: 0 <= i < |pgs| ==> Matches(pgs[i], c)
  {
    FilterKeepsAll(pg => Matches(pg, c), pgs);
  }

  /** An empty search term matches every PG. */
  lemma EmptySearchMatchesAll(pg: PG)
    ensures MatchesSearch(pg, "")
  {
    ContainsEmpty(Lower(pg.name));
  }

  /** With nothing chosen, the page shows every PG, in order. */
  lemma NoCriteriaKeepsAll(pgs: seq<PG>)
    ensures FilteredPGs(pgs, NoCriteria) == pgs
  {
    forall i | 0 <= i < |pgs| ensures Matches(pgs[i], NoCriteria) {
      EmptySearchMatchesAll(pgs[i]);
    }
    FilteredPGsKeepsAllIff(pgs, NoCriteria);
  }

  /**
   * Search ignores case: a PG matches exactly when the lower-cased term occurs in the
   * lower-cased name, location or nearby college, and the term's own case is irrelevant.
   */
  lemma SearchIsCaseInsensitive(pg: PG, term: string)
    ensures MatchesSearch(pg, term) <==>
      (exists i: nat :: OccursAt(Lower(pg.name), Lower(term), i))
      || (exists i: nat :: OccursAt(Lower(pg.location), Lower(term), i))
      || (exists i: nat :: OccursAt(Lower(pg.nearbyCollege), Lower(term), i))
    ensures MatchesSearch(pg, term) == MatchesSearch(pg, Lower(term))
  {
    ContainsIff(Lower(pg.name), Lower(term));
    ContainsIff(Lower(pg.location), Lower(term));
    ContainsIff(Lower(pg.nearbyCollege), Lower(term));
    LowerIdempotent(term);
  }

  /**
   * Gender on the page result: with no gender chosen the result is what the other three
   * tests keep; with one chosen, every PG shown has exactly that gender label.
   */
  lemma GenderSelection(pgs: seq<PG>, c: Criteria)
    ensures c.selectedGender == "" ==>
      FilteredPGs(pgs, c) == Filter(pg => MatchesSearch(pg, c.searchTerm) && MatchesBudget(pg.rent, c.selectedBudget)
                                          && MatchesRoomType(pg, c.selectedRoomType), pgs)
    ensures c.selectedGender != "" ==>
      forall pg :: pg in FilteredPGs(pgs, c) ==> GenderLabel(pg.gender) == c.selectedGender
  {
    FilterMembers(pg => Matches(pg, c), pgs);
    if c.selectedGender == "" {
      FilterExtensional(pg => Matches(pg, c),
                        pg => MatchesSearch(pg, c.searchTerm) && MatchesBudget(pg.rent, c.selectedBudget)
                              && MatchesRoomType(pg, c.selectedRoomType), pgs);
    }
  }

  /**
   * Room type on the page result: with none chosen the result is what the other three
   * tests keep; with one chosen, every PG shown has exactly that room type.
   */
  lemma RoomTypeSelection(pgs: seq<PG>, c: Criteria)
    ensures c.selectedRoomType == "" ==>
      FilteredPGs(pgs, c) == Filter(pg => MatchesSearch(pg, c.searchTerm) && MatchesGender(pg, c.selectedGender)
                                          && MatchesBudget(pg.rent, c.selectedBudget), pgs)
    ensures c.selectedRoomType != "" ==>
      forall pg :: pg in FilteredPGs(pgs, c) ==> pg.roomType == c.selectedRoomType
  {
    FilterMembers(pg => Matches(pg, c), pgs);
    if c.selectedRoomType == "" {
      FilterExtensional(pg => Matches(pg, c),
                        pg => MatchesSearch(pg, c.searchTerm) && MatchesGender(pg, c.selectedGender)
                              && MatchesBudget(pg.rent, c.selectedBudget), pgs);
    }
  }

  /** A non-empty gender choice that names none of the three genders leaves no PG at all. */
  lemma UnknownGenderMatchesNothing(pgs: seq<PG>, c: Criteria)
    requires c.selectedGender != "" && c.selectedGender !in {"Male", "Female", "Co-ed"}
    ensures FilteredPGs(pgs, c) == []
  {
    FilterEmptyIff(pg => Matches(pg, c), pgs);
  }

  /**
   * Bucket boundaries: "Under" and "Above" are strict, so 10000 and 20000 fall in
   * neither; the two middle buckets are inclusive on both ends, so they share 15000.
   */
  lemma BudgetBoundaries()
    ensures !MatchesBudget(10000, Under10k) && MatchesBudget(10000, From10kTo15k)
    ensures !MatchesBudget(20000, Above20k) && MatchesBudget(20000, From15kTo20k)
    ensures MatchesBudget(15000, From10kTo15k) && MatchesBudget(15000, From15kTo20k)
    ensures MatchesBudget(12000, From10kTo15k) && !MatchesBudget(12000, Under10k)
  {
    BudgetLabelsDistinct();
  }

  /** Every rent falls in some bucket, and two buckets overlap only at a rent of exactly 15000. */
  lemma BudgetBucketsCoverAndOverlap(rent: int)
    ensures MatchesBudget(rent, Under10k) || MatchesBudget(rent, From10kTo15k)
         || MatchesBudget(rent, From15kTo20k) || MatchesBudget(rent, Above20k)
    ensures MatchesBudget(rent, From10kTo15k) && MatchesBudget(rent, From15kTo20k) <==> rent == 15000
    ensures !(MatchesBudget(rent, Under10k) && MatchesBudget(rent, From10kTo15k))
    ensures !(MatchesBudget(rent, From15kTo20k) && MatchesBudget(rent, Above20k))
    ensures !(MatchesBudget(rent, Under10k) && MatchesBudget(rent, From15kTo20k))
    ensures !(MatchesBudget(rent, Under10k) && MatchesBudget(rent, Above20k))
    ensures !(MatchesBudget(rent, From10kTo15k) && MatchesBudget(rent, Above20k))
  {
    BudgetLabelsDistinct();
  }

  /** An empty budget, or a label that matches no case, lets every rent through. */
  lemma UnknownBudgetIsWildcard(rent: int, budget: string)
    requires budget !in {Under10k, From10kTo15k, From15kTo20k, Above20k}
    ensures MatchesBudget(rent, budget)
  {
  }

  lemma BudgetLabelsDistinct()
    ensures Under10k != From10kTo15k && Under10k != From15kTo20k && Under10k != Above20k
    ensures From10kTo15k != From15kTo20k && From10kTo15k != Above20k && From15kTo20k != Above20k
    ensures Under10k != "" && From10kTo15k != "" && From15kTo20k != "" && Above20k != ""
  {
    assert Under10k[0] != From10kTo15k[0] && Under10k[0] != Above20k[0];
    assert From10kTo15k[2] != From15kTo20k[2];
    assert From10kTo15k[0] != Above20k[0] && From15kTo20k[0] != Above20k[0];
  }

  /** Choosing a gender, with everything else fixed, can only drop PGs from the result. */
  lemma ChoosingGenderNarrows(pgs: seq<PG>, c: Criteria, gender: string)
    ensures IsSubsequence(FilteredPGs(pgs, c.(selectedGender := gender)),
                          FilteredPGs(pgs, c.(selectedGender := "")))
  {
    var narrow := c.(selectedGender := gender);
    var wide := c.(selectedGender := "");
    FilterNarrowing(pg => Matches(pg, narrow), pg => Matches(pg, wide), pgs);
  }
}
