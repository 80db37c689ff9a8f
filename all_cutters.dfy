/** The cutter directory page's filters: a free-text search over the names and
    the specialty, an exact expertise filter and an availability filter, applied
    one after the other to the fetched list, and the button that clears them. */
module AllCutters {
  import opened Wrappers
  import opened JsValues
  import opened Text
  import opened Seqs

  /** `CutterListItem`, with the fields the filters read. */
  datatype CutterItem = CutterItem(
    id: int,
    username: string,
    firstName: Option<string>,
    lastName: Option<string>,
    specialty: Option<string>,
    expertise: Option<string>,
    availableForCustomWork: bool)

  /** The three filter inputs: `searchTerm`, `expertiseFilter`, `availabilityFilter`. */
  datatype Filters = Filters(searchTerm: string, expertise: string, availability: Option<bool>)

  /** `field && field.toLowerCase().includes(term)`: a null or empty field never matches. */
  predicate FieldMatches(field: Option<string>, term: string) {
    TruthyOptString(field) && Includes(ToLower(field.value), term)
  }

  /** The search test for a lower-cased term. */
  predicate MatchesSearch(c: CutterItem, term: string) {
    Includes(ToLower(c.username), term) || FieldMatches(c.firstName, term)
    || FieldMatches(c.lastName, term) || FieldMatches(c.specialty, term)
  }

  function BySearch(term: string): CutterItem -> bool {
    (c: CutterItem) => MatchesSearch(c, term)
  }

  function ByExpertise(level: string): CutterItem -> bool {
    (c: CutterItem) => c.expertise == Some(level)
  }

  function ByAvailability(available: bool): CutterItem -> bool {
    (c: CutterItem) => c.availableForCustomWork == available
  }

  /** The filter effect: `results` narrowed by each active filter in turn. */
  function ApplyFilters(cutters: seq<CutterItem>, f: Filters): seq<CutterItem> {
    var afterSearch := if f.searchTerm != "" then Filter(cutters, BySearch(ToLower(f.searchTerm))) else cutters;
    var afterExpertise := if f.expertise != "" then Filter(afterSearch, ByExpertise(f.expertise)) else afterSearch;
    if f.availability.Some? then Filter(afterExpertise, ByAvailability(f.availability.value)) else afterExpertise
  }

  /** Each filter as a test that an inactive filter passes. */
  function SearchStage(f: Filters): CutterItem -> bool {
    (c: CutterItem) => f.searchTerm != "" ==> MatchesSearch(c, ToLower(f.searchTerm))
  }

  function ExpertiseStage(f: Filters): CutterItem -> bool {
    (c: CutterItem) => f.expertise != "" ==> c.expertise == Some(f.expertise)
  }

  function AvailabilityStage(f: Filters): CutterItem -> bool {
    (c: CutterItem) => f.availability.Some? ==> c.availableForCustomWork == f.availability.value
  }

  /** A cutter passes every active filter. */
  predicate Passes(c: CutterItem, f: Filters) {
    SearchStage(f)(c) && ExpertiseStage(f)(c) && AvailabilityStage(f)(c)
  }

  /** The chained filters keep, in their original order, exactly the cutters
      that pass every active filter. */
  lemma ApplyFiltersExact(cutters: seq<CutterItem>, f: Filters)
    ensures ApplyFilters(cutters, f) == Filter(cutters, (c: CutterItem) => Passes(c, f))
  {
    var afterSearch := if f.searchTerm != "" then Filter(cutters, BySearch(ToLower(f.searchTerm))) else cutters;
    assert afterSearch == Filter(cutters, SearchStage(f)) by {
      if f.searchTerm == "" {
        FilterAll(cutters, SearchStage(f));
      } else {
        FilterExt(cutters, BySearch(ToLower(f.searchTerm)), SearchStage(f));
      }
    }
    var afterExpertise := if f.expertise != "" then Filter(afterSearch, ByExpertise(f.expertise)) else afterSearch;
    assert afterExpertise == Filter(afterSearch, ExpertiseStage(f)) by {
      if f.expertise == "" {
        FilterAll(afterSearch, ExpertiseStage(f));
      } else {
        FilterExt(afterSearch, ByExpertise(f.expertise), ExpertiseStage(f));
      }
    }
    assert ApplyFilters(cutters, f) == Filter(afterExpertise, AvailabilityStage(f)) by {
      if f.availability.None? {
        FilterAll(afterExpertise, AvailabilityStage(f));
      } else {
        FilterExt(afterExpertise, ByAvailability(f.availability.value), AvailabilityStage(f));
      }
    }
    var searchAndExpertise := (c: CutterItem) => SearchStage(f)(c) && ExpertiseStage(f)(c);
    FilterFilter(cutters, SearchStage(f), ExpertiseStage(f), searchAndExpertise);
    FilterFilter(cutters, searchAndExpertise, AvailabilityStage(f), (c: CutterItem) => Passes(c, f));
  }

  /** The search matches exactly when the lower-cased term occurs in the
      lower-cased user name, or in a non-empty first name, last name or specialty. */
  lemma SearchMeaning(c: CutterItem, searchTerm: string)
    ensures MatchesSearch(c, ToLower(searchTerm))
        <==> OccursIn(ToLower(searchTerm), ToLower(c.username))
             || (TruthyOptString(c.firstName) && OccursIn(ToLower(searchTerm), ToLower(c.firstName.value)))
             || (TruthyOptString(c.lastName) && OccursIn(ToLower(searchTerm), ToLower(c.lastName.value)))
             || (TruthyOptString(c.specialty) && OccursIn(ToLower(searchTerm), ToLower(c.specialty.value)))
  {
  }

  /** `clearFilters`. */
  function ClearFilters(): Filters {
    Filters("", "", None)
  }

  /** With every filter cleared the page shows the whole fetched list. */
  lemma ClearedShowsAll(cutters: seq<CutterItem>)
    ensures ApplyFilters(cutters, ClearFilters()) == cutters
  {
  }
}
