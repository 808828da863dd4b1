/**
 * `VectorKnowledgeBase`: despite its name, a substring search over the
 * loaded dictionary. Cuisines, restaurants, food types and dietary options
 * match when the lower-cased query occurs in one of their category names;
 * categories match when the query occurs in their own name. Up to ten lines
 * are shown, followed by fixed filter guidance.
 */
module VectorKnowledge {
  import opened Wrappers
  import opened Text
  import opened Knowledge

  /** `any(query_lower in cat.lower() for cat in categories)`. */
  predicate InSomeCategory(ql: string, categories: seq<string>) {
    exists i :: 0 <= i < |categories| && Contains(Lower(categories[i]), ql)
  }

  function CuisineOffers(name: string, r: Record): string {
    "Cuisine '" + name + "' offers: " + Join(r.categories, ", ")
  }

  function CategoryDetails(name: string, r: Record): string {
    "Category '" + name + "' (cuisine: " + r.cuisine.GetOr("Unknown") + ", types: " + Join(r.foodTypes, ", ")
    + ", times: " + Join(r.serveTimes, ", ") + ")"
  }

  function RestaurantOffers(name: string, r: Record): string {
    "Restaurant '" + name + "' (" + r.cuisine.GetOr("Unknown") + ") at " + r.location.GetOr("Unknown")
    + " offers: " + Join(r.categories, ", ")
  }

  function FoodTypeIncludes(name: string, r: Record): string {
    "Food type '" + name + "' includes " + CountOr(r.count, "0") + " items in categories: " + Join(r.categories, ", ")
  }

  function DietaryAvailable(name: string, r: Record): string {
    "Dietary option '" + name + "': " + r.description.GetOr("") + ". Available in: " + Join(r.categories, ", ")
  }

  /**
   * A section whose categories are read before the test: every entry is
   * read, so an entry that is not an object raises whether or not it would
   * have matched.
   */
  function ByCategoryOut(section: string, ql: string, line: (string, Record) -> string): Out {
    (e: (string, Entry)) =>
      match e.1
      case NotObject => Failure(NotAnObject(section, e.0))
      case Object(rec) => if InSomeCategory(ql, rec.categories) then Success(Some(line(e.0, rec))) else Success(None)
  }

  /** The categories section: the name is tested first, and only a matching entry is read. */
  function ByNameOut(ql: string): Out {
    (e: (string, Entry)) =>
      if Contains(Lower(e.0), ql) then
        match e.1
        case NotObject => Failure(NotAnObject("categories", e.0))
        case Object(rec) => Success(Some(CategoryDetails(e.0, rec)))
      else Success(None)
  }

  /** The five scans in the order the source runs them, or the first exception. */
  function RelevantInfo(k: Knowledge, ql: string): Result<seq<string>, Fault> {
    AndThen(AndThen(AndThen(AndThen(
      Collect(k.cuisineTypes, ByCategoryOut("cuisine_types", ql, CuisineOffers)),
      Collect(k.categories, ByNameOut(ql))),
      Collect(k.restaurants, ByCategoryOut("restaurants", ql, RestaurantOffers))),
      Collect(k.foodTypes, ByCategoryOut("food_types", ql, FoodTypeIncludes))),
      Collect(k.dietaryOptions, ByCategoryOut("dietary_options", ql, DietaryAvailable)))
  }

  function FoundHeader(query: string): string {
    "Knowledge base search for '" + query + "' found:\n\n"
  }

  const Guidance: string :=
    "\n\nBased on this information, you can use appropriate filters like:"
    + "\n- Category filter: {'category': {'$eq': 'CategoryName'}}"
    + "\n- Cuisine filter: {'cuisine_type': {'$eq': 'CuisineType'}}"
    + "\n- Food type filter: {'food_type': {'$eq': 'FoodType'}}"

  function NoInfo(query: string): string {
    "No specific information found for '" + query
    + "' in the knowledge base. Try searching with broader terms or different keywords."
  }

  /** What `query_knowledge_base(query)` returns. */
  function Answer(k: Knowledge, query: string): ToolOutput {
    match RelevantInfo(k, Lower(query))
    case Failure(f) => ErrorText("Error querying knowledge base", f)
    case Success(lines) =>
      if lines != [] then Text(FoundHeader(query) + Join(Take(lines, 10), "\n") + Guidance)
      else Text(NoInfo(query))
  }

  const CuisinesQuestion := "What cuisine types are available?"
  const CategoriesQuestion := "What food categories are available?"
  const RestaurantsQuestion := "What restaurants are available?"
  const DietaryQuestion := "What dietary options are available?"

  class VectorKnowledgeBase {
    var knowledgeData: Knowledge

    constructor(knowledgeData: Knowledge)
      ensures this.knowledgeData == knowledgeData
    {
      this.knowledgeData := knowledgeData;
    }

    /** `query_knowledge_base(query, max_results)`: `max_results` is accepted and not used. */
    method QueryKnowledgeBase(query: string, maxResults: int) returns (r: ToolOutput)
      ensures r == Answer(knowledgeData, query)
    {
      var ql := Lower(query);
      var info := CollectLines(knowledgeData.cuisineTypes, ByCategoryOut("cuisine_types", ql, CuisineOffers));
      info := ScanAfter(info, knowledgeData.categories, ByNameOut(ql));
      info := ScanAfter(info, knowledgeData.restaurants, ByCategoryOut("restaurants", ql, RestaurantOffers));
      info := ScanAfter(info, knowledgeData.foodTypes, ByCategoryOut("food_types", ql, FoodTypeIncludes));
      info := ScanAfter(info, knowledgeData.dietaryOptions, ByCategoryOut("dietary_options", ql, DietaryAvailable));
      if info.Failure? {
        return ErrorText("Error querying knowledge base", info.error);
      }
      if info.value != [] {
        var response := FoundHeader(query);
        response := response + Join(Take(info.value, 10), "\n");
        response := response + Guidance;
        return Text(response);
      }
      return Text(NoInfo(query));
    }

    /** The four listing tools ask fixed questions, with the default `max_results`. */
    method GetAvailableCuisines() returns (r: ToolOutput)
      ensures r == Answer(knowledgeData, CuisinesQuestion)
    {
      r := QueryKnowledgeBase(CuisinesQuestion, 5);
    }

    method GetAvailableCategories() returns (r: ToolOutput)
      ensures r == Answer(knowledgeData, CategoriesQuestion)
    {
      r := QueryKnowledgeBase(CategoriesQuestion, 5);
    }

    method GetAvailableRestaurants() returns (r: ToolOutput)
      ensures r == Answer(knowledgeData, RestaurantsQuestion)
    {
      r := QueryKnowledgeBase(RestaurantsQuestion, 5);
    }

    method GetDietaryOptions() returns (r: ToolOutput)
      ensures r == Answer(knowledgeData, DietaryQuestion)
    {
      r := QueryKnowledgeBase(DietaryQuestion, 5);
    }
  }

  // ---------------------------------------------------------------------
  // What the search promises.

  /**
   * A found answer shows the first ten relevant lines (all of them when
   * there are fewer), in scan order, after the header and before the guidance.
   */
  lemma AtMostTenLines(k: Knowledge, query: string)
    requires Answer(k, query).Text? && Answer(k, query).text != NoInfo(query)
    ensures RelevantInfo(k, Lower(query)).Success?
    ensures var lines := RelevantInfo(k, Lower(query)).value;
      var shown := Take(lines, 10);
      && lines != [] && shown <= lines && |shown| == (if |lines| < 10 then |lines| else 10)
      && Answer(k, query).text == FoundHeader(query) + Join(shown, "\n") + Guidance
  {
  }

  /** No line from a section: none of its entries' categories (or, for categories, names) contain the query. */
  predicate NothingRelevant(k: Knowledge, ql: string) {
    && (forall i | 0 <= i < |k.cuisineTypes| :: k.cuisineTypes[i].1.Object? && !InSomeCategory(ql, k.cuisineTypes[i].1.record.categories))
    && (forall i | 0 <= i < |k.categories| :: !Contains(Lower(k.categories[i].0), ql))
    && (forall i | 0 <= i < |k.restaurants| :: k.restaurants[i].1.Object? && !InSomeCategory(ql, k.restaurants[i].1.record.categories))
    && (forall i | 0 <= i < |k.foodTypes| :: k.foodTypes[i].1.Object? && !InSomeCategory(ql, k.foodTypes[i].1.record.categories))
    && (forall i | 0 <= i < |k.dietaryOptions| :: k.dietaryOptions[i].1.Object? && !InSomeCategory(ql, k.dietaryOptions[i].1.record.categories))
  }

  lemma ByCategoryNothing(s: seq<(string, Entry)>, section: string, ql: string, line: (string, Record) -> string)
    ensures Collect(s, ByCategoryOut(section, ql, line)) == Success([]) <==>
      forall i | 0 <= i < |s| :: s[i].1.Object? && !InSomeCategory(ql, s[i].1.record.categories)
  {
  }

  lemma ByNameNothing(s: seq<(string, Entry)>, ql: string)
    ensures Collect(s, ByNameOut(ql)) == Success([]) <==> forall i | 0 <= i < |s| :: !Contains(Lower(s[i].0), ql)
  {
  }

  /** The scans yield no line, and raise nothing, exactly when nothing is relevant. */
  lemma {:induction false} NoLinesExactlyWhenNothingRelevant(k: Knowledge, ql: string)
    ensures RelevantInfo(k, ql) == Success([]) <==> NothingRelevant(k, ql)
  {
    var c := Collect(k.cuisineTypes, ByCategoryOut("cuisine_types", ql, CuisineOffers));
    var g := Collect(k.categories, ByNameOut(ql));
    var r := Collect(k.restaurants, ByCategoryOut("restaurants", ql, RestaurantOffers));
    var f := Collect(k.foodTypes, ByCategoryOut("food_types", ql, FoodTypeIncludes));
    var d := Collect(k.dietaryOptions, ByCategoryOut("dietary_options", ql, DietaryAvailable));
    ByCategoryNothing(k.cuisineTypes, "cuisine_types", ql, CuisineOffers);
    ByNameNothing(k.categories, ql);
    ByCategoryNothing(k.restaurants, "restaurants", ql, RestaurantOffers);
    ByCategoryNothing(k.foodTypes, "food_types", ql, FoodTypeIncludes);
    ByCategoryNothing(k.dietaryOptions, "dietary_options", ql, DietaryAvailable);
    AndThenEmpty(c, g);
    AndThenEmpty(AndThen(c, g), r);
    AndThenEmpty(AndThen(AndThen(c, g), r), f);
    AndThenEmpty(AndThen(AndThen(AndThen(c, g), r), f), d);
  }

  /** The "nothing found" text is returned exactly when no entry is relevant and none raises. */
  lemma NoInfoExactlyWhenNothingRelevant(k: Knowledge, query: string)
    ensures Answer(k, query) == Text(NoInfo(query)) <==> NothingRelevant(k, Lower(query))
  {
    NoLinesExactlyWhenNothingRelevant(k, Lower(query));
    var info := RelevantInfo(k, Lower(query));
    if info.Success? && info.value != [] {
      // A found answer starts with the header, which the "nothing found" text does not.
      var t := FoundHeader(query) + Join(Take(info.value, 10), "\n") + Guidance;
      assert t[0] == 'K';
      assert NoInfo(query)[0] == 'N';
    }
  }

  /** A name-only test: an entry that is not an object raises only when the query occurs in its name. */
  lemma CategoriesReadOnlyWhenNamed(s: seq<(string, Entry)>, ql: string, i: nat)
    requires i < |s| && s[i].1.NotObject?
    ensures ByNameOut(ql)(s[i]).Failure? <==> Contains(Lower(s[i].0), ql)
  {
  }

  /** The other sections read every entry: one that is not an object raises whatever the query. */
  lemma OtherSectionsReadEveryEntry(s: seq<(string, Entry)>, section: string, ql: string, line: (string, Record) -> string, i: nat)
    requires i < |s| && s[i].1.NotObject?
    ensures Collect(s, ByCategoryOut(section, ql, line)).Failure?
  {
  }

  /** An empty query occurs in every name: every category is listed, in order. */
  lemma EmptyQueryListsEveryCategory(k: Knowledge)
    requires AllObjects(k.categories)
    ensures Collect(k.categories, ByNameOut("")) == Success(EveryBlock(k.categories, CategoryDetails))
  {
    var out := ByNameOut("");
    forall i | 0 <= i < |k.categories|
      ensures out(k.categories[i]) == Success(Some(CategoryDetails(k.categories[i].0, k.categories[i].1.record)))
    {
      assert Contains(Lower(k.categories[i].0), "");
    }
    CollectEvery(k.categories, out);
    assert Collect(k.categories, out).value == EveryBlock(k.categories, CategoryDetails);
  }

  /** With an empty query an entry read by its categories matches exactly when it has at least one category. */
  lemma EmptyQueryMatchesCategorisedEntries(s: seq<(string, Entry)>, section: string, line: (string, Record) -> string)
    requires AllObjects(s)
    ensures forall i | 0 <= i < |s| ::
      ByCategoryOut(section, "", line)(s[i])
        == (if s[i].1.record.categories != [] then Success(Some(line(s[i].0, s[i].1.record))) else Success(None))
  {
    forall i | 0 <= i < |s|
      ensures ByCategoryOut(section, "", line)(s[i])
        == (if s[i].1.record.categories != [] then Success(Some(line(s[i].0, s[i].1.record))) else Success(None))
    {
      var cats := s[i].1.record.categories;
      assert s[i].1.Object?;
      if cats != [] {
        assert Contains(Lower(cats[0]), "");
        assert InSomeCategory("", cats);
      } else {
        assert !InSomeCategory("", cats);
      }
    }
  }

  /** Every category name, and every name in an entry's category list, is shorter than `n`. */
  predicate NamesShorterThan(k: Knowledge, n: nat) {
    && AllObjects(k.cuisineTypes) && AllObjects(k.restaurants) && AllObjects(k.foodTypes) && AllObjects(k.dietaryOptions)
    && (forall i | 0 <= i < |k.categories| :: |k.categories[i].0| < n)
    && (forall i | 0 <= i < |k.cuisineTypes| :: forall j | 0 <= j < |k.cuisineTypes[i].1.record.categories| :: |k.cuisineTypes[i].1.record.categories[j]| < n)
    && (forall i | 0 <= i < |k.restaurants| :: forall j | 0 <= j < |k.restaurants[i].1.record.categories| :: |k.restaurants[i].1.record.categories[j]| < n)
    && (forall i | 0 <= i < |k.foodTypes| :: forall j | 0 <= j < |k.foodTypes[i].1.record.categories| :: |k.foodTypes[i].1.record.categories[j]| < n)
    && (forall i | 0 <= i < |k.dietaryOptions| :: forall j | 0 <= j < |k.dietaryOptions[i].1.record.categories| :: |k.dietaryOptions[i].1.record.categories[j]| < n)
  }

  /**
   * A query longer than every category name finds nothing. The four listing
   * tools ask whole questions, so over a dictionary of ordinary short names
   * they answer "No specific information found" instead of listing anything.
   */
  lemma LongQueryFindsNothing(k: Knowledge, query: string)
    requires NamesShorterThan(k, |query|)
    ensures Answer(k, query) == Text(NoInfo(query))
  {
    LongQueryNothingRelevant(k, Lower(query));
    NoInfoExactlyWhenNothingRelevant(k, query);
  }

  lemma LongQueryNothingRelevant(k: Knowledge, ql: string)
    requires NamesShorterThan(k, |ql|)
    ensures NothingRelevant(k, ql)
  {
  }

  /** The restaurants listing tool over names of at most 30 characters answers "nothing found". */
  lemma RestaurantsQuestionFindsNothing(k: Knowledge)
    requires NamesShorterThan(k, 31)
    ensures Answer(k, RestaurantsQuestion) == Text(NoInfo(RestaurantsQuestion))
  {
    assert |RestaurantsQuestion| == 31;
    LongQueryFindsNothing(k, RestaurantsQuestion);
  }
}
