/**
 * `DatabaseKnowledgeBase`: lookups by name, a first-match search for a
 * free-text food query, keyword-triggered filter suggestions, and the
 * category listing tool. None of these catch exceptions: `.get` on an entry
 * that is not an object raises out of the tool, modelled as a `Failure`.
 */
module DatabaseTool {
  import opened Wrappers
  import opened Text
  import opened Knowledge

  datatype SectionKind = CuisineTypes | Categories | Restaurants | DietaryOptions | FoodTypes | Locations

  function SectionOf(k: Knowledge, kind: SectionKind): Section {
    match kind
    case CuisineTypes => k.cuisineTypes
    case Categories => k.categories
    case Restaurants => k.restaurants
    case DietaryOptions => k.dietaryOptions
    case FoodTypes => k.foodTypes
    case Locations => k.locations
  }

  /** What a `get_*_info` getter returns: a whole section, or one entry of it. */
  datatype Info = WholeSection(entries: Section) | OneEntry(entry: Entry)

  /** The answer `search_food_info` picks; lists are already cut to what the text shows. */
  datatype FoodAnswer =
    | PizzaAnswer(pizza: PizzaInfo)
    | CuisineAnswer(name: string, categories: seq<string>, restaurants: seq<string>, count: Option<int>)
    | CategoryAnswer(name: string, cuisine: Option<string>, restaurants: seq<string>, foodTypes: seq<string>, count: Option<int>)
    | RestaurantAnswer(name: string, cuisine: Option<string>, location: Option<string>, specialties: seq<string>)
    | DietaryAnswer(name: string, description: Option<string>, categories: seq<string>, count: Option<int>)
    | CommonSearchAnswer(term: string, info: string)
    | NoMatch
  {
    /** The text the tool returns; it is never empty. */
    function Render(): (t: string)
      ensures |t| > 0
    {
      match this
      case PizzaAnswer(p) =>
        "Pizza Information: Category: " + Str(p.category) + ", Cuisine: " + Str(p.cuisine)
        + ", Restaurant: " + Str(p.restaurant) + ", Location: " + Str(p.location)
        + ", Count: " + Str(p.count) + ", Food Type: " + Str(p.foodType) + ", Serve Time: " + Str(p.serveTime)
      case CuisineAnswer(n, cats, rests, c) =>
        n + " Cuisine: Categories: " + Join(cats, ", ") + ", Restaurants: " + Join(rests, ", ")
        + ", Count: " + CountOr(c, "N/A")
      case CategoryAnswer(n, cuisine, rests, types, c) =>
        n + " Category: Cuisine: " + cuisine.GetOr("N/A") + ", Restaurants: " + Join(rests, ", ")
        + ", Food Types: " + Join(types, ", ") + ", Count: " + CountOr(c, "N/A")
      case RestaurantAnswer(n, cuisine, loc, specs) =>
        n + " Restaurant: Cuisine: " + cuisine.GetOr("N/A") + ", Location: " + loc.GetOr("N/A")
        + ", Specialties: " + Join(specs, ", ")
      case DietaryAnswer(n, desc, cats, c) =>
        n + " Dietary Option: Description: " + desc.GetOr("N/A") + ", Categories: " + Join(cats, ", ")
        + ", Count: " + CountOr(c, "N/A")
      case CommonSearchAnswer(term, info) =>
        Title(term) + " Search: " + info
      case NoMatch =>
        FallbackMessage
    }
  }

  const FallbackMessage: string :=
    "No specific information found for this query. Available categories include: Pizza, Pasta, Burgers, Sushi, "
    + "Beverages, Snacks, and more. Available cuisines include: Italian, American, British, Caf\U{C3}\U{A9}, "
    + "Chinese, Indian, International, Japanese, Mexican."

  /** The entry test of every `search_food_info` loop: the lower-cased name occurs in the lower-cased query. */
  function NamedIn(queryLower: string): ((string, Entry)) -> bool {
    (e: (string, Entry)) => NameIn(queryLower, e.0)
  }

  function TermIn(queryLower: string): ((string, string)) -> bool {
    (e: (string, string)) => NameIn(queryLower, e.0)
  }

  function CuisineAnswerOf(e: (string, Entry)): Result<FoodAnswer, Fault> {
    match e.1
    case NotObject => Failure(NotAnObject("cuisine_types", e.0))
    case Object(r) => Success(CuisineAnswer(e.0, Take(r.categories, 5), Take(r.restaurants, 3), r.count))
  }

  function CategoryAnswerOf(e: (string, Entry)): Result<FoodAnswer, Fault> {
    match e.1
    case NotObject => Failure(NotAnObject("categories", e.0))
    case Object(r) => Success(CategoryAnswer(e.0, r.cuisine, Take(r.restaurants, 3), r.foodTypes, r.count))
  }

  function RestaurantAnswerOf(e: (string, Entry)): Result<FoodAnswer, Fault> {
    match e.1
    case NotObject => Failure(NotAnObject("restaurants", e.0))
    case Object(r) => Success(RestaurantAnswer(e.0, r.cuisine, r.location, Take(r.specialties, 3)))
  }

  function DietaryAnswerOf(e: (string, Entry)): Result<FoodAnswer, Fault> {
    match e.1
    case NotObject => Failure(NotAnObject("dietary_options", e.0))
    case Object(r) => Success(DietaryAnswer(e.0, r.description, Take(r.categories, 5), r.count))
  }

  /** The pizza insight applies: the query mentions pizza and `pizza_info` is truthy. */
  predicate PizzaApplies(k: Knowledge, queryLower: string) {
    Contains(queryLower, "pizza") && k.pizzaInfo.Some?
  }

  /**
   * The answer `search_food_info` settles on: the pizza insight, else the
   * first matching cuisine, category, restaurant, dietary option and common
   * search, in that order, else the fallback.
   */
  function FoodInfo(k: Knowledge, query: string): Result<FoodAnswer, Fault> {
    var ql := Lower(query);
    if PizzaApplies(k, ql) then Success(PizzaAnswer(k.pizzaInfo.value))
    else match FirstWhere(k.cuisineTypes, NamedIn(ql))
    case Some(i) => CuisineAnswerOf(k.cuisineTypes[i])
    case None => match FirstWhere(k.categories, NamedIn(ql))
    case Some(i) => CategoryAnswerOf(k.categories[i])
    case None => match FirstWhere(k.restaurants, NamedIn(ql))
    case Some(i) => RestaurantAnswerOf(k.restaurants[i])
    case None => match FirstWhere(k.dietaryOptions, NamedIn(ql))
    case Some(i) => DietaryAnswerOf(k.dietaryOptions[i])
    case None => match FirstWhere(k.commonSearches, TermIn(ql))
    case Some(i) => Success(CommonSearchAnswer(k.commonSearches[i].0, k.commonSearches[i].1))
    case None => Success(NoMatch)
  }

  function RenderResult(r: Result<FoodAnswer, Fault>): Result<string, Fault> {
    match r
    case Success(a) => Success(a.Render())
    case Failure(f) => Failure(f)
  }

  /** The suggestion lists, under their five keys. */
  datatype ListKey = CategoryFilters | CuisineFilters | RestaurantFilters | DietaryFilters | FoodTypeFilters {
    /** The key as the returned dictionary spells it. */
    function Name(): string {
      match this
      case CategoryFilters => "category_filters"
      case CuisineFilters => "cuisine_filters"
      case RestaurantFilters => "restaurant_filters"
      case DietaryFilters => "dietary_filters"
      case FoodTypeFilters => "food_type_filters"
    }
  }

  const SuggestionKeys: set<ListKey> :=
    {CategoryFilters, CuisineFilters, RestaurantFilters, DietaryFilters, FoodTypeFilters}

  /** Whether suggestion rule `n` (0 pizza, 1 italian, 2 coffee/drink, 3 breakfast/morning, 4 lunch, 5 vegetarian, 6 vegan) fires. */
  predicate RuleFires(n: nat, queryLower: string) {
    match n
    case 0 => Contains(queryLower, "pizza")
    case 1 => Contains(queryLower, "italian")
    case 2 => Contains(queryLower, "coffee") || Contains(queryLower, "drink")
    case 3 => Contains(queryLower, "breakfast") || Contains(queryLower, "morning")
    case 4 => Contains(queryLower, "lunch")
    case 5 => Contains(queryLower, "vegetarian")
    case 6 => Contains(queryLower, "vegan")
    case _ => false
  }

  /** What rule `n` appends to the list under `key`. */
  function RuleAdds(n: nat, key: ListKey): seq<string> {
    match (n, key)
    case (0, CategoryFilters) => ["Pizza"]
    case (0, CuisineFilters) => ["Italian"]
    case (0, RestaurantFilters) => ["La Cantina"]
    case (0, FoodTypeFilters) => ["hot_dish"]
    case (1, CuisineFilters) => ["Italian"]
    case (1, CategoryFilters) => ["Pizza", "Pasta"]
    case (1, RestaurantFilters) => ["La Cantina"]
    case (2, CategoryFilters) => ["Hot Coffee", "Cold Coffee", "Specialty Coffee"]
    case (2, FoodTypeFilters) => ["beverage"]
    case (3, CategoryFilters) => ["Breakfast", "Hot Breakfast", "Breakfast Components"]
    case (3, FoodTypeFilters) => ["hot_dish"]
    case (4, CategoryFilters) => ["Main Dishes", "Pizza", "Pasta", "Sandwiches", "Burgers"]
    case (4, FoodTypeFilters) => ["hot_dish"]
    case (5, DietaryFilters) => ["vegetarian"]
    case (5, CategoryFilters) => ["Pizza", "Pasta", "Salads"]
    case (6, DietaryFilters) => ["vegan"]
    case (6, CategoryFilters) => ["Salads", "Fresh Fruit"]
    case _ => []
  }

  const RuleCount := 7

  /** The list under `key` after the first `n` rules have run. */
  function SuggestedAfter(queryLower: string, key: ListKey, n: nat): seq<string> {
    if n == 0 then []
    else SuggestedAfter(queryLower, key, n - 1) + (if RuleFires(n - 1, queryLower) then RuleAdds(n - 1, key) else [])
  }

  function Suggested(queryLower: string, key: ListKey): seq<string> {
    SuggestedAfter(queryLower, key, RuleCount)
  }

  /** The trigger words of the seven rules. */
  const TriggerWords: seq<string> :=
    ["pizza", "italian", "coffee", "drink", "breakfast", "morning", "lunch", "vegetarian", "vegan"]

  /** `get_available_categories`'s line for one category. */
  function CategoryLine(name: string, r: Record): string {
    name + " (Count: " + CountOr(r.count, "N/A") + ", Cuisine: " + r.cuisine.GetOr("N/A") + ")"
  }

  function CuisineLine(name: string, r: Record): string {
    name + ": Categories: " + Join(Take(r.categories, 3), ", ") + ", Restaurants: " + Join(Take(r.restaurants, 2), ", ")
  }

  function RestaurantLine(name: string, r: Record): string {
    name + ": Cuisine: " + r.cuisine.GetOr("N/A") + ", Location: " + r.location.GetOr("N/A")
    + ", Specialties: " + Join(Take(r.specialties, 2), ", ")
  }

  function DietaryLine(name: string, r: Record): string {
    name + ": " + r.description.GetOr("N/A") + ", Categories: " + Join(Take(r.categories, 3), ", ")
  }

  /** A listing tool's text: `header + "\n".join(lines[:limit])`, or the exception. */
  function Joined(header: string, lines: Result<seq<string>, Fault>, limit: Option<nat>): Result<string, Fault> {
    match lines
    case Failure(f) => Failure(f)
    case Success(ls) =>
      Success(header + Join(match limit case Some(n) => Take(ls, n) case None => ls, "\n"))
  }

  function AvailableCategories(k: Knowledge): Result<string, Fault> {
    Joined("Available Categories:\n", Collect(k.categories, EveryOut("categories", CategoryLine)), Some(20))
  }

  function AvailableCuisines(k: Knowledge): Result<string, Fault> {
    Joined("Available Cuisines:\n", Collect(k.cuisineTypes, EveryOut("cuisine_types", CuisineLine)), None)
  }

  function AvailableRestaurants(k: Knowledge): Result<string, Fault> {
    Joined("Available Restaurants:\n", Collect(k.restaurants, EveryOut("restaurants", RestaurantLine)), None)
  }

  function AvailableDietaryOptions(k: Knowledge): Result<string, Fault> {
    Joined("Available Dietary Options:\n", Collect(k.dietaryOptions, EveryOut("dietary_options", DietaryLine)), None)
  }

  /** The five lists hold what the first `n` rules append. */
  ghost predicate ListsAfter(r: map<ListKey, seq<string>>, queryLower: string, n: nat) {
    forall key: ListKey :: key in r && r[key] == SuggestedAfter(queryLower, key, n)
  }

  lemma EveryKeyPresent(r: map<ListKey, seq<string>>)
    requires forall key: ListKey :: key in r
    ensures r.Keys == SuggestionKeys
  {
    forall key | key in r ensures key in SuggestionKeys {
      match key
      case CategoryFilters =>
      case CuisineFilters =>
      case RestaurantFilters =>
      case DietaryFilters =>
      case FoodTypeFilters =>
    }
  }

  class DatabaseKnowledgeBase {
    var knowledge: Knowledge

    constructor(knowledge: Knowledge)
      ensures this.knowledge == knowledge
    {
      this.knowledge := knowledge;
    }

    /**
     * `get_<kind>_info(name)`: with a name, that entry or `{}` when the
     * section has no such name; with no name (or an empty one), the whole
     * section.
     */
    function GetInfo(kind: SectionKind, name: string): (r: Info)
      reads this
      ensures name == "" ==> r == WholeSection(SectionOf(knowledge, kind))
      ensures name != "" ==> r.OneEntry?
      ensures forall i | 0 <= i < |SectionOf(knowledge, kind)| && name != "" && SectionOf(knowledge, kind)[i].0 == name ::
        r.entry == SectionOf(knowledge, kind)[i].1
      ensures name != "" && (forall i | 0 <= i < |SectionOf(knowledge, kind)| :: SectionOf(knowledge, kind)[i].0 != name) ==>
        r.entry == Object(EmptyRecord)
    {
      var s := SectionOf(knowledge, kind);
      if name != "" then OneEntry(Lookup(s, name)) else WholeSection(s)
    }

    /** `search_food_info(query)`: the checks run in order and the first hit answers. */
    method SearchFoodInfo(query: string) returns (r: Result<string, Fault>)
      ensures r == RenderResult(FoodInfo(knowledge, query))
    {
      var ql := Lower(query);
      if Contains(ql, "pizza") && knowledge.pizzaInfo.Some? {
        return Success(PizzaAnswer(knowledge.pizzaInfo.value).Render());
      }
      var hit := FindFirst(knowledge.cuisineTypes, NamedIn(ql));
      if hit.Some? {
        return RenderResult(CuisineAnswerOf(knowledge.cuisineTypes[hit.value]));
      }
      hit := FindFirst(knowledge.categories, NamedIn(ql));
      if hit.Some? {
        return RenderResult(CategoryAnswerOf(knowledge.categories[hit.value]));
      }
      hit := FindFirst(knowledge.restaurants, NamedIn(ql));
      if hit.Some? {
        return RenderResult(RestaurantAnswerOf(knowledge.restaurants[hit.value]));
      }
      hit := FindFirst(knowledge.dietaryOptions, NamedIn(ql));
      if hit.Some? {
        return RenderResult(DietaryAnswerOf(knowledge.dietaryOptions[hit.value]));
      }
      hit := FindFirst(knowledge.commonSearches, TermIn(ql));
      if hit.Some? {
        var (term, info) := knowledge.commonSearches[hit.value];
        return Success(CommonSearchAnswer(term, info).Render());
      }
      return Success(NoMatch.Render());
    }

    /**
     * `get_filter_suggestions(query)`: the seven trigger rules run in order,
     * each appending its additions to the five lists when it fires.
     */
    method GetFilterSuggestions(query: string) returns (r: map<ListKey, seq<string>>)
      ensures r.Keys == SuggestionKeys
      ensures forall key | key in r :: r[key] == Suggested(Lower(query), key)
    {
      var ql := Lower(query);
      r := map[CategoryFilters := [], CuisineFilters := [], RestaurantFilters := [],
               DietaryFilters := [], FoodTypeFilters := []];
      forall key: ListKey ensures key in r && r[key] == [] {
        match key
        case CategoryFilters =>
        case CuisineFilters =>
        case RestaurantFilters =>
        case DietaryFilters =>
        case FoodTypeFilters =>
      }
      for n := 0 to RuleCount
        invariant ListsAfter(r, ql, n)
      {
        if RuleFires(n, ql) {
          r := r[CategoryFilters := r[CategoryFilters] + RuleAdds(n, CategoryFilters)];
          r := r[CuisineFilters := r[CuisineFilters] + RuleAdds(n, CuisineFilters)];
          r := r[RestaurantFilters := r[RestaurantFilters] + RuleAdds(n, RestaurantFilters)];
          r := r[DietaryFilters := r[DietaryFilters] + RuleAdds(n, DietaryFilters)];
          r := r[FoodTypeFilters := r[FoodTypeFilters] + RuleAdds(n, FoodTypeFilters)];
        }
      }
      EveryKeyPresent(r);
    }
  }

  /** `get_available_categories()`: every category is read, and the first 20 lines are shown. */
  method GetAvailableCategories(kb: DatabaseKnowledgeBase) returns (r: Result<string, Fault>)
    ensures r == AvailableCategories(kb.knowledge)
  {
    var lines := CollectLines(kb.knowledge.categories, EveryOut("categories", CategoryLine));
    if lines.Failure? {
      return Failure(lines.error);
    }
    return Success("Available Categories:\n" + Join(Take(lines.value, 20), "\n"));
  }

  /** `get_available_cuisines()`. */
  method GetAvailableCuisines(kb: DatabaseKnowledgeBase) returns (r: Result<string, Fault>)
    ensures r == AvailableCuisines(kb.knowledge)
  {
    var lines := CollectLines(kb.knowledge.cuisineTypes, EveryOut("cuisine_types", CuisineLine));
    if lines.Failure? {
      return Failure(lines.error);
    }
    return Success("Available Cuisines:\n" + Join(lines.value, "\n"));
  }

  /** `get_available_restaurants()`. */
  method GetAvailableRestaurants(kb: DatabaseKnowledgeBase) returns (r: Result<string, Fault>)
    ensures r == AvailableRestaurants(kb.knowledge)
  {
    var lines := CollectLines(kb.knowledge.restaurants, EveryOut("restaurants", RestaurantLine));
    if lines.Failure? {
      return Failure(lines.error);
    }
    return Success("Available Restaurants:\n" + Join(lines.value, "\n"));
  }

  /** `get_dietary_options()`. */
  method GetDietaryOptions(kb: DatabaseKnowledgeBase) returns (r: Result<string, Fault>)
    ensures r == AvailableDietaryOptions(kb.knowledge)
  {
    var lines := CollectLines(kb.knowledge.dietaryOptions, EveryOut("dietary_options", DietaryLine));
    if lines.Failure? {
      return Failure(lines.error);
    }
    return Success("Available Dietary Options:\n" + Join(lines.value, "\n"));
  }

  // ---------------------------------------------------------------------
  // What `search_food_info` promises.

  /** The pizza insight answers exactly when the query mentions pizza and `pizza_info` is truthy; otherwise the search falls through. */
  lemma PizzaInsightFirst(k: Knowledge, query: string)
    ensures PizzaApplies(k, Lower(query)) ==> FoodInfo(k, query) == Success(PizzaAnswer(k.pizzaInfo.value))
    ensures (FoodInfo(k, query).Success? && FoodInfo(k, query).value.PizzaAnswer?) <==> PizzaApplies(k, Lower(query))
  {
  }

  /** No section has an entry whose name occurs in the query. */
  predicate NothingNamed(s: seq<(string, Entry)>, queryLower: string) {
    forall i | 0 <= i < |s| :: !NameIn(queryLower, s[i].0)
  }

  /**
   * Precedence: whichever section answers, the pizza insight did not apply,
   * no earlier section has a matching name, and the answering entry's
   * lower-cased name occurs in the lower-cased query.
   */
  lemma AnswerPrecedence(k: Knowledge, query: string)
    requires FoodInfo(k, query).Success?
    ensures var ql, a := Lower(query), FoodInfo(k, query).value;
      && (a.CuisineAnswer? ==> !PizzaApplies(k, ql) && NameIn(ql, a.name))
      && (a.CategoryAnswer? ==> !PizzaApplies(k, ql) && NothingNamed(k.cuisineTypes, ql) && NameIn(ql, a.name))
      && (a.RestaurantAnswer? ==>
            !PizzaApplies(k, ql) && NothingNamed(k.cuisineTypes, ql)
            && NothingNamed(k.categories, ql) && NameIn(ql, a.name))
      && (a.DietaryAnswer? ==>
            !PizzaApplies(k, ql) && NothingNamed(k.cuisineTypes, ql)
            && NothingNamed(k.categories, ql) && NothingNamed(k.restaurants, ql) && NameIn(ql, a.name))
      && (a.CommonSearchAnswer? ==>
            !PizzaApplies(k, ql) && NothingNamed(k.cuisineTypes, ql)
            && NothingNamed(k.categories, ql) && NothingNamed(k.restaurants, ql)
            && NothingNamed(k.dietaryOptions, ql) && NameIn(ql, a.term))
  {
  }

  /** The first cuisine whose name occurs in the query answers, when the pizza insight does not. */
  lemma FirstNamedCuisineAnswers(k: Knowledge, query: string, i: nat)
    requires !PizzaApplies(k, Lower(query))
    requires i < |k.cuisineTypes| && NameIn(Lower(query), k.cuisineTypes[i].0)
    requires forall j | 0 <= j < i :: !NameIn(Lower(query), k.cuisineTypes[j].0)
    ensures FoodInfo(k, query) == CuisineAnswerOf(k.cuisineTypes[i])
  {
  }

  /** The fallback message comes back exactly when nothing applies and no name in any section occurs in the query. */
  lemma FallbackExactlyWhenNothingMatches(k: Knowledge, query: string)
    ensures FoodInfo(k, query) == Success(NoMatch) <==>
      var ql := Lower(query);
      && !PizzaApplies(k, ql)
      && NothingNamed(k.cuisineTypes, ql) && NothingNamed(k.categories, ql)
      && NothingNamed(k.restaurants, ql) && NothingNamed(k.dietaryOptions, ql)
      && forall i | 0 <= i < |k.commonSearches| :: !NameIn(ql, k.commonSearches[i].0)
  {
  }

  /** `search_food_info` raises only on an entry it picked: one whose name occurs in the query. */
  lemma FaultOnlyOnMatchedEntry(k: Knowledge, query: string)
    requires FoodInfo(k, query).Failure?
    ensures NameIn(Lower(query), FoodInfo(k, query).error.name)
  {
  }

  /** A cuisine answer shows at most the first 5 categories and the first 3 restaurants. */
  lemma CuisineAnswerTruncates(k: Knowledge, query: string)
    requires FoodInfo(k, query).Success? && FoodInfo(k, query).value.CuisineAnswer?
    ensures var a := FoodInfo(k, query).value;
      && |a.categories| <= 5 && |a.restaurants| <= 3
      && exists i | 0 <= i < |k.cuisineTypes| :: k.cuisineTypes[i].0 == a.name && k.cuisineTypes[i].1.Object?
           && a.categories <= k.cuisineTypes[i].1.record.categories
           && a.restaurants <= k.cuisineTypes[i].1.record.restaurants
  {
  }

  // ---------------------------------------------------------------------
  // What `get_filter_suggestions` promises.

  /** A query with none of the trigger words gets five empty lists. */
  lemma NoTriggerNoSuggestions(query: string)
    requires forall i | 0 <= i < |TriggerWords| :: !Contains(Lower(query), TriggerWords[i])
    ensures forall key: ListKey :: Suggested(Lower(query), key) == []
  {
    var ql := Lower(query);
    assert !Contains(ql, TriggerWords[0]) && !Contains(ql, TriggerWords[1]) && !Contains(ql, TriggerWords[2]);
    assert !Contains(ql, TriggerWords[3]) && !Contains(ql, TriggerWords[4]) && !Contains(ql, TriggerWords[5]);
    assert !Contains(ql, TriggerWords[6]) && !Contains(ql, TriggerWords[7]) && !Contains(ql, TriggerWords[8]);
    forall key: ListKey ensures Suggested(ql, key) == [] {
      NothingFiredNothingAdded(ql, key, RuleCount);
    }
  }

  lemma {:induction false} NothingFiredNothingAdded(ql: string, key: ListKey, n: nat)
    requires forall m | 0 <= m < n :: !RuleFires(m, ql)
    ensures SuggestedAfter(ql, key, n) == []
  {
    if n > 0 {
      NothingFiredNothingAdded(ql, key, n - 1);
    }
  }

  /** Earlier rules' additions stay at the front: later rules only append. */
  lemma {:induction false} SuggestedGrows(ql: string, key: ListKey, m: nat, n: nat)
    requires m <= n
    ensures SuggestedAfter(ql, key, m) <= SuggestedAfter(ql, key, n)
    decreases n
  {
    if m < n {
      SuggestedGrows(ql, key, m, n - 1);
    }
  }

  /** A rule that fires leaves its additions, in order, right after the earlier rules' additions. */
  lemma FiredRuleContributes(ql: string, key: ListKey, n: nat)
    requires n < RuleCount && RuleFires(n, ql)
    ensures var before := SuggestedAfter(ql, key, n);
      && |before| + |RuleAdds(n, key)| <= |Suggested(ql, key)|
      && Suggested(ql, key)[|before|..|before| + |RuleAdds(n, key)|] == RuleAdds(n, key)
  {
    SuggestedGrows(ql, key, n + 1, RuleCount);
    var before := SuggestedAfter(ql, key, n);
    assert SuggestedAfter(ql, key, n + 1) == before + RuleAdds(n, key);
    AppendedPartSurvives(before, RuleAdds(n, key), Suggested(ql, key));
  }

  /** What was appended to a prefix of `whole` sits in `whole` right after that prefix. */
  lemma AppendedPartSurvives<T>(before: seq<T>, added: seq<T>, whole: seq<T>)
    requires before + added <= whole
    ensures |before| + |added| <= |whole|
    ensures whole[|before|..|before| + |added|] == added
  {
    assert (before + added)[|before|..] == added;
  }

  /** Rules add up and keep duplicates: "italian pizza" suggests Italian twice and La Cantina twice. */
  lemma ItalianPizzaSuggestions()
    ensures Suggested(Lower("italian pizza"), CuisineFilters) == ["Italian", "Italian"]
    ensures Suggested(Lower("italian pizza"), RestaurantFilters) == ["La Cantina", "La Cantina"]
  {
    var q := "italian pizza";
    assert Lower(q) == q;
    assert OccursAt(q, "pizza", 8);
    assert OccursAt(q, "italian", 0);
  }

  // ---------------------------------------------------------------------
  // What the listing tools promise.

  /** Over categories that are all objects, the listing shows the first 20, one line each, in order. */
  lemma CategoriesListFirstTwenty(k: Knowledge)
    requires forall i | 0 <= i < |k.categories| :: k.categories[i].1.Object?
    ensures var s := k.categories;
      var shown := if |s| <= 20 then |s| else 20;
      AvailableCategories(k) == Success("Available Categories:\n" + Join(
        seq(shown, i requires 0 <= i < shown => CategoryLine(s[i].0, s[i].1.record)), "\n"))
  {
    var s := k.categories;
    ListingHasEveryEntry(s, "categories", CategoryLine);
    var lines := Collect(s, EveryOut("categories", CategoryLine)).value;
    var shown := if |s| <= 20 then |s| else 20;
    assert Take(lines, 20) == seq(shown, i requires 0 <= i < shown => CategoryLine(s[i].0, s[i].1.record));
  }

  /** Every category is read, not only the 20 shown: one that is not an object anywhere makes the tool raise. */
  lemma CategoriesFaultAnywhere(k: Knowledge)
    ensures AvailableCategories(k).Failure? <==> exists i | 0 <= i < |k.categories| :: k.categories[i].1.NotObject?
  {
  }
}
