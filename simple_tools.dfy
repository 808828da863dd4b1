/**
 * The standalone tool functions over the module-level knowledge dictionary,
 * which the model passes to each tool as a parameter. The query tool scans
 * three sections with a keyword test and shows the first three lines; the
 * listing tools print one line per entry.
 */
module SimpleTools {
  import opened Wrappers
  import opened Text
  import opened Knowledge

  const CuisineWords: seq<string> := ["cuisine", "food"]
  const CategoryWords: seq<string> := ["category", "type"]
  const RestaurantWords: seq<string> := ["restaurant", "place"]

  function CuisineLine(name: string, r: Record): string {
    "Available " + name + " cuisine: " + CountOr(r.count, "0") + " restaurants"
  }

  function CategoryLine(name: string, r: Record): string {
    "Available " + name + " category: " + CountOr(r.count, "0") + " items"
  }

  function RestaurantLine(name: string, r: Record): string {
    "Restaurant: " + name + " - " + r.cuisineType.GetOr("Unknown cuisine")
  }

  function CuisineOut(ql: string): Out { KeywordOut("cuisine_types", ql, CuisineWords, CuisineLine) }
  function CategoryOut(ql: string): Out { KeywordOut("categories", ql, CategoryWords, CategoryLine) }
  function RestaurantOut(ql: string): Out { KeywordOut("restaurants", ql, RestaurantWords, RestaurantLine) }

  /** The three scans in order, or the first exception. */
  function Results(k: Knowledge, ql: string): Result<seq<string>, Fault> {
    AndThen(AndThen(
      Collect(k.cuisineTypes, CuisineOut(ql)),
      Collect(k.categories, CategoryOut(ql))),
      Collect(k.restaurants, RestaurantOut(ql)))
  }

  function NoMatch(k: Knowledge, query: string): string {
    "No specific information found for '" + query + "'. Available: "
    + NatToString(|k.cuisineTypes|) + " cuisines, " + NatToString(|k.categories|) + " categories, "
    + NatToString(|k.restaurants|) + " restaurants."
  }

  /** What `query_database_knowledge(query)` returns. */
  function QueryOutput(k: Knowledge, query: string): ToolOutput {
    match Results(k, Lower(query))
    case Failure(f) => ErrorText("Error querying knowledge base", f)
    case Success(results) =>
      if results == [] then Text(NoMatch(k, query)) else Text(Join(Take(results, 3), "\n"))
  }

  method QueryDatabaseKnowledge(k: Knowledge, query: string) returns (r: ToolOutput)
    ensures r == QueryOutput(k, query)
  {
    var ql := Lower(query);
    var results := CollectLines(k.cuisineTypes, CuisineOut(ql));
    results := ScanAfter(results, k.categories, CategoryOut(ql));
    results := ScanAfter(results, k.restaurants, RestaurantOut(ql));
    if results.Failure? {
      return ErrorText("Error querying knowledge base", results.error);
    }
    if results.value == [] {
      return Text(NoMatch(k, query));
    }
    return Text(Join(Take(results.value, 3), "\n"));
  }

  function CuisineCount(name: string, r: Record): string {
    "- " + name + ": " + CountOr(r.count, "0") + " restaurants"
  }

  function CategoryCount(name: string, r: Record): string {
    "- " + name + ": " + CountOr(r.count, "0") + " items"
  }

  function RestaurantCuisine(name: string, r: Record): string {
    "- " + name + ": " + r.cuisineType.GetOr("Unknown") + " cuisine"
  }

  /** The dietary listing prints only the names: its entries are never read, so it cannot raise. */
  function OptionOut(): Out {
    (e: (string, Entry)) => Success(Some("- " + e.0))
  }

  method GetAvailableCuisines(k: Knowledge) returns (r: ToolOutput)
    ensures r == Availability(k.cuisineTypes, "No cuisine types available.", "Available cuisines:\n",
      "Error getting cuisines", EveryOut("cuisine_types", CuisineCount))
  {
    r := ListAvailable(k.cuisineTypes, "No cuisine types available.", "Available cuisines:\n",
      "Error getting cuisines", EveryOut("cuisine_types", CuisineCount));
  }

  method GetAvailableCategories(k: Knowledge) returns (r: ToolOutput)
    ensures r == Availability(k.categories, "No categories available.", "Available categories:\n",
      "Error getting categories", EveryOut("categories", CategoryCount))
  {
    r := ListAvailable(k.categories, "No categories available.", "Available categories:\n",
      "Error getting categories", EveryOut("categories", CategoryCount));
  }

  method GetAvailableRestaurants(k: Knowledge) returns (r: ToolOutput)
    ensures r == Availability(k.restaurants, "No restaurants available.", "Available restaurants:\n",
      "Error getting restaurants", EveryOut("restaurants", RestaurantCuisine))
  {
    r := ListAvailable(k.restaurants, "No restaurants available.", "Available restaurants:\n",
      "Error getting restaurants", EveryOut("restaurants", RestaurantCuisine));
  }

  method GetDietaryOptions(k: Knowledge) returns (r: ToolOutput)
    ensures r == Availability(k.dietaryOptions, "No dietary options available.", "Available dietary options:\n",
      "Error getting dietary options", OptionOut())
  {
    r := ListAvailable(k.dietaryOptions, "No dietary options available.", "Available dietary options:\n",
      "Error getting dietary options", OptionOut());
  }

  // ---------------------------------------------------------------------
  // What the tools promise.

  /**
   * An answer other than the "no specific information" text joins the first
   * three lines of the scans (all of them when there are fewer), in scan order.
   */
  lemma AtMostThreeLines(k: Knowledge, query: string)
    requires QueryOutput(k, query).Text? && QueryOutput(k, query).text != NoMatch(k, query)
    ensures Results(k, Lower(query)).Success?
    ensures var lines := Results(k, Lower(query)).value;
      var shown := Take(lines, 3);
      && lines != [] && shown <= lines && |shown| == (if |lines| < 3 then |lines| else 3)
      && QueryOutput(k, query).text == Join(shown, "\n")
  {
  }

  /** The "no specific information" text, with the three section sizes, comes exactly when no keyword is met. */
  lemma NoMatchExactlyWhenNoKeywordMet(k: Knowledge, query: string)
    ensures var ql := Lower(query);
      Results(k, ql) == Success([]) <==>
        NoKeywordMet(k.cuisineTypes, ql, CuisineWords) && NoKeywordMet(k.categories, ql, CategoryWords)
        && NoKeywordMet(k.restaurants, ql, RestaurantWords)
    ensures Results(k, Lower(query)) == Success([]) ==> QueryOutput(k, query) == Text(NoMatch(k, query))
  {
  }

  /** "food" matches every cuisine: the cuisine lines come first, one per cuisine, in order. */
  lemma FoodMatchesEveryCuisine(k: Knowledge, ql: string)
    requires Contains(ql, "food")
    requires AllObjects(k.cuisineTypes) && AllObjects(k.categories) && AllObjects(k.restaurants)
    ensures Collect(k.categories, CategoryOut(ql)).Success? && Collect(k.restaurants, RestaurantOut(ql)).Success?
    ensures Results(k, ql) == Success(EveryBlock(k.cuisineTypes, CuisineLine)
      + Collect(k.categories, CategoryOut(ql)).value + Collect(k.restaurants, RestaurantOut(ql)).value)
  {
    assert CuisineWords[1] == "food";
    GenericKeywordMatchesAll(k.cuisineTypes, "cuisine_types", ql, CuisineWords, CuisineLine, 1);
    ObjectsNeverRaise(k.categories, "categories", ql, CategoryWords, CategoryLine);
    ObjectsNeverRaise(k.restaurants, "restaurants", ql, RestaurantWords, RestaurantLine);
  }

  /**
   * Any query containing "food" matches every cuisine, and cuisines are
   * scanned first: with at least three cuisines the answer is the first
   * three cuisines and nothing else.
   */
  lemma FoodQueryShowsFirstThreeCuisines(k: Knowledge, query: string)
    requires Contains(Lower(query), "food") && 3 <= |k.cuisineTypes|
    requires AllObjects(k.cuisineTypes) && AllObjects(k.categories) && AllObjects(k.restaurants)
    ensures QueryOutput(k, query) == Text(Join(EveryBlock(k.cuisineTypes, CuisineLine)[..3], "\n"))
  {
    var ql := Lower(query);
    FoodMatchesEveryCuisine(k, ql);
    var c := EveryBlock(k.cuisineTypes, CuisineLine);
    TakeThreeOfLonger(c, Collect(k.categories, CategoryOut(ql)).value, Collect(k.restaurants, RestaurantOut(ql)).value);
  }

  lemma TakeThreeOfLonger(c: seq<string>, g: seq<string>, r: seq<string>)
    requires 3 <= |c|
    ensures Take(c + g + r, 3) == c[..3]
  {
    assert (c + g + r)[..3] == c[..3];
  }

  /**
   * Each section's generic words widen it to the whole section: a query
   * containing one of them yields one line per entry of that section, in order.
   */
  lemma GenericWordsMatchWholeSections(k: Knowledge, ql: string)
    requires AllObjects(k.cuisineTypes) && AllObjects(k.categories) && AllObjects(k.restaurants)
    ensures Contains(ql, "cuisine") || Contains(ql, "food") ==>
      Collect(k.cuisineTypes, CuisineOut(ql)) == Success(EveryBlock(k.cuisineTypes, CuisineLine))
    ensures Contains(ql, "category") || Contains(ql, "type") ==>
      Collect(k.categories, CategoryOut(ql)) == Success(EveryBlock(k.categories, CategoryLine))
    ensures Contains(ql, "restaurant") || Contains(ql, "place") ==>
      Collect(k.restaurants, RestaurantOut(ql)) == Success(EveryBlock(k.restaurants, RestaurantLine))
  {
    if Contains(ql, "cuisine") || Contains(ql, "food") {
      var g := if Contains(ql, "cuisine") then 0 else 1;
      assert CuisineWords[g] == (if g == 0 then "cuisine" else "food");
      GenericKeywordMatchesAll(k.cuisineTypes, "cuisine_types", ql, CuisineWords, CuisineLine, g);
    }
    if Contains(ql, "category") || Contains(ql, "type") {
      var g := if Contains(ql, "category") then 0 else 1;
      assert CategoryWords[g] == (if g == 0 then "category" else "type");
      GenericKeywordMatchesAll(k.categories, "categories", ql, CategoryWords, CategoryLine, g);
    }
    if Contains(ql, "restaurant") || Contains(ql, "place") {
      var g := if Contains(ql, "restaurant") then 0 else 1;
      assert RestaurantWords[g] == (if g == 0 then "restaurant" else "place");
      GenericKeywordMatchesAll(k.restaurants, "restaurants", ql, RestaurantWords, RestaurantLine, g);
    }
  }

  /** One line per dietary option: its name. */
  function OptionLines(s: seq<(string, Entry)>): (r: seq<string>)
    ensures |r| == |s| && forall i | 0 <= i < |s| :: r[i] == "- " + s[i].0
  {
    seq(|s|, i requires 0 <= i < |s| => "- " + s[i].0)
  }

  lemma DietaryLinesAreNames(s: seq<(string, Entry)>)
    ensures Collect(s, OptionOut()) == Success(OptionLines(s))
  {
    CollectEvery(s, OptionOut());
    assert Collect(s, OptionOut()).value == OptionLines(s);
  }

  /** The dietary listing never answers with an error text: it lists every name, or says there is none. */
  lemma DietaryOptionsNeverErr(k: Knowledge)
    ensures var r := Availability(k.dietaryOptions, "No dietary options available.", "Available dietary options:\n",
        "Error getting dietary options", OptionOut());
      && r.Text?
      && (k.dietaryOptions == [] <==> r.text == "No dietary options available.")
      && (k.dietaryOptions != [] ==> r.text == "Available dietary options:\n" + Unlines(OptionLines(k.dietaryOptions)))
  {
    var s := k.dietaryOptions;
    DietaryLinesAreNames(s);
    if s != [] {
      // The listing starts with its header, whose first letter differs from the message's.
      var t := "Available dietary options:\n" + Unlines(OptionLines(s));
      assert t[0] == 'A';
    }
  }

  /** The other listings raise exactly when one of their entries is not an object. */
  lemma CuisineListingErrsOnNonObject(k: Knowledge)
    ensures Availability(k.cuisineTypes, "No cuisine types available.", "Available cuisines:\n",
      "Error getting cuisines", EveryOut("cuisine_types", CuisineCount)).ErrorText?
      <==> exists i | 0 <= i < |k.cuisineTypes| :: k.cuisineTypes[i].1.NotObject?
  {
  }
}
