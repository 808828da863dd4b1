/**
 * `SimpleKnowledgeBase`: a keyword search that accumulates one text block
 * per matching entry over six sections and shows the first five, and the
 * listing tools. An entry matches when its own lower-cased name or one of
 * its section's generic words occurs in the lower-cased query.
 */
module SimpleKnowledge {
  import opened Wrappers
  import opened Text
  import opened Knowledge

  const CuisineWords: seq<string> := ["cuisine", "food"]
  const CategoryWords: seq<string> := ["category", "type"]
  const RestaurantWords: seq<string> := ["restaurant", "place", "location"]
  const DietaryWords: seq<string> := ["dietary", "allergy", "vegetarian", "vegan"]
  const FoodTypeWords: seq<string> := ["food", "dish"]
  const LocationWords: seq<string> := ["location", "building", "level"]

  function CuisineBlock(name: string, r: Record): string {
    "**" + name + " Cuisine:**\n"
    + "- Available categories: " + Join(Take(r.categories, 5), ", ") + "\n"
    + "- Restaurants: " + Join(Take(r.restaurants, 3), ", ") + "\n"
    + "- Total items: " + CountOr(r.count, "0") + "\n"
  }

  function CategoryBlock(name: string, r: Record): string {
    "**" + name + " Category:**\n"
    + "- Food types: " + Join(Take(r.foodTypes, 5), ", ") + "\n"
    + "- Restaurants: " + Join(Take(r.restaurants, 3), ", ") + "\n"
    + "- Total items: " + CountOr(r.count, "0") + "\n"
  }

  function RestaurantBlock(name: string, r: Record): string {
    "**" + name + ":**\n"
    + "- Cuisine: " + r.cuisineType.GetOr("Unknown") + "\n"
    + "- Location: " + r.location.GetOr("Unknown") + "\n"
    + "- Categories: " + Join(Take(r.categories, 5), ", ") + "\n"
  }

  function DietaryBlock(name: string, r: Record): string {
    "**" + name + " Options:**\n"
    + "- Available at " + NatToString(|r.restaurants|) + " restaurants\n"
    + "- Total items: " + CountOr(r.count, "0") + "\n"
  }

  function FoodTypeBlock(name: string, r: Record): string {
    "**" + name + ":**\n"
    + "- Available at " + NatToString(|r.restaurants|) + " restaurants\n"
    + "- Total items: " + CountOr(r.count, "0") + "\n"
  }

  function LocationBlock(name: string, r: Record): string {
    "**" + name + ":**\n"
    + "- Restaurants: " + Join(Take(r.restaurants, 5), ", ") + "\n"
    + "- Total items: " + CountOr(r.count, "0") + "\n"
  }

  /** The block shown when nothing matches: the sizes of five sections (locations are not counted). */
  function GeneralBlock(k: Knowledge): string {
    "**Available Information:**\n"
    + "- " + NatToString(|k.cuisineTypes|) + " cuisine types\n"
    + "- " + NatToString(|k.categories|) + " food categories\n"
    + "- " + NatToString(|k.restaurants|) + " restaurants\n"
    + "- " + NatToString(|k.dietaryOptions|) + " dietary options\n"
    + "- " + NatToString(|k.foodTypes|) + " food types\n"
  }

  function CuisineOut(ql: string): Out { KeywordOut("cuisine_types", ql, CuisineWords, CuisineBlock) }
  function CategoryOut(ql: string): Out { KeywordOut("categories", ql, CategoryWords, CategoryBlock) }
  function RestaurantOut(ql: string): Out { KeywordOut("restaurants", ql, RestaurantWords, RestaurantBlock) }
  function DietaryOut(ql: string): Out { KeywordOut("dietary_options", ql, DietaryWords, DietaryBlock) }
  function FoodTypeOut(ql: string): Out { KeywordOut("food_types", ql, FoodTypeWords, FoodTypeBlock) }
  function LocationOut(ql: string): Out { KeywordOut("locations", ql, LocationWords, LocationBlock) }

  /** Six section scans in order; the first exception wins, otherwise the blocks are concatenated. */
  function Chain(c: Result<seq<string>, Fault>, g: Result<seq<string>, Fault>, r: Result<seq<string>, Fault>,
                 d: Result<seq<string>, Fault>, f: Result<seq<string>, Fault>, l: Result<seq<string>, Fault>): Result<seq<string>, Fault> {
    AndThen(AndThen(AndThen(AndThen(AndThen(c, g), r), d), f), l)
  }

  lemma ChainOfSuccesses(c: Result<seq<string>, Fault>, g: Result<seq<string>, Fault>, r: Result<seq<string>, Fault>,
                         d: Result<seq<string>, Fault>, f: Result<seq<string>, Fault>, l: Result<seq<string>, Fault>)
    requires c.Success? && g.Success? && r.Success? && d.Success? && f.Success? && l.Success?
    ensures Chain(c, g, r, d, f, l) == Success(c.value + g.value + r.value + d.value + f.value + l.value)
  {
  }

  /** Every block of every matching entry, section by section, or the first exception. */
  function MatchedBlocks(k: Knowledge, ql: string): Result<seq<string>, Fault> {
    Chain(Collect(k.cuisineTypes, CuisineOut(ql)), Collect(k.categories, CategoryOut(ql)),
      Collect(k.restaurants, RestaurantOut(ql)), Collect(k.dietaryOptions, DietaryOut(ql)),
      Collect(k.foodTypes, FoodTypeOut(ql)), Collect(k.locations, LocationOut(ql)))
  }

  /** What `_search_knowledge` returns: the first five blocks (or the general block) joined by newlines. */
  function SearchResult(k: Knowledge, query: string): Result<string, Fault> {
    match MatchedBlocks(k, Lower(query))
    case Failure(f) => Failure(f)
    case Success(blocks) =>
      Success(Join(Take(if blocks == [] then [GeneralBlock(k)] else blocks, 5), "\n"))
  }

  function QueryOutput(k: Knowledge, query: string): ToolOutput {
    match SearchResult(k, query)
    case Success(t) => Text(t)
    case Failure(f) => ErrorText("Error querying knowledge base", f)
  }

  function CountLine(name: string, r: Record): string {
    "- " + name + " (" + CountOr(r.count, "0") + " items)"
  }

  function RestaurantLine(name: string, r: Record): string {
    "- " + name + " (" + r.cuisineType.GetOr("Unknown") + ") - " + r.location.GetOr("Unknown")
  }

  class SimpleKnowledgeBase {
    var knowledgeData: Knowledge

    constructor(knowledgeData: Knowledge)
      ensures this.knowledgeData == knowledgeData
    {
      this.knowledgeData := knowledgeData;
    }

    /** `_search_knowledge(query)`: six scans appending blocks, the general block when none matched, the first five shown. */
    method SearchKnowledge(query: string) returns (r: Result<string, Fault>)
      ensures r == SearchResult(knowledgeData, query)
    {
      var ql := Lower(query);
      var scanned := CollectLines(knowledgeData.cuisineTypes, CuisineOut(ql));
      scanned := ScanAfter(scanned, knowledgeData.categories, CategoryOut(ql));
      scanned := ScanAfter(scanned, knowledgeData.restaurants, RestaurantOut(ql));
      scanned := ScanAfter(scanned, knowledgeData.dietaryOptions, DietaryOut(ql));
      scanned := ScanAfter(scanned, knowledgeData.foodTypes, FoodTypeOut(ql));
      scanned := ScanAfter(scanned, knowledgeData.locations, LocationOut(ql));
      if scanned.Failure? {
        return Failure(scanned.error);
      }
      var results := scanned.value;
      if results == [] {
        results := [GeneralBlock(knowledgeData)];
      }
      return Success(Join(Take(results, 5), "\n"));
    }

    /** `query_database_knowledge(query)`: the search, with any exception turned into an error text. */
    method QueryDatabaseKnowledge(query: string) returns (r: ToolOutput)
      ensures r == QueryOutput(knowledgeData, query)
    {
      var t := SearchKnowledge(query);
      if t.Failure? {
        return ErrorText("Error querying knowledge base", t.error);
      }
      return Text(t.value);
    }

    method GetAvailableCuisines() returns (r: ToolOutput)
      ensures r == Availability(knowledgeData.cuisineTypes, "No cuisine types available.",
        "**Available Cuisine Types:**\n", "Error getting cuisines", EveryOut("cuisine_types", CountLine))
    {
      r := ListAvailable(knowledgeData.cuisineTypes, "No cuisine types available.",
        "**Available Cuisine Types:**\n", "Error getting cuisines", EveryOut("cuisine_types", CountLine));
    }

    method GetAvailableCategories() returns (r: ToolOutput)
      ensures r == Availability(knowledgeData.categories, "No categories available.",
        "**Available Food Categories:**\n", "Error getting categories", EveryOut("categories", CountLine))
    {
      r := ListAvailable(knowledgeData.categories, "No categories available.",
        "**Available Food Categories:**\n", "Error getting categories", EveryOut("categories", CountLine));
    }

    method GetAvailableFoodTypes() returns (r: ToolOutput)
      ensures r == Availability(knowledgeData.foodTypes, "No food types available.",
        "**Available Food Types:**\n", "Error getting food types", EveryOut("food_types", CountLine))
    {
      r := ListAvailable(knowledgeData.foodTypes, "No food types available.",
        "**Available Food Types:**\n", "Error getting food types", EveryOut("food_types", CountLine));
    }

    method GetAvailableRestaurants() returns (r: ToolOutput)
      ensures r == Availability(knowledgeData.restaurants, "No restaurants available.",
        "**Available Restaurants:**\n", "Error getting restaurants", EveryOut("restaurants", RestaurantLine))
    {
      r := ListAvailable(knowledgeData.restaurants, "No restaurants available.",
        "**Available Restaurants:**\n", "Error getting restaurants", EveryOut("restaurants", RestaurantLine));
    }

    method GetDietaryOptions() returns (r: ToolOutput)
      ensures r == Availability(knowledgeData.dietaryOptions, "No dietary options available.",
        "**Available Dietary Options:**\n", "Error getting dietary options", EveryOut("dietary_options", CountLine))
    {
      r := ListAvailable(knowledgeData.dietaryOptions, "No dietary options available.",
        "**Available Dietary Options:**\n", "Error getting dietary options", EveryOut("dietary_options", CountLine));
    }
  }

  // ---------------------------------------------------------------------
  // What the search promises.

  /**
   * The general block is shown exactly when no entry of any of the six
   * sections matches; the output is then that block alone.
   */
  lemma {:induction false} GeneralBlockWhenNothingMatches(k: Knowledge, query: string)
    ensures var ql := Lower(query);
      MatchedBlocks(k, ql) == Success([]) <==>
        && NoKeywordMet(k.cuisineTypes, ql, CuisineWords) && NoKeywordMet(k.categories, ql, CategoryWords)
        && NoKeywordMet(k.restaurants, ql, RestaurantWords) && NoKeywordMet(k.dietaryOptions, ql, DietaryWords)
        && NoKeywordMet(k.foodTypes, ql, FoodTypeWords) && NoKeywordMet(k.locations, ql, LocationWords)
    ensures MatchedBlocks(k, Lower(query)) == Success([]) ==> SearchResult(k, query) == Success(GeneralBlock(k))
  {
    var ql := Lower(query);
    NoKeywordMetMeansNoLines(k.cuisineTypes, "cuisine_types", ql, CuisineWords, CuisineBlock);
    NoKeywordMetMeansNoLines(k.categories, "categories", ql, CategoryWords, CategoryBlock);
    NoKeywordMetMeansNoLines(k.restaurants, "restaurants", ql, RestaurantWords, RestaurantBlock);
    NoKeywordMetMeansNoLines(k.dietaryOptions, "dietary_options", ql, DietaryWords, DietaryBlock);
    NoKeywordMetMeansNoLines(k.foodTypes, "food_types", ql, FoodTypeWords, FoodTypeBlock);
    NoKeywordMetMeansNoLines(k.locations, "locations", ql, LocationWords, LocationBlock);
    var c := Collect(k.cuisineTypes, CuisineOut(ql));
    var g := Collect(k.categories, CategoryOut(ql));
    var r := Collect(k.restaurants, RestaurantOut(ql));
    var d := Collect(k.dietaryOptions, DietaryOut(ql));
    var f := Collect(k.foodTypes, FoodTypeOut(ql));
    var l := Collect(k.locations, LocationOut(ql));
    AndThenEmpty(c, g);
    AndThenEmpty(AndThen(c, g), r);
    AndThenEmpty(AndThen(AndThen(c, g), r), d);
    AndThenEmpty(AndThen(AndThen(AndThen(c, g), r), d), f);
    AndThenEmpty(AndThen(AndThen(AndThen(AndThen(c, g), r), d), f), l);
  }

  /**
   * When some entry matched, the output joins the first five matched blocks
   * (all of them when there are fewer), in section order.
   */
  lemma SearchShowsAtMostFive(k: Knowledge, query: string)
    requires SearchResult(k, query).Success?
    ensures MatchedBlocks(k, Lower(query)).Success?
    ensures var blocks := MatchedBlocks(k, Lower(query)).value;
      var shown := Take(blocks, 5);
      blocks != [] ==>
        && shown <= blocks && |shown| == (if |blocks| < 5 then |blocks| else 5)
        && SearchResult(k, query).value == Join(shown, "\n")
  {
  }

  predicate AllSectionsObjects(k: Knowledge) {
    AllObjects(k.cuisineTypes) && AllObjects(k.categories) && AllObjects(k.restaurants)
    && AllObjects(k.dietaryOptions) && AllObjects(k.foodTypes) && AllObjects(k.locations)
  }

  /**
   * "food" widens the search: the blocks are every cuisine's, the matching
   * categories', restaurants' and dietary options', every food type's and
   * the matching locations', in that order.
   */
  lemma FoodMatchesEveryCuisineAndFoodType(k: Knowledge, query: string)
    requires Contains(Lower(query), "food") && AllSectionsObjects(k)
    ensures var ql := Lower(query);
      && Collect(k.categories, CategoryOut(ql)).Success? && Collect(k.restaurants, RestaurantOut(ql)).Success?
      && Collect(k.dietaryOptions, DietaryOut(ql)).Success? && Collect(k.locations, LocationOut(ql)).Success?
      && MatchedBlocks(k, ql) == Success(EveryBlock(k.cuisineTypes, CuisineBlock)
           + Collect(k.categories, CategoryOut(ql)).value + Collect(k.restaurants, RestaurantOut(ql)).value
           + Collect(k.dietaryOptions, DietaryOut(ql)).value + EveryBlock(k.foodTypes, FoodTypeBlock)
           + Collect(k.locations, LocationOut(ql)).value)
  {
    var ql := Lower(query);
    assert CuisineWords[1] == "food";
    assert FoodTypeWords[0] == "food";
    GenericKeywordMatchesAll(k.cuisineTypes, "cuisine_types", ql, CuisineWords, CuisineBlock, 1);
    GenericKeywordMatchesAll(k.foodTypes, "food_types", ql, FoodTypeWords, FoodTypeBlock, 0);
    ObjectsNeverRaise(k.categories, "categories", ql, CategoryWords, CategoryBlock);
    ObjectsNeverRaise(k.restaurants, "restaurants", ql, RestaurantWords, RestaurantBlock);
    ObjectsNeverRaise(k.dietaryOptions, "dietary_options", ql, DietaryWords, DietaryBlock);
    ObjectsNeverRaise(k.locations, "locations", ql, LocationWords, LocationBlock);
    ChainOfSuccesses(Collect(k.cuisineTypes, CuisineOut(ql)), Collect(k.categories, CategoryOut(ql)),
      Collect(k.restaurants, RestaurantOut(ql)), Collect(k.dietaryOptions, DietaryOut(ql)),
      Collect(k.foodTypes, FoodTypeOut(ql)), Collect(k.locations, LocationOut(ql)));
  }

  /**
   * "location" widens the search: the blocks are the matching cuisines',
   * categories', every restaurant's, the matching dietary options' and food
   * types', and every location's, in that order.
   */
  lemma LocationMatchesEveryRestaurantAndLocation(k: Knowledge, query: string)
    requires Contains(Lower(query), "location") && AllSectionsObjects(k)
    ensures var ql := Lower(query);
      && Collect(k.cuisineTypes, CuisineOut(ql)).Success? && Collect(k.categories, CategoryOut(ql)).Success?
      && Collect(k.dietaryOptions, DietaryOut(ql)).Success? && Collect(k.foodTypes, FoodTypeOut(ql)).Success?
      && MatchedBlocks(k, ql) == Success(Collect(k.cuisineTypes, CuisineOut(ql)).value
           + Collect(k.categories, CategoryOut(ql)).value + EveryBlock(k.restaurants, RestaurantBlock)
           + Collect(k.dietaryOptions, DietaryOut(ql)).value + Collect(k.foodTypes, FoodTypeOut(ql)).value
           + EveryBlock(k.locations, LocationBlock))
  {
    var ql := Lower(query);
    assert RestaurantWords[2] == "location";
    assert LocationWords[0] == "location";
    GenericKeywordMatchesAll(k.restaurants, "restaurants", ql, RestaurantWords, RestaurantBlock, 2);
    GenericKeywordMatchesAll(k.locations, "locations", ql, LocationWords, LocationBlock, 0);
    ObjectsNeverRaise(k.cuisineTypes, "cuisine_types", ql, CuisineWords, CuisineBlock);
    ObjectsNeverRaise(k.categories, "categories", ql, CategoryWords, CategoryBlock);
    ObjectsNeverRaise(k.dietaryOptions, "dietary_options", ql, DietaryWords, DietaryBlock);
    ObjectsNeverRaise(k.foodTypes, "food_types", ql, FoodTypeWords, FoodTypeBlock);
    ChainOfSuccesses(Collect(k.cuisineTypes, CuisineOut(ql)), Collect(k.categories, CategoryOut(ql)),
      Collect(k.restaurants, RestaurantOut(ql)), Collect(k.dietaryOptions, DietaryOut(ql)),
      Collect(k.foodTypes, FoodTypeOut(ql)), Collect(k.locations, LocationOut(ql)));
  }

  /** A cuisine block shows only the first five categories and the first three restaurants. */
  lemma CuisineBlockTruncates(name: string, r: Record)
    ensures CuisineBlock(name, r) == CuisineBlock(name, r.(categories := Take(r.categories, 5), restaurants := Take(r.restaurants, 3)))
  {
  }

  /** The tool never raises: it returns the search's text, or an error text exactly when the search raises. */
  lemma QueryNeverRaises(k: Knowledge, query: string)
    ensures QueryOutput(k, query).ErrorText? <==> SearchResult(k, query).Failure?
    ensures QueryOutput(k, query).ErrorText? ==> QueryOutput(k, query).context == "Error querying knowledge base"
  {
  }
}
