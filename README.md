# Unifeast chatbot: filter merge and keyword knowledge bases

This project models two parts of the Unifeast food-recommendation agent in Dafny and proves properties about them.

**The search-filter merge.** `build_food_search_filter` combines a user's stored profile with the criteria of one query. The profile holds five allergen flags, other allergies, dietary preferences, identity and budget. The criteria hold a cuisine list, a price ceiling, dietary tags and a period plan. The result is the flat metadata filter sent to the vector index. `build_default_user_filter` returns the profile template the agent fills in.
- Two copies of this code exist, `langchain_agent/filter_builder_tools.py` and `langchain_agent/agent/tools/filter_builder_tools.py`. They differ only in two `print` lines outside the modelled functions, so they are modelled once.
- `BuildFoodSearchFilter` is a method that fills the filter key by key, as the source does. It is proved equal to `MergedFilter`, a table saying which write wins for each field.
- The safety and precedence rules are lemmas about that table.

**The keyword-lookup knowledge bases.** Four variants answer questions about the campus food knowledge dictionary. Its sections are cuisine types, categories, restaurants, dietary options, food types, locations and search insights.
- `DatabaseKnowledgeBase` has the section getters and a first-match search (`search_food_info`). Its filter-suggestion rules fill five lists.
- The module-level tools of `database_tool.py` are also modelled.
- `SimpleKnowledgeBase` collects one text block per matching entry and shows five. `VectorKnowledgeBase` is a substring search that shows ten lines. The `simple_tools` functions show three lines.
- Each variant also has its listing tools.

The loaded dictionary is an input value. Each section is a sequence of (name, entry) pairs in dictionary order. An entry is either an object or some other JSON value. A non-object models the `AttributeError` that `.get` raises on it, so every `except` branch can be reached except that of `simple_tools.get_dietary_options`. That loop never reads an entry, and it raises only when the dietary section itself is not a dictionary, which the model cannot represent. Outputs that catch exceptions are `ToolOutput` values: the text, or the error context together with the fault.

**Precedence as the code has it.** The model follows the code, not a safety-first precedence rule.
- **Price ceiling.** A safety-first rule would let the profile's budget win over a criteria `max_price` unless overriding is requested. In the code, a criteria `max_price` is written last and always replaces the budget on the identity's price field (`filter_builder_tools.py:98-103`). `FilterRules.CriteriaOverwriteProfile` and `FilterRules.CriteriaCeilingBeatsBudget` state the code's behaviour.
- **Dietary preferences.** Criteria dietary preferences likewise always replace the profile's (lines 106-107).

## Model

| member | source | states |
|---|---|---|
| FilterBuilder.DefaultUserFilter | langchain_agent/filter_builder_tools.py:14-35 | the template is non-empty, with every allergen flag false, empty lists, identity "student" and no budget |
| FilterBuilder.WireFilter | langchain_agent/filter_builder_tools.py:52-111 | the filter sent out has one key per field set, named as the source names it, carrying that field's constraint, and no other key |
| FilterBuilder.AddAllergyEntries | langchain_agent/filter_builder_tools.py:54-72 | each allergen flag set writes `$eq: false` under its key; non-empty other allergies write `$nin` of the list; every other key keeps its old value |
| FilterBuilder.AddPreferenceEntries | langchain_agent/agent/tools/filter_builder_tools.py:74-89 | raises (null criteria) exactly when overriding with null criteria. Otherwise it writes the profile's dietary tags and the identity's budget ceiling unless overriding with criteria that supply the same field, and no other key changes |
| FilterBuilder.AddCriteriaEntries | langchain_agent/filter_builder_tools.py:92-111 | raises exactly when a `max_price` meets a null base filter or null profile; otherwise writes cuisine `$in`, the identity's `$lte max_price`, dietary `$in` and the raw period plan, changing nothing else |
| FilterBuilder.WritesInOrder | langchain_agent/agent/tools/filter_builder_tools.py:52-111 | for every field, the merged constraint is the criteria's write if any, else the preference write, else the allergy write (the last write wins) |
| FilterBuilder.BuildFoodSearchFilter | langchain_agent/filter_builder_tools.py:41-118 | the key-by-key merge, with its error returns, yields exactly the per-field table `MergedFilter` |
| FilterRules.AllergyEntriesFollowProfile | langchain_agent/filter_builder_tools.py:54-67 | an allergen key is present iff the base filter is used and its flag is set, and then it is `$eq: false`, for every override flag and criteria |
| FilterRules.OtherAllergiesExcludedVerbatim | langchain_agent/agent/tools/filter_builder_tools.py:70-72 | `other_allergies` is present iff the base filter is used and the list is non-empty, and then it is `$nin` of the list unchanged |
| FilterRules.WithoutBaseOnlyCriteria | langchain_agent/filter_builder_tools.py:54-111 | without the base filter only criteria keys appear, each iff the criteria supply it and with the criteria's value |
| FilterRules.PriceFieldFollowsIdentity | langchain_agent/agent/tools/filter_builder_tools.py:81-103 | never both price keys; `student_price` only for a student (the default identity), `staff_price` only for staff; with the base filter used and no criteria `max_price`, the profile budget is the `$lte` ceiling on the identity's field |
| FilterRules.CriteriaOverwriteProfile | langchain_agent/filter_builder_tools.py:97-107 | a criteria price ceiling is the final `$lte` on the identity's price field, and criteria dietary tags the final `$in`, whatever the override flag |
| FilterRules.OverrideChangesNothing | langchain_agent/filter_builder_tools.py:75-107 | for criteria given as a dictionary the result is the same with and without `override_preferences` |
| FilterRules.WireKeysAreKnown | langchain_agent/agent/tools/filter_builder_tools.py:57-111 | every output key is one of the eleven field names the builder writes |
| FilterRules.ErrorResults | langchain_agent/filter_builder_tools.py:116-118 | the error result comes back for a null base filter with a price ceiling, for null criteria when overriding, and for a null profile |
| FilterRules.DefaultTemplateFiltersNothing | langchain_agent/agent/tools/filter_builder_tools.py:19-89 | the default template merged with empty criteria gives the empty filter, for every flag setting |
| FilterRules.CriteriaCeilingBeatsBudget | langchain_agent/filter_builder_tools.py:98-103 | a student with budget 800 and a milk allergy asking for at most 500 without overriding gets milk `$eq: false` and `student_price $lte 500` |
| Knowledge.FirstWhere | langchain_agent/knowledge_base/database_tool.py:86-119 | the index returned is the first whose entry satisfies the test, and none is returned iff no entry does |
| Knowledge.FindFirst | langchain_agent/knowledge_base/database_tool.py:86-90 | the loop with an early return finds the index `FirstWhere` specifies |
| Knowledge.Collect | langchain_agent/knowledge_base/simple_tools.py:48-50 | a scan succeeds iff no entry raises; its error is the first raising entry's; every line comes from an entry, at most one per entry; it is empty iff no entry yields a line |
| Knowledge.CollectFailureSticks | langchain_agent/knowledge_base/simple_knowledge_base.py:55-64 | once a prefix of a section raises, the whole scan raises the same error |
| Knowledge.CollectEvery | langchain_agent/knowledge_base/simple_tools.py:82-84 | when every entry yields a line, the scan yields exactly those lines, in order |
| Knowledge.CollectLines | langchain_agent/knowledge_base/vector_knowledge_base.py:48-51 | the append loop computes `Collect` |
| Knowledge.AppendLines | langchain_agent/knowledge_base/simple_knowledge_base.py:169-171 | the `+=` loop builds the header followed by one newline-terminated line per entry, or raises as `Collect` does |
| Knowledge.ListAvailable | langchain_agent/knowledge_base/simple_knowledge_base.py:162-176 | the listing returns the fixed message for an empty section, otherwise the header and lines, or the error text on an exception |
| Knowledge.AvailabilityListsEveryEntry | langchain_agent/knowledge_base/simple_tools.py:78-86 | over a non-empty section of objects the listing is the header followed by one line per entry, in order |
| Knowledge.AvailabilityErrsOnNonObject | langchain_agent/knowledge_base/simple_knowledge_base.py:178-192 | a listing answers with an error text iff some entry is not an object |
| Knowledge.ListingFailsOnFirstNonObject | langchain_agent/knowledge_base/database_tool.py:232-235 | a listing scan raises iff some entry is not an object, and then on the first such entry |
| Knowledge.GenericKeywordMatchesAll | langchain_agent/knowledge_base/simple_knowledge_base.py:56 | a generic keyword in the query matches every entry: one line per entry, in order |
| Knowledge.NoKeywordMetMeansNoLines | langchain_agent/knowledge_base/simple_tools.py:49 | a keyword scan yields nothing iff no entry's name or generic keyword occurs in the query |
| Knowledge.ObjectsNeverRaise | langchain_agent/knowledge_base/simple_knowledge_base.py:53-64 | a keyword scan over a section of objects never raises |
| Knowledge.ScanAfter | langchain_agent/knowledge_base/vector_knowledge_base.py:53-59 | a scan run after earlier ones appends its lines, and is skipped once an earlier scan raised |
| Knowledge.AndThenEmpty | langchain_agent/knowledge_base/simple_knowledge_base.py:131-132 | two sequenced scans yield nothing iff each yields nothing |
| Knowledge.KeywordOut | langchain_agent/knowledge_base/simple_knowledge_base.py:56-57 | an entry whose lower-cased name or a generic word occurs in the query yields its line, or raises when it is not an object; any other entry yields nothing and is not read |
| Text.Lower | langchain_agent/knowledge_base/simple_tools.py:43 | `lower()` keeps the length and lower-cases each ASCII letter, leaving every other character |
| Text.Contains | langchain_agent/knowledge_base/simple_tools.py:49 | `needle in hay`: the empty needle is in every string, and a needle longer than the hay is never in it |
| Text.Title | langchain_agent/knowledge_base/database_tool.py:119 | `title()` keeps the length, upper-cases a letter at the start or after a non-letter and lower-cases a letter after a letter |
| Knowledge.Lookup | langchain_agent/knowledge_base/database_tool.py:42 | a present name gives its entry; an absent name gives `{}` |
| DatabaseTool.DatabaseKnowledgeBase.GetInfo | langchain_agent/knowledge_base/database_tool.py:39-73 | with no name the whole section, with a present name its entry, with an absent name `{}` |
| DatabaseTool.FoodAnswer.Render | langchain_agent/knowledge_base/database_tool.py:83-121 | each answer's text; none is empty |
| DatabaseTool.DatabaseKnowledgeBase.SearchFoodInfo | langchain_agent/knowledge_base/database_tool.py:75-121 | the search loops compute the first-match answer `FoodInfo`, rendered |
| DatabaseTool.PizzaInsightFirst | langchain_agent/knowledge_base/database_tool.py:79-83 | the pizza insight answers iff the query mentions pizza and `pizza_info` is truthy; otherwise the search falls through |
| DatabaseTool.AnswerPrecedence | langchain_agent/knowledge_base/database_tool.py:79-121 | each kind of answer implies that every earlier check failed: pizza, cuisine, category, restaurant, dietary option, common search |
| DatabaseTool.FirstNamedCuisineAnswers | langchain_agent/knowledge_base/database_tool.py:86-90 | the first cuisine named in the query answers when the pizza insight does not |
| DatabaseTool.FallbackExactlyWhenNothingMatches | langchain_agent/knowledge_base/database_tool.py:121 | the fallback message comes back iff nothing applies and no name of any section occurs in the lower-cased query |
| DatabaseTool.FaultOnlyOnMatchedEntry | langchain_agent/knowledge_base/database_tool.py:86-113 | the search raises only on an entry whose name occurs in the query |
| DatabaseTool.CuisineAnswerTruncates | langchain_agent/knowledge_base/database_tool.py:88-90 | a cuisine answer shows at most 5 categories and 3 restaurants, the first ones of the entry's lists |
| DatabaseTool.DatabaseKnowledgeBase.GetFilterSuggestions | langchain_agent/knowledge_base/database_tool.py:123-172 | the result has exactly the five suggestion keys, each holding what the rules add in order for the lower-cased query |
| DatabaseTool.EveryKeyPresent | langchain_agent/knowledge_base/database_tool.py:126-132 | a map holding every suggestion key has exactly the five keys |
| DatabaseTool.NoTriggerNoSuggestions | langchain_agent/knowledge_base/database_tool.py:135-170 | a query with none of the trigger words gets five empty lists |
| DatabaseTool.SuggestedGrows | langchain_agent/knowledge_base/database_tool.py:135-170 | later rules only append: earlier additions stay a prefix |
| DatabaseTool.FiredRuleContributes | langchain_agent/knowledge_base/database_tool.py:135-170 | a firing rule's additions follow the earlier rules' additions, in order |
| DatabaseTool.ItalianPizzaSuggestions | langchain_agent/knowledge_base/database_tool.py:135-145 | "italian pizza" suggests Italian twice and La Cantina twice |
| DatabaseTool.GetAvailableCategories | langchain_agent/knowledge_base/database_tool.py:222-237 | the listing loop computes `AvailableCategories` |
| DatabaseTool.CategoriesListFirstTwenty | langchain_agent/knowledge_base/database_tool.py:237 | over objects, the listing shows the first 20 categories, one line each, in order |
| DatabaseTool.CategoriesFaultAnywhere | langchain_agent/knowledge_base/database_tool.py:232-237 | the category listing raises iff any category, shown or not, is not an object |
| DatabaseTool.GetAvailableCuisines | langchain_agent/knowledge_base/database_tool.py:204-219 | the listing loop computes `AvailableCuisines` (3 categories, 2 restaurants per line) |
| DatabaseTool.GetAvailableRestaurants | langchain_agent/knowledge_base/database_tool.py:240-256 | the listing loop computes `AvailableRestaurants` (2 specialties per line) |
| DatabaseTool.GetDietaryOptions | langchain_agent/knowledge_base/database_tool.py:259-274 | the listing loop computes `AvailableDietaryOptions` (3 categories per line) |
| SimpleKnowledge.SimpleKnowledgeBase.SearchKnowledge | langchain_agent/knowledge_base/simple_knowledge_base.py:45-141 | the six scans, the general block when none matched, and the first five blocks joined, as `SearchResult` |
| SimpleKnowledge.SimpleKnowledgeBase.QueryDatabaseKnowledge | langchain_agent/knowledge_base/simple_knowledge_base.py:143-160 | the search's text, or the "Error querying knowledge base" text when it raises |
| SimpleKnowledge.QueryNeverRaises | langchain_agent/knowledge_base/simple_knowledge_base.py:153-160 | the tool gives an error text iff the search raises, with the "Error querying knowledge base" context |
| SimpleKnowledge.GeneralBlockWhenNothingMatches | langchain_agent/knowledge_base/simple_knowledge_base.py:131-139 | no block iff no entry of any of the six sections matches, and then the output is the general block alone |
| SimpleKnowledge.SearchShowsAtMostFive | langchain_agent/knowledge_base/simple_knowledge_base.py:141 | when some entry matched, the output joins the first five matched blocks (all when fewer), a prefix of the blocks in section order |
| SimpleKnowledge.ChainOfSuccesses | langchain_agent/knowledge_base/simple_knowledge_base.py:53-129 | when no scan raises, the blocks are the six sections' blocks in section order |
| SimpleKnowledge.FoodMatchesEveryCuisineAndFoodType | langchain_agent/knowledge_base/simple_knowledge_base.py:56 | with "food" in the query the blocks are every cuisine's, the matching category, restaurant and dietary blocks, every food type's, and the matching location blocks, in that order |
| SimpleKnowledge.LocationMatchesEveryRestaurantAndLocation | langchain_agent/knowledge_base/simple_knowledge_base.py:84 | with "location" in the query every restaurant and every location contributes its block, in section order |
| SimpleKnowledge.CuisineBlockTruncates | langchain_agent/knowledge_base/simple_knowledge_base.py:60-63 | a cuisine block depends only on the first 5 categories and the first 3 restaurants |
| SimpleKnowledge.SimpleKnowledgeBase.GetAvailableCuisines | langchain_agent/knowledge_base/simple_knowledge_base.py:162-176 | the fixed message when empty, else header plus one "- name (count items)" line per cuisine, or the error text |
| SimpleKnowledge.SimpleKnowledgeBase.GetAvailableCategories | langchain_agent/knowledge_base/simple_knowledge_base.py:178-192 | the same listing over categories |
| SimpleKnowledge.SimpleKnowledgeBase.GetAvailableFoodTypes | langchain_agent/knowledge_base/simple_knowledge_base.py:194-208 | the same listing over food types |
| SimpleKnowledge.SimpleKnowledgeBase.GetAvailableRestaurants | langchain_agent/knowledge_base/simple_knowledge_base.py:210-231 | the listing of restaurants with cuisine type and location, "Unknown" when absent |
| SimpleKnowledge.SimpleKnowledgeBase.GetDietaryOptions | langchain_agent/knowledge_base/simple_knowledge_base.py:233-247 | the same listing over dietary options |
| VectorKnowledge.VectorKnowledgeBase.QueryKnowledgeBase | langchain_agent/knowledge_base/vector_knowledge_base.py:36-98 | the five scans and the response built from them, as `Answer`; `max_results` does not enter it |
| VectorKnowledge.AtMostTenLines | langchain_agent/knowledge_base/vector_knowledge_base.py:83-91 | a found answer is the header naming the query, the first ten relevant lines (all when fewer, at least one) in scan order, then the fixed filter guidance |
| VectorKnowledge.NoLinesExactlyWhenNothingRelevant | langchain_agent/knowledge_base/vector_knowledge_base.py:47-81 | the scans yield nothing iff every entry read by categories is an object with no category containing the query and no category name contains it |
| VectorKnowledge.NoInfoExactlyWhenNothingRelevant | langchain_agent/knowledge_base/vector_knowledge_base.py:94-95 | the "No specific information found" text comes back iff nothing is relevant |
| VectorKnowledge.ByCategoryNothing | langchain_agent/knowledge_base/vector_knowledge_base.py:48-51 | a category-tested scan yields nothing iff every entry is an object none of whose categories contains the query |
| VectorKnowledge.ByNameNothing | langchain_agent/knowledge_base/vector_knowledge_base.py:54-55 | the categories scan yields nothing iff no category name contains the query |
| VectorKnowledge.CategoriesReadOnlyWhenNamed | langchain_agent/knowledge_base/vector_knowledge_base.py:55-56 | a non-object category raises iff the query occurs in its name |
| VectorKnowledge.OtherSectionsReadEveryEntry | langchain_agent/knowledge_base/vector_knowledge_base.py:49 | a non-object entry in a category-tested section makes the scan raise whatever the query |
| VectorKnowledge.EmptyQueryListsEveryCategory | langchain_agent/knowledge_base/vector_knowledge_base.py:55 | an empty query lists every category, in order |
| VectorKnowledge.EmptyQueryMatchesCategorisedEntries | langchain_agent/knowledge_base/vector_knowledge_base.py:50 | with an empty query an entry tested by its categories yields its line iff it has a category |
| VectorKnowledge.LongQueryFindsNothing | langchain_agent/knowledge_base/vector_knowledge_base.py:47-95 | a query longer than every category name finds nothing |
| VectorKnowledge.LongQueryNothingRelevant | langchain_agent/knowledge_base/vector_knowledge_base.py:50-79 | no category name shorter than the query can contain it |
| VectorKnowledge.VectorKnowledgeBase.GetAvailableRestaurants | langchain_agent/knowledge_base/vector_knowledge_base.py:142-147 | the tool is the search for the fixed question "What restaurants are available?" |
| VectorKnowledge.RestaurantsQuestionFindsNothing | langchain_agent/knowledge_base/vector_knowledge_base.py:142-147 | over category names of at most 30 characters the restaurants tool answers "No specific information found" |
| VectorKnowledge.VectorKnowledgeBase.GetAvailableCuisines | langchain_agent/knowledge_base/vector_knowledge_base.py:128-133 | the search for the fixed cuisine question |
| VectorKnowledge.VectorKnowledgeBase.GetAvailableCategories | langchain_agent/knowledge_base/vector_knowledge_base.py:135-140 | the search for the fixed category question |
| VectorKnowledge.VectorKnowledgeBase.GetDietaryOptions | langchain_agent/knowledge_base/vector_knowledge_base.py:149-154 | the search for the fixed dietary question |
| SimpleTools.QueryDatabaseKnowledge | langchain_agent/knowledge_base/simple_tools.py:36-71 | the three scans, the no-match message with the section sizes, the first three lines joined, or the error text, as `QueryOutput` |
| SimpleTools.AtMostThreeLines | langchain_agent/knowledge_base/simple_tools.py:67 | an answer other than the no-match text joins the first three scan lines (all when fewer, at least one), in scan order |
| SimpleTools.NoMatchExactlyWhenNoKeywordMet | langchain_agent/knowledge_base/simple_tools.py:46-65 | no line iff no keyword of any of the three sections is met, and then the answer is the message with the three section sizes |
| SimpleTools.GenericWordsMatchWholeSections | langchain_agent/knowledge_base/simple_tools.py:49-61 | "cuisine"/"food", "category"/"type" and "restaurant"/"place" each widen their section to every entry, in order |
| SimpleTools.FoodMatchesEveryCuisine | langchain_agent/knowledge_base/simple_tools.py:46-62 | with "food" the lines are every cuisine's, then the matching categories' and restaurants' |
| SimpleTools.FoodQueryShowsFirstThreeCuisines | langchain_agent/knowledge_base/simple_tools.py:46-67 | with "food" and at least three cuisines the answer is exactly the first three cuisine lines |
| SimpleTools.GetAvailableCuisines | langchain_agent/knowledge_base/simple_tools.py:73-89 | the fixed message when empty, else header plus "- name: count restaurants" per cuisine, or the error text |
| SimpleTools.GetAvailableCategories | langchain_agent/knowledge_base/simple_tools.py:91-107 | the same over categories, "- name: count items" |
| SimpleTools.GetAvailableRestaurants | langchain_agent/knowledge_base/simple_tools.py:109-129 | the same over restaurants, "- name: cuisine type cuisine" |
| SimpleTools.GetDietaryOptions | langchain_agent/knowledge_base/simple_tools.py:131-146 | the same over dietary options, one "- name" line each |
| SimpleTools.DietaryOptionsNeverErr | langchain_agent/knowledge_base/simple_tools.py:131-146 | the dietary listing never gives an error text: the fixed message iff empty, else every name |
| SimpleTools.DietaryLinesAreNames | langchain_agent/knowledge_base/simple_tools.py:140-141 | the dietary listing's lines are the option names, in order |
| SimpleTools.CuisineListingErrsOnNonObject | langchain_agent/knowledge_base/simple_tools.py:82-89 | the cuisine listing gives an error text iff some cuisine is not an object |

## Left out

- Loading the knowledge file and the module-level or instance loading (`_load_knowledge`, `_load_knowledge_data`, `_initialize_knowledge_base`) is file I/O. The loaded dictionary is an input of every tool.
- `print` and `logger` output, the `@tool` wrappers that only delegate to an instance, and the `__main__` test blocks are left out.
- The agent loop, HTTP API, memory manager, Pinecone search and price conversion are outside this model: they are network, database or library code.
- The text of an exception message is not modelled. An error result carries the tool's context string and the fault (which section and entry was not an object), not `str(e)`.
- Malformed field types other than a non-object entry are not modelled. Examples are a section that is not an object, a non-list `categories` and a non-string name. So are null criteria values and a non-dict `user_profile` other than `null`. Every list field is a list of strings and every count is an integer.
- `lower()` and `title()` are ASCII-only. Non-ASCII case mapping is not modelled.
- Prices are integers, not floats.
- Dictionary key order in the output filter is not modelled: the filter is a map.
- `name` in the `get_*_info` getters is a string, and the empty string stands for `None`.
- `DatabaseTool.DatabaseKnowledgeBase.GetFilterSuggestions`: the seven `if` blocks are modelled as a loop over a table of rules, in the same order with the same additions.
- `SimpleKnowledge.SimpleKnowledgeBase.SearchKnowledge`: the variables the source reuses across loops (`categories`, `restaurants`) are read by the general block only when nothing matched, and then they still hold the sections. So the model reads the sections directly.
