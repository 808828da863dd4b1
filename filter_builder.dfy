/**
 * The filter builder: it turns a user's stored profile (allergies, dietary
 * preferences, identity, budget) and the criteria of one search into the flat
 * metadata filter handed to the vector search.
 *
 * `BuildFoodSearchFilter` fills the filter one key at a time, as the service
 * does, so later writes overwrite earlier ones. `MergedFilter` says, key by
 * key, which write ends up in the filter; the method is proved to compute it,
 * and the lemmas below state the safety and precedence rules of the merge.
 */
module FilterBuilder {
  import opened Wrappers

  /** Prices and budgets, in the smallest currency unit. */
  type Price = int

  /**
   * The `user_profile` dictionary. A missing or null allergy flag reads as
   * false and a missing or null list as empty, exactly as `.get` and Python
   * truthiness treat them. `userIdentity` is `None` when the key is missing.
   */
  datatype Profile = Profile(
    milkAllergy: bool,
    eggsAllergy: bool,
    peanutsAllergy: bool,
    treeNutsAllergy: bool,
    shellfishAllergy: bool,
    otherAllergies: seq<string>,
    dietaryPreferences: seq<string>,
    userIdentity: Option<string>,
    budget: Option<Price>)

  /** The `user_profile` entry of a base filter: missing, present but null, or a dictionary. */
  datatype ProfileSlot = Missing | Null | Given(profile: Profile)

  /** The base filter dictionary; a missing key is `None`/`Missing`. */
  datatype BaseFilter = BaseFilter(description: Option<string>, userProfile: ProfileSlot, instructions: Option<string>)
  {
    /** Python truthiness of the dictionary: it has at least one key. */
    predicate NonEmpty() {
      description.Some? || !userProfile.Missing? || instructions.Some?
    }
  }

  /** The search-criteria dictionary; each field is `None` when its key is missing. */
  datatype Criteria = Criteria(
    cuisineType: Option<seq<string>>,
    maxPrice: Option<Price>,
    dietaryPreferences: Option<seq<string>>,
    periodPlan: Option<string>)

  /** One operator object of the filter. */
  datatype Constraint =
    | Eq(flag: bool)              // {"$eq": flag}
    | Nin(values: seq<string>)    // {"$nin": values}
    | In(values: seq<string>)     // {"$in": values}
    | Lte(limit: Price)           // {"$lte": limit}
    | PeriodPlan(raw: string)     // the raw period-plan value, no operator

  /** The keys the filter builder writes. */
  datatype Field =
    | MilkAllergy | EggsAllergy | PeanutsAllergy | TreeNutsAllergy | ShellfishAllergy
    | OtherAllergies | DietaryPreferences | StudentPrice | StaffPrice | CuisineType | PeriodPlanOverride
  {
    /** The key as it appears in the filter dictionary. */
    function Name(): string {
      match this
      case MilkAllergy => "milk_allergy"
      case EggsAllergy => "eggs_allergy"
      case PeanutsAllergy => "peanuts_allergy"
      case TreeNutsAllergy => "tree_nuts_allergy"
      case ShellfishAllergy => "shellfish_allergy"
      case OtherAllergies => "other_allergies"
      case DietaryPreferences => "dietary_preferences"
      case StudentPrice => "student_price"
      case StaffPrice => "staff_price"
      case CuisineType => "cuisine_type"
      case PeriodPlanOverride => "_period_plan_override"
    }

    predicate IsAllergy() {
      MilkAllergy? || EggsAllergy? || PeanutsAllergy? || TreeNutsAllergy? || ShellfishAllergy?
    }
  }

  /** The merged filter, keyed by field. */
  type Filter = map<Field, Constraint>

  /**
   * The exception that turns the result into `{"error": ...}`: calling `.get`
   * on a null `user_profile` or a null base filter, or testing `in` on null criteria.
   */
  datatype FilterError = NullUserProfile | NullBaseFilter | NullSearchCriteria

  /** The filter as the dictionary the vector search receives. */
  function WireFilter(m: Filter): (w: map<string, Constraint>)
    ensures forall f :: f in m ==> f.Name() in w && w[f.Name()] == m[f]
    ensures forall k :: k in w ==> exists f :: f in m && f.Name() == k
  {
    map f | f in m :: f.Name() := m[f]
  }

  /** The profile `.get` reads from a dictionary without a `user_profile` key. */
  const EmptyProfile := Profile(false, false, false, false, false, [], [], None, None)

  const NoCriteria := Criteria(None, None, None, None)

  const TemplateInstructions :=
    "Replace the placeholder values with actual user profile data from get_item result. The agent will transform user_identity + budget into the appropriate price field filter."

  /** `build_default_user_filter`: the profile template handed to the agent. */
  function DefaultUserFilter(userId: string): (b: BaseFilter)
    ensures b.NonEmpty() && b.userProfile.Given?
    ensures var p := b.userProfile.profile;
      && !p.milkAllergy && !p.eggsAllergy && !p.peanutsAllergy && !p.treeNutsAllergy && !p.shellfishAllergy
      && p.otherAllergies == [] && p.dietaryPreferences == []
      && p.userIdentity == Some("student") && p.budget == None
  {
    BaseFilter(
      Some("Base filter template for user " + userId),
      Given(Profile(false, false, false, false, false, [], [], Some("student"), None)),
      Some(TemplateInstructions))
  }

  /** `use_base_filter and base_filter`: whether the profile part of the merge runs. */
  predicate UsesBase(base: Option<BaseFilter>, useBaseFilter: bool) {
    useBaseFilter && base.Some? && base.value.NonEmpty()
  }

  /** `base_filter.get("user_profile", {})`, for a profile slot that is not null. */
  function ProfileOf(base: Option<BaseFilter>): Profile {
    if base.Some? && base.value.userProfile.Given? then base.value.userProfile.profile else EmptyProfile
  }

  /** `user_profile.get("user_identity", "student")`. */
  function Identity(base: Option<BaseFilter>): string {
    ProfileOf(base).userIdentity.GetOr("student")
  }

  /** The price field an identity is filtered on: students and staff pay different prices. */
  function PriceKey(identity: string): Option<Field> {
    if identity == "student" then Some(StudentPrice)
    else if identity == "staff" then Some(StaffPrice)
    else None
  }

  /** The profile's flag for an allergy field. */
  function AllergyFlag(p: Profile, key: Field): bool {
    match key
    case MilkAllergy => p.milkAllergy
    case EggsAllergy => p.eggsAllergy
    case PeanutsAllergy => p.peanutsAllergy
    case TreeNutsAllergy => p.treeNutsAllergy
    case ShellfishAllergy => p.shellfishAllergy
    case _ => false
  }

  /** The exception the merge raises, in the order the code would reach it, if any. */
  function MergeError(base: Option<BaseFilter>, criteria: Option<Criteria>, useBaseFilter: bool, overridePreferences: bool): Option<FilterError> {
    var wantsPrice := criteria.Some? && criteria.value.maxPrice.Some?;
    if UsesBase(base, useBaseFilter) && base.value.userProfile.Null? then Some(NullUserProfile)
    else if UsesBase(base, useBaseFilter) && overridePreferences && criteria.None? then Some(NullSearchCriteria)
    else if wantsPrice && base.None? then Some(NullBaseFilter)
    else if wantsPrice && base.value.userProfile.Null? then Some(NullUserProfile)
    else None
  }

  /**
   * The constraint the merged filter holds under `key`, if any: the table of
   * who wins. Allergy entries come from the profile only; a criteria value
   * beats the profile's for the dietary and price keys; the price key is the
   * one the identity selects.
   */
  function FieldConstraint(base: Option<BaseFilter>, criteria: Option<Criteria>, useBaseFilter: bool, key: Field): Option<Constraint> {
    var p := ProfileOf(base);
    var applied := UsesBase(base, useBaseFilter);
    var c := criteria.GetOr(NoCriteria);
    if key.IsAllergy() then
      if applied && AllergyFlag(p, key) then Some(Eq(false)) else None
    else if key == OtherAllergies then
      if applied && p.otherAllergies != [] then Some(Nin(p.otherAllergies)) else None
    else if key == DietaryPreferences then
      if c.dietaryPreferences.Some? then Some(In(c.dietaryPreferences.value))
      else if applied && p.dietaryPreferences != [] then Some(In(p.dietaryPreferences))
      else None
    else if PriceKey(Identity(base)) == Some(key) then
      if c.maxPrice.Some? then Some(Lte(c.maxPrice.value))
      else if applied && p.budget.Some? then Some(Lte(p.budget.value))
      else None
    else if key == CuisineType then
      if c.cuisineType.Some? then Some(In(c.cuisineType.value)) else None
    else if key == PeriodPlanOverride then
      if c.periodPlan.Some? then Some(PeriodPlan(c.periodPlan.value)) else None
    else None
  }

  /** The result of the merge: the error, or every key whose constraint is defined. */
  function MergedFilter(base: Option<BaseFilter>, criteria: Option<Criteria>, useBaseFilter: bool, overridePreferences: bool): Result<Filter, FilterError> {
    match MergeError(base, criteria, useBaseFilter, overridePreferences)
    case Some(e) => Failure(e)
    case None =>
      Success(map key: Field | FieldConstraint(base, criteria, useBaseFilter, key).Some? ::
                FieldConstraint(base, criteria, useBaseFilter, key).value)
  }

  /** `m.get(key)`. */
  function Get(m: Filter, key: Field): Option<Constraint> {
    if key in m then Some(m[key]) else None
  }

  /** A filter is determined by what it holds under each field. */
  lemma FilterByFields(m: Filter, e: Filter)
    requires forall key :: Get(m, key) == Get(e, key)
    ensures m == e
  {
    assert forall key :: key in m <==> key in e by {
      forall key ensures key in m <==> key in e {
        assert Get(m, key) == Get(e, key);
      }
    }
    forall key | key in m ensures m[key] == e[key] {
      assert Get(m, key) == Get(e, key);
    }
  }

  /** What the profile's safety entries put under `key`: allergy flags and other allergies. */
  function AllergyWrite(p: Profile, key: Field): Option<Constraint> {
    if key.IsAllergy() && AllergyFlag(p, key) then Some(Eq(false))
    else if key.OtherAllergies? && p.otherAllergies != [] then Some(Nin(p.otherAllergies))
    else None
  }

  /** What the profile's preference entries put under `key`: dietary tags and the budget on the identity's price field. */
  function PreferenceWrite(p: Profile, identity: string, c: Criteria, overridePreferences: bool, key: Field): Option<Constraint> {
    if key.DietaryPreferences? then
      if (!overridePreferences || c.dietaryPreferences.None?) && p.dietaryPreferences != [] then Some(In(p.dietaryPreferences)) else None
    else if PriceKey(identity) == Some(key) then
      if (!overridePreferences || c.maxPrice.None?) && p.budget.Some? then Some(Lte(p.budget.value)) else None
    else None
  }

  /** What the criteria put under `key`; these writes come last and overwrite the profile's. */
  function CriteriaWrite(identity: string, c: Criteria, key: Field): Option<Constraint> {
    match key
    case CuisineType => if c.cuisineType.Some? then Some(In(c.cuisineType.value)) else None
    case DietaryPreferences => if c.dietaryPreferences.Some? then Some(In(c.dietaryPreferences.value)) else None
    case PeriodPlanOverride => if c.periodPlan.Some? then Some(PeriodPlan(c.periodPlan.value)) else None
    case _ => if c.maxPrice.Some? && PriceKey(identity) == Some(key) then Some(Lte(c.maxPrice.value)) else None
  }

  /** `m` after the writes in `w`: a written key takes the new value, every other key keeps its old one. */
  ghost predicate Overwritten(m: Filter, old_m: Filter, w: Field -> Option<Constraint>) {
    forall key :: Get(m, key) == if w(key).Some? then w(key) else Get(old_m, key)
  }

  /** The safety block of the merge: one `$eq: false` per allergy flag set, and the other allergies excluded. */
  method AddAllergyEntries(profile: Profile, filter: Filter) returns (r: Filter)
    ensures Overwritten(r, filter, key => AllergyWrite(profile, key))
  {
    r := filter;
    if profile.milkAllergy {
      r := r[MilkAllergy := Eq(false)];
    }
    if profile.eggsAllergy {
      r := r[EggsAllergy := Eq(false)];
    }
    if profile.peanutsAllergy {
      r := r[PeanutsAllergy := Eq(false)];
    }
    if profile.treeNutsAllergy {
      r := r[TreeNutsAllergy := Eq(false)];
    }
    if profile.shellfishAllergy {
      r := r[ShellfishAllergy := Eq(false)];
    }
    if profile.otherAllergies != [] {
      r := r[OtherAllergies := Nin(profile.otherAllergies)];
    }
  }

  /**
   * The preference block of the merge: the profile's dietary tags and its
   * budget on the identity's price field, each skipped when overriding and
   * the criteria carry their own. Fails when overriding with null criteria.
   */
  method AddPreferenceEntries(profile: Profile, identity: string, criteria: Option<Criteria>, overridePreferences: bool, filter: Filter)
    returns (r: Result<Filter, FilterError>)
    ensures r.Failure? <==> overridePreferences && criteria.None?
    ensures r.Failure? ==> r.error == NullSearchCriteria
    ensures r.Success? ==>
      Overwritten(r.value, filter, key => PreferenceWrite(profile, identity, criteria.GetOr(NoCriteria), overridePreferences, key))
  {
    var m := filter;
    // `not override_preferences or "dietary_preferences" not in search_criteria` fails on null criteria
    if overridePreferences && criteria.None? {
      return Failure(NullSearchCriteria);
    }
    if !overridePreferences || criteria.value.dietaryPreferences.None? {
      if profile.dietaryPreferences != [] {
        m := m[DietaryPreferences := In(profile.dietaryPreferences)];
      }
    }
    if !overridePreferences || criteria.value.maxPrice.None? {
      if profile.budget.Some? {
        if identity == "student" {
          m := m[StudentPrice := Lte(profile.budget.value)];
        } else if identity == "staff" {
          m := m[StaffPrice := Lte(profile.budget.value)];
        }
      }
    }
    return Success(m);
  }

  /**
   * The criteria block of the merge: cuisine, price ceiling, dietary tags and
   * period plan, each overwriting what the profile wrote. The price field is
   * chosen by the base filter's identity, which is read even when the base
   * filter is not used, so a null base filter or profile fails here.
   */
  method AddCriteriaEntries(base: Option<BaseFilter>, c: Criteria, filter: Filter) returns (r: Result<Filter, FilterError>)
    ensures r.Failure? <==> c.maxPrice.Some? && (base.None? || base.value.userProfile.Null?)
    ensures r.Failure? ==> r.error == if base.None? then NullBaseFilter else NullUserProfile
    ensures r.Success? ==> Overwritten(r.value, filter, key => CriteriaWrite(Identity(base), c, key))
  {
    var m := filter;
    if c.cuisineType.Some? {
      m := m[CuisineType := In(c.cuisineType.value)];
    }
    if c.maxPrice.Some? {
      if base.None? {
        return Failure(NullBaseFilter);
      }
      if base.value.userProfile.Null? {
        return Failure(NullUserProfile);
      }
      var identity := Identity(base);
      if identity == "student" {
        m := m[StudentPrice := Lte(c.maxPrice.value)];
      } else if identity == "staff" {
        m := m[StaffPrice := Lte(c.maxPrice.value)];
      }
    }
    if c.dietaryPreferences.Some? {
      m := m[DietaryPreferences := In(c.dietaryPreferences.value)];
    }
    if c.periodPlan.Some? {
      m := m[PeriodPlanOverride := PeriodPlan(c.periodPlan.value)];
    }
    return Success(m);
  }

  /** The per-field table is the three blocks' writes applied in order, the later winning. */
  lemma WritesInOrder(base: Option<BaseFilter>, criteria: Option<Criteria>, useBaseFilter: bool, overridePreferences: bool, key: Field)
    requires MergeError(base, criteria, useBaseFilter, overridePreferences).None?
    ensures
      var p := ProfileOf(base);
      var first := if UsesBase(base, useBaseFilter) then AllergyWrite(p, key) else None;
      var second := if UsesBase(base, useBaseFilter) then PreferenceWrite(p, Identity(base), criteria.GetOr(NoCriteria), overridePreferences, key) else None;
      var third := if criteria.Some? then CriteriaWrite(Identity(base), criteria.value, key) else None;
      FieldConstraint(base, criteria, useBaseFilter, key) ==
        if third.Some? then third else if second.Some? then second else first
  {
  }

  /**
   * `build_food_search_filter`: the profile's safety entries and preference
   * entries when the base filter is used, then the criteria's entries, each
   * write replacing any earlier one under the same key; an exception on the
   * way yields the error result instead.
   */
  method BuildFoodSearchFilter(base: Option<BaseFilter>, criteria: Option<Criteria>, useBaseFilter: bool, overridePreferences: bool)
    returns (r: Result<Filter, FilterError>)
    ensures r == MergedFilter(base, criteria, useBaseFilter, overridePreferences)
  {
    var finalFilter: Filter := map[];
    if useBaseFilter && base.Some? && base.value.NonEmpty() {
      if base.value.userProfile.Null? {
        return Failure(NullUserProfile);
      }
      var profile := ProfileOf(base);
      finalFilter := AddAllergyEntries(profile, finalFilter);
      var withPreferences := AddPreferenceEntries(profile, Identity(base), criteria, overridePreferences, finalFilter);
      if withPreferences.Failure? {
        return Failure(withPreferences.error);
      }
      finalFilter := withPreferences.value;
    }
    if criteria.Some? {
      var withCriteria := AddCriteriaEntries(base, criteria.value, finalFilter);
      if withCriteria.Failure? {
        return Failure(withCriteria.error);
      }
      finalFilter := withCriteria.value;
    }
    ghost var expected := map key: Field | FieldConstraint(base, criteria, useBaseFilter, key).Some? ::
                            FieldConstraint(base, criteria, useBaseFilter, key).value;
    forall key ensures Get(finalFilter, key) == Get(expected, key) {
      WritesInOrder(base, criteria, useBaseFilter, overridePreferences, key);
    }
    FilterByFields(finalFilter, expected);
    r := Success(finalFilter);
  }
}
