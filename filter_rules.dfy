/**
 * The rules the merge follows, stated over `MergedFilter`, the per-field
 * table `BuildFoodSearchFilter` is proved to compute.
 */
module FilterRules {
  import opened Wrappers
  import opened FilterBuilder

  /**
   * Safety: when the base filter is used, each allergy flag set in the
   * profile puts `$eq: false` under that allergy's key, and no other allergy
   * key appears, whatever the override flag and the criteria are.
   */
  lemma AllergyEntriesFollowProfile(base: Option<BaseFilter>, criteria: Option<Criteria>, useBaseFilter: bool, overridePreferences: bool)
    requires MergedFilter(base, criteria, useBaseFilter, overridePreferences).Success?
    ensures var m := MergedFilter(base, criteria, useBaseFilter, overridePreferences).value;
      forall key: Field | key.IsAllergy() ::
        && (key in m <==> UsesBase(base, useBaseFilter) && AllergyFlag(ProfileOf(base), key))
        && (key in m ==> m[key] == Eq(false))
  {
  }

  /** A non-empty list of other allergies is excluded verbatim; an empty one adds no key. */
  lemma OtherAllergiesExcludedVerbatim(base: Option<BaseFilter>, criteria: Option<Criteria>, useBaseFilter: bool, overridePreferences: bool)
    requires MergedFilter(base, criteria, useBaseFilter, overridePreferences).Success?
    ensures var m := MergedFilter(base, criteria, useBaseFilter, overridePreferences).value;
      && (OtherAllergies in m <==> UsesBase(base, useBaseFilter) && ProfileOf(base).otherAllergies != [])
      && (OtherAllergies in m ==> m[OtherAllergies] == Nin(ProfileOf(base).otherAllergies))
  {
  }

  /**
   * Without the base filter (switched off, null or empty) only the criteria
   * speak: no allergy, other-allergy or profile entry appears, and each key
   * present carries the criteria's value.
   */
  lemma WithoutBaseOnlyCriteria(base: Option<BaseFilter>, criteria: Option<Criteria>, useBaseFilter: bool, overridePreferences: bool)
    requires !UsesBase(base, useBaseFilter)
    requires MergedFilter(base, criteria, useBaseFilter, overridePreferences).Success?
    ensures var m := MergedFilter(base, criteria, useBaseFilter, overridePreferences).value;
      && m.Keys <= {CuisineType, DietaryPreferences, StudentPrice, StaffPrice, PeriodPlanOverride}
      && (m != map[] ==> criteria.Some?)
      && (CuisineType in m <==> criteria.Some? && criteria.value.cuisineType.Some?)
      && (CuisineType in m ==> m[CuisineType] == In(criteria.value.cuisineType.value))
      && (DietaryPreferences in m <==> criteria.Some? && criteria.value.dietaryPreferences.Some?)
      && (DietaryPreferences in m ==> m[DietaryPreferences] == In(criteria.value.dietaryPreferences.value))
      && (StudentPrice in m ==> m[StudentPrice] == Lte(criteria.value.maxPrice.value))
      && (StaffPrice in m ==> m[StaffPrice] == Lte(criteria.value.maxPrice.value))
      && (PeriodPlanOverride in m <==> criteria.Some? && criteria.value.periodPlan.Some?)
      && (PeriodPlanOverride in m ==> m[PeriodPlanOverride] == PeriodPlan(criteria.value.periodPlan.value))
  {
  }

  /**
   * The price field is the identity's: `student_price` only for students
   * (also when the identity is missing), `staff_price` only for staff, never
   * both, and none for any other identity. Without a criteria ceiling, the
   * profile's budget is the ceiling on the identity's field whenever the
   * base filter is used.
   */
  lemma PriceFieldFollowsIdentity(base: Option<BaseFilter>, criteria: Option<Criteria>, useBaseFilter: bool, overridePreferences: bool)
    requires MergedFilter(base, criteria, useBaseFilter, overridePreferences).Success?
    ensures var m := MergedFilter(base, criteria, useBaseFilter, overridePreferences).value;
      && !(StudentPrice in m && StaffPrice in m)
      && (StudentPrice in m ==> Identity(base) == "student")
      && (StaffPrice in m ==> Identity(base) == "staff")
      && (ProfileOf(base).userIdentity.None? ==> StaffPrice !in m)
    ensures var m := MergedFilter(base, criteria, useBaseFilter, overridePreferences).value;
      var budget := ProfileOf(base).budget;
      UsesBase(base, useBaseFilter) && budget.Some? && (criteria.None? || criteria.value.maxPrice.None?) ==>
        && (Identity(base) == "student" ==> StudentPrice in m && m[StudentPrice] == Lte(budget.value))
        && (Identity(base) == "staff" ==> StaffPrice in m && m[StaffPrice] == Lte(budget.value))
  {
  }

  /**
   * The last write wins: a criteria price ceiling replaces the profile
   * budget on the identity's price field, and criteria dietary tags replace
   * the profile's, whatever the override flag is.
   */
  lemma CriteriaOverwriteProfile(base: Option<BaseFilter>, c: Criteria, useBaseFilter: bool, overridePreferences: bool)
    requires MergedFilter(base, Some(c), useBaseFilter, overridePreferences).Success?
    ensures var m := MergedFilter(base, Some(c), useBaseFilter, overridePreferences).value;
      && (c.maxPrice.Some? && Identity(base) == "student" ==> StudentPrice in m && m[StudentPrice] == Lte(c.maxPrice.value))
      && (c.maxPrice.Some? && Identity(base) == "staff" ==> StaffPrice in m && m[StaffPrice] == Lte(c.maxPrice.value))
      && (c.dietaryPreferences.Some? ==> DietaryPreferences in m && m[DietaryPreferences] == In(c.dietaryPreferences.value))
  {
  }

  /**
   * For criteria given as a dictionary, the override flag changes nothing:
   * the profile entries it suppresses are exactly those the criteria
   * overwrite anyway. (Null criteria differ: overriding then raises.) The
   * table has no override parameter, so over `MergedFilter` this holds by
   * definition; what carries it is `FilterBuilder.BuildFoodSearchFilter`
   * being proved equal to that table, with `FilterBuilder.WritesInOrder`
   * showing that a skipped profile write is always overwritten.
   */
  lemma OverrideChangesNothing(base: Option<BaseFilter>, c: Criteria, useBaseFilter: bool)
    ensures MergedFilter(base, Some(c), useBaseFilter, true) == MergedFilter(base, Some(c), useBaseFilter, false)
  {
  }

  /** Every key of the filter sent to the search is one of the eleven the builder knows. */
  lemma WireKeysAreKnown(m: Filter)
    ensures WireFilter(m).Keys <= {
      "milk_allergy", "eggs_allergy", "peanuts_allergy", "tree_nuts_allergy", "shellfish_allergy",
      "other_allergies", "dietary_preferences", "student_price", "staff_price",
      "cuisine_type", "_period_plan_override"}
  {
  }

  /**
   * The exceptions caught into `{"error": ...}`: a null base filter when the
   * criteria carry a price ceiling, and null criteria when overriding with
   * the base filter in use.
   */
  lemma ErrorResults(base: Option<BaseFilter>, criteria: Option<Criteria>, useBaseFilter: bool, overridePreferences: bool)
    ensures base.None? && criteria.Some? && criteria.value.maxPrice.Some? ==>
      MergedFilter(base, criteria, useBaseFilter, overridePreferences) == Failure(NullBaseFilter)
    ensures UsesBase(base, useBaseFilter) && !base.value.userProfile.Null? && overridePreferences && criteria.None? ==>
      MergedFilter(base, criteria, useBaseFilter, overridePreferences) == Failure(NullSearchCriteria)
    ensures UsesBase(base, useBaseFilter) && base.value.userProfile.Null? ==>
      MergedFilter(base, criteria, useBaseFilter, overridePreferences) == Failure(NullUserProfile)
  {
  }

  /** The default template asks for nothing: merged with empty criteria it yields an empty filter. */
  lemma DefaultTemplateFiltersNothing(userId: string, useBaseFilter: bool, overridePreferences: bool)
    ensures MergedFilter(Some(DefaultUserFilter(userId)), Some(NoCriteria), useBaseFilter, overridePreferences) == Success(map[])
  {
  }

  /**
   * A student with an 800 budget and a milk allergy asks for items up to 500
   * without overriding: the milk allergy is kept and the ceiling is the
   * criteria's 500, not the profile's 800.
   */
  lemma CriteriaCeilingBeatsBudget()
    ensures
      var profile := Profile(true, false, false, false, false, [], [], Some("student"), Some(800));
      var base := Some(BaseFilter(None, Given(profile), None));
      var criteria := Some(Criteria(None, Some(500), None, None));
      var r := MergedFilter(base, criteria, true, false);
      && r.Success?
      && r.value[MilkAllergy] == Eq(false)
      && r.value[StudentPrice] == Lte(500)
      && StaffPrice !in r.value
  {
  }
}
