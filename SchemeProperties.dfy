/**
 * What the catalog queries guarantee, for every query, every profile and,
 * where the catalog's content does not matter, every catalog.
 */
module SchemeProperties {
  import opened Wrappers
  import opened JsArrays
  import opened JsStrings
  import opened JsNumbers
  import opened Schemes

  /*
   * Search.
   */

  /** The lower-cased query occurs in some lower-cased keyword of `s`. */
  predicate KeywordMatches(s: Scheme, query: string) {
    exists k | k in s.keywords :: Includes(ToLowerCase(k), ToLowerCase(query))
  }

  /** The keyword test of `searchSchemes` as a statement about the keyword list. */
  lemma {:induction false} MatchesKeywordsIff(keywords: seq<string>, lowercaseQuery: string)
    ensures MatchesKeywords(keywords, lowercaseQuery) <==>
      exists k | k in keywords :: Includes(ToLowerCase(k), lowercaseQuery)
  {
    AnyMember(keywords, (keyword: string) => Includes(ToLowerCase(keyword), lowercaseQuery));
  }

  /**
   * The match test spelled out as its five containment tests: a keyword, the
   * English name and the English description are compared lower-cased; the
   * Hindi name and the Hindi description are compared with the query as given.
   */
  lemma {:induction false} MatchesQueryIff(s: Scheme, query: string)
    ensures MatchesQuery(s, query) <==>
      || KeywordMatches(s, query)
      || Includes(ToLowerCase(s.name), ToLowerCase(query))
      || Includes(s.nameHindi, query)
      || Includes(ToLowerCase(s.description), ToLowerCase(query))
      || Includes(s.descriptionHindi, query)
  {
    MatchesKeywordsIff(s.keywords, ToLowerCase(query));
  }

  /** A record is found exactly when it is in the catalog and one of the five tests holds. */
  lemma {:induction false} SearchMembership(catalog: seq<Scheme>, query: string, s: Scheme)
    ensures s in Search(catalog, query) <==>
      && s in catalog
      && (|| KeywordMatches(s, query)
          || Includes(ToLowerCase(s.name), ToLowerCase(query))
          || Includes(s.nameHindi, query)
          || Includes(ToLowerCase(s.description), ToLowerCase(query))
          || Includes(s.descriptionHindi, query))
  {
    MatchesQueryIff(s, query);
  }

  /** Search keeps every matching occurrence: a catalog that lists a record twice yields it twice. */
  lemma {:induction false} SearchCounts(catalog: seq<Scheme>, query: string)
    ensures forall s :: multiset(Search(catalog, query))[s] == if MatchesQuery(s, query) then multiset(catalog)[s] else 0
  {
    FilterCounts(catalog, s => MatchesQuery(s, query));
  }

  /** The profile argument of `searchSchemes` has no effect. */
  lemma SearchIgnoresProfile(query: string, p1: Option<Profile>, p2: Option<Profile>)
    ensures SearchSchemes(query, p1) == SearchSchemes(query, p2)
  {
  }

  /** The empty query matches every record, so it returns the whole catalog. */
  lemma {:induction false} SearchEmptyQuery(catalog: seq<Scheme>)
    ensures Search(catalog, "") == catalog
  {
    forall s | s in catalog
      ensures MatchesQuery(s, "")
    {
      assert ToLowerCase("") == "";
      IncludesEmpty(ToLowerCase(s.name));
    }
    FilterKeepsAll(catalog, s => MatchesQuery(s, ""));
  }

  lemma SearchSchemesEmptyQuery(userProfile: Option<Profile>)
    ensures SearchSchemes("", userProfile) == GetAllSchemes()
  {
    SearchEmptyQuery(GetAllSchemes());
  }

  /** Searching two lists one after the other searches each; results keep catalog order. */
  lemma {:induction false} SearchConcat(a: seq<Scheme>, b: seq<Scheme>, query: string)
    ensures Search(a + b, query) == Search(a, query) + Search(b, query)
  {
    FilterConcat(a, b, s => MatchesQuery(s, query));
  }

  /** Matching central schemes come first, then matching state schemes, each in list order. */
  lemma SearchSchemesOrder(query: string, userProfile: Option<Profile>)
    ensures SearchSchemes(query, userProfile) == Search(GovernmentSchemes, query) + Search(StateSchemes, query)
  {
    SearchConcat(GovernmentSchemes, StateSchemes, query);
  }

  /**
   * Keywords, name and description are compared without regard to case: a
   * record whose English text contains any case variant of the query is found.
   */
  lemma {:induction false} SearchIgnoresEnglishCase(catalog: seq<Scheme>, s: Scheme, query: string, text: string)
    requires s in catalog
    requires ToLowerCase(text) == ToLowerCase(query)
    requires || Includes(s.name, text)
             || Includes(s.description, text)
             || (exists k | k in s.keywords :: Includes(k, text))
    ensures s in Search(catalog, query)
  {
    MatchesQueryIff(s, query);
    if Includes(s.name, text) {
      IncludesLowered(s.name, text);
    } else if Includes(s.description, text) {
      IncludesLowered(s.description, text);
    } else {
      var k :| k in s.keywords && Includes(k, text);
      IncludesLowered(k, text);
    }
  }

  /** Neither Hindi field contains an ASCII letter. */
  predicate HindiFieldsUnlettered(s: Scheme) {
    && (forall i | 0 <= i < |s.nameHindi| :: !IsAsciiLetter(s.nameHindi[i]))
    && (forall i | 0 <= i < |s.descriptionHindi| :: !IsAsciiLetter(s.descriptionHindi[i]))
  }

  /**
   * The Hindi fields are compared with the query as given; when they hold no
   * ASCII letter that makes no difference, and a query matches exactly when
   * its lower-cased form does.
   */
  lemma {:induction false} MatchesIgnoresQueryCase(s: Scheme, query: string)
    requires HindiFieldsUnlettered(s)
    ensures MatchesQuery(s, query) == MatchesQuery(s, ToLowerCase(query))
  {
    var lower := ToLowerCase(query);
    ToLowerCaseIdempotent(query);
    MatchesQueryIff(s, query);
    MatchesQueryIff(s, lower);
    assert KeywordMatches(s, query) == KeywordMatches(s, lower);
    HindiFieldIgnoresQueryCase(s.nameHindi, query);
    HindiFieldIgnoresQueryCase(s.descriptionHindi, query);
  }

  lemma {:induction false} HindiFieldIgnoresQueryCase(field: string, query: string)
    requires forall i | 0 <= i < |field| :: !IsAsciiLetter(field[i])
    ensures Includes(field, query) == Includes(field, ToLowerCase(query))
  {
    if Includes(field, query) {
      IncludedHasNoLetters(field, query);
      ToLowerCaseFixesNonLatin(query);
    }
    if Includes(field, ToLowerCase(query)) {
      IncludedHasNoLetters(field, ToLowerCase(query));
      forall i | 0 <= i < |query|
        ensures !IsAsciiLetter(query[i])
      {
        assert ToLowerCase(query)[i] == LowerChar(query[i]);
      }
      ToLowerCaseFixesNonLatin(query);
    }
  }

  /** Over a catalog whose Hindi fields hold no ASCII letter, search ignores the case of the query. */
  lemma {:induction false} SearchIgnoresQueryCase(catalog: seq<Scheme>, query: string)
    requires forall s | s in catalog :: HindiFieldsUnlettered(s)
    ensures Search(catalog, query) == Search(catalog, ToLowerCase(query))
  {
    forall s | s in catalog
      ensures MatchesQuery(s, query) == MatchesQuery(s, ToLowerCase(query))
    {
      MatchesIgnoresQueryCase(s, query);
    }
    FilterCongruent(catalog, s => MatchesQuery(s, query), s => MatchesQuery(s, ToLowerCase(query)));
  }

  /*
   * Eligibility.
   */

  /** The gender rule stated positively: who a record admits. */
  predicate GenderAdmits(s: Scheme, profile: Profile) {
    || s.gender == None
    || s.gender == Some(All)
    || !IsSet(profile.gender)
    || profile.gender.value == GenderText(s.gender.value)
  }

  /** The state rule stated positively. */
  predicate StateAdmits(s: Scheme, profile: Profile) {
    || s.category == Central
    || !IsSet(s.state)
    || !IsSet(profile.state)
    || profile.state.value == s.state.value
  }

  /** `income` is at most `limit`; a limit that is not a number admits every income. */
  predicate WithinLimit(income: real, limit: Number) {
    match limit
    case NaN => true
    case Finite(v) => income <= v
    case Infinity(negative) => !negative
  }

  /** The income rule stated positively. */
  predicate IncomeAdmits(s: Scheme, profile: Profile) {
    || !IsSet(s.incomeLimit)
    || !IsSetNumber(profile.income)
    || WithinLimit(profile.income.value, IncomeLimitValue(s.incomeLimit.value))
  }

  /** A record is returned exactly when it is in the catalog and each of the three rules admits the profile. */
  lemma {:induction false} EligibleMembership(catalog: seq<Scheme>, profile: Profile, s: Scheme)
    ensures s in Eligible(catalog, profile) <==>
      s in catalog && GenderAdmits(s, profile) && StateAdmits(s, profile) && IncomeAdmits(s, profile)
  {
    IsEligibleIff(s, profile);
  }

  /** The eligibility test of one record as the three rules stated positively. */
  lemma {:induction false} IsEligibleIff(s: Scheme, profile: Profile)
    ensures IsEligible(s, profile) <==> GenderAdmits(s, profile) && StateAdmits(s, profile) && IncomeAdmits(s, profile)
  {
    if s.incomeLimit.Some? {
      match IncomeLimitValue(s.incomeLimit.value)
      case NaN =>
      case Finite(_) =>
      case Infinity(_) =>
    }
  }

  /** Eligibility filtering keeps every eligible occurrence, as often as the catalog lists it. */
  lemma {:induction false} EligibleCounts(catalog: seq<Scheme>, profile: Profile)
    ensures forall s :: multiset(Eligible(catalog, profile))[s] == if IsEligible(s, profile) then multiset(catalog)[s] else 0
  {
    FilterCounts(catalog, s => IsEligible(s, profile));
  }

  /** Eligibility filtering keeps catalog order: eligible central schemes first, then eligible state schemes. */
  lemma GetEligibleSchemesOrder(profile: Profile)
    ensures GetEligibleSchemes(profile) == Eligible(GovernmentSchemes, profile) + Eligible(StateSchemes, profile)
  {
    FilterConcat(GovernmentSchemes, StateSchemes, s => IsEligible(s, profile));
  }

  /** A record for all genders, or one without a gender, is never excluded by gender. */
  lemma GenderNeverExcludesOpenRecords(s: Scheme, profile: Profile)
    requires s.gender == None || s.gender == Some(All) || !IsSet(profile.gender)
    ensures !ExcludedByGender(s, profile)
  {
  }

  /** A central record is never excluded by state, whatever the profile's state. */
  lemma CentralIgnoresState(s: Scheme, profile: Profile, state: Option<string>)
    requires s.category == Central
    ensures IsEligible(s, profile) == IsEligible(s, profile.(state := state))
  {
  }

  /** An absent or zero income never excludes, nor does a limit that does not parse as a number. */
  lemma IncomeRuleNeedsBothSides(s: Scheme, profile: Profile)
    requires || !IsSetNumber(profile.income)
             || s.incomeLimit == None
             || IncomeLimitValue(s.incomeLimit.value) == NaN
    ensures !ExcludedByIncome(s, profile)
  {
  }

  /**
   * Against a ceiling that reads as a number, a set income is excluded
   * exactly when it is above the ceiling.
   */
  lemma IncomeCeilingDecides(s: Scheme, profile: Profile, ceiling: real)
    requires IsSet(s.incomeLimit) && IsSetNumber(profile.income)
    requires IncomeLimitValue(s.incomeLimit.value) == Finite(ceiling)
    ensures ExcludedByIncome(s, profile) <==> profile.income.value > ceiling
  {
  }

  /** `loose` keeps each of gender, state and income of `strict` or leaves it out. */
  predicate Relaxes(loose: Profile, strict: Profile) {
    && (loose.gender == strict.gender || loose.gender == None)
    && (loose.state == strict.state || loose.state == None)
    && (loose.income == strict.income || loose.income == None)
  }

  /**
   * Leaving a profile field out never loses a record: the stricter profile's
   * result sits inside the looser profile's result, in the same order.
   */
  lemma {:induction false} EligibleGrowsAsProfileRelaxes(catalog: seq<Scheme>, strict: Profile, loose: Profile)
    requires Relaxes(loose, strict)
    ensures IsSubsequence(Eligible(catalog, strict), Eligible(catalog, loose))
  {
    FilterWeakens(catalog, s => IsEligible(s, strict), s => IsEligible(s, loose));
  }

  lemma GetEligibleSchemesGrowsAsProfileRelaxes(strict: Profile, loose: Profile)
    requires Relaxes(loose, strict)
    ensures IsSubsequence(GetEligibleSchemes(strict), GetEligibleSchemes(loose))
    ensures forall s | s in GetEligibleSchemes(strict) :: s in GetEligibleSchemes(loose)
  {
    EligibleGrowsAsProfileRelaxes(GetAllSchemes(), strict, loose);
  }

  /** The profile's age and category are never read. */
  lemma {:induction false} EligibleIgnoresAgeAndCategory(catalog: seq<Scheme>, profile: Profile, age: Option<real>, category: Option<string>)
    ensures Eligible(catalog, profile.(age := age, category := category)) == Eligible(catalog, profile)
  {
    var other := profile.(age := age, category := category);
    FilterCongruent(catalog, s => IsEligible(s, other), s => IsEligible(s, profile));
  }

  lemma GetEligibleSchemesIgnoresAgeAndCategory(profile: Profile, age: Option<real>, category: Option<string>)
    ensures GetEligibleSchemes(profile.(age := age, category := category)) == GetEligibleSchemes(profile)
  {
    EligibleIgnoresAgeAndCategory(GetAllSchemes(), profile, age, category);
  }

  /** A profile with no fields set excludes nothing. */
  lemma {:induction false} EmptyProfileKeepsAll(catalog: seq<Scheme>)
    ensures Eligible(catalog, Profile(None, None, None, None, None)) == catalog
  {
    FilterKeepsAll(catalog, s => IsEligible(s, Profile(None, None, None, None, None)));
  }

  /*
   * The income ceiling text.
   */

  /** Stripping `₹` and `,` from `₹`, a numeral and a unit text leaves the numeral and the unit text. */
  lemma {:induction false} StripRupee(ds: string, unit: string)
    requires forall i | 0 <= i < |ds| :: IsDigit(ds[i])
    requires '₹' !in unit && ',' !in unit
    ensures RemoveAll("₹" + ds + unit, {'₹', ','}) == ds + unit
  {
    var chars := {'₹', ','};
    var rest := ds + unit;
    assert "₹" + ds + unit == "₹" + rest;
    RemoveAllConcat("₹", rest, chars);
    RemoveAllOne('₹', chars);
    KeepsUnrupeed(ds, unit);
  }

  /** A numeral followed by a unit text without `₹` or `,` loses nothing. */
  lemma {:induction false} KeepsUnrupeed(ds: string, unit: string)
    requires forall i | 0 <= i < |ds| :: IsDigit(ds[i])
    requires '₹' !in unit && ',' !in unit
    ensures RemoveAll(ds + unit, {'₹', ','}) == ds + unit
  {
    var chars := {'₹', ','};
    RemoveAllConcat(ds, unit, chars);
    RemoveAllKeeps(ds, chars);
    RemoveAllKeeps(unit, chars);
  }

  /**
   * A ceiling written as `₹`, a numeral and a unit text: the numeral's value,
   * times 100000 when the unit text says `lakh`.
   */
  lemma {:induction false} IncomeLimitOfRupees(n: nat, unit: string)
    requires '₹' !in unit && ',' !in unit
    requires unit == [] || !(IsDigit(unit[0]) || unit[0] == '.' || unit[0] == 'e' || unit[0] == 'E')
    ensures IncomeLimitValue("₹" + DecimalOf(n) + unit)
            == Finite(n as real * if Includes(unit, "lakh") then 100000.0 else 1.0)
  {
    var ds := DecimalOf(n);
    StripRupee(ds, unit);
    IncomeLimitOfStripped("₹" + ds + unit, ds + unit);
    IncludesPastPrefix(ds, unit, "lakh");
    UnsignedDecimal(n, unit);
  }

  /** The ceiling a text denotes, read from the text with `₹` and `,` stripped. */
  lemma {:induction false} IncomeLimitOfStripped(text: string, stripped: string)
    requires RemoveAll(text, {'₹', ','}) == stripped
    ensures IncomeLimitValue(text)
            == Multiply(ParseFloat(stripped), if Includes(stripped, "lakh") then 100000.0 else 1.0)
  {
  }

  /** A numeral with neither white space nor a sign before it reads back as its value. */
  lemma {:induction false} UnsignedDecimal(n: nat, unit: string)
    requires unit == [] || !(IsDigit(unit[0]) || unit[0] == '.' || unit[0] == 'e' || unit[0] == 'E')
    ensures ParseFloat(DecimalOf(n) + unit) == Finite(n as real)
  {
    assert "" + "" + DecimalOf(n) + unit == DecimalOf(n) + unit;
    ParseFloatOfDecimal("", "", n, unit);
  }
}
