/**
 * The scheme catalog and its two queries: the record shape, the list of
 * central schemes and the list of state schemes, `getAllSchemes`,
 * `searchSchemes` and `getEligibleSchemes` with its three exclusion rules.
 * Records carry only the fields the queries read.
 */
module Schemes {
  import opened Wrappers
  import opened JsArrays
  import opened JsStrings
  import opened JsNumbers

  datatype Category = Central | State

  datatype Gender = Male | Female | All

  /** The text a record's gender is compared with. */
  function GenderText(g: Gender): string {
    match g
    case Male => "male"
    case Female => "female"
    case All => "all"
  }

  /** A catalog record (`GovernmentScheme`), restricted to the fields the queries read. */
  datatype Scheme = Scheme(
    id: string,
    name: string,
    nameHindi: string,
    description: string,
    descriptionHindi: string,
    state: Option<string>,
    category: Category,
    incomeLimit: Option<string>,
    gender: Option<Gender>,
    keywords: seq<string>)

  /** The profile `getEligibleSchemes` is given; every field may be absent. */
  datatype Profile = Profile(
    age: Option<real>,
    gender: Option<string>,
    state: Option<string>,
    income: Option<real>,
    category: Option<string>)

  /*
   * The catalog (src/data/schemes.ts).
   */

  const PmKisan: Scheme := Scheme(
    id := "pm-kisan",
    name := "PM Kisan Samman Nidhi",
    nameHindi := "प्रधानमंत्री किसान सम्मान निधि",
    description := "Financial support to small and marginal farmers across India",
    descriptionHindi := "भारत भर के छोटे और सीमांत किसानों को वित्तीय सहायता",
    state := None,
    category := Central,
    incomeLimit := Some("No income limit"),
    gender := Some(All),
    keywords := ["farmer", "agriculture", "kisan", "money", "financial support"])

  const PmAwasYojana: Scheme := Scheme(
    id := "pradhan-mantri-awas-yojana",
    name := "Pradhan Mantri Awas Yojana",
    nameHindi := "प्रधानमंत्री आवास योजना",
    description := "Housing for All scheme providing affordable housing",
    descriptionHindi := "सभी के लिए आवास योजना जो किफायती आवास प्रदान करती है",
    state := None,
    category := Central,
    incomeLimit := Some("₹18 lakh annually"),
    gender := Some(All),
    keywords := ["house", "home", "awas", "housing", "loan", "subsidy"])

  const AyushmanBharat: Scheme := Scheme(
    id := "ayushman-bharat",
    name := "Ayushman Bharat - PM JAY",
    nameHindi := "आयुष्मान भारत - पीएम जय",
    description := "Health insurance scheme providing free treatment",
    descriptionHindi := "स्वास्थ्य बीमा योजना जो मुफ्त इलाज प्रदान करती है",
    state := None,
    category := Central,
    incomeLimit := None,
    gender := Some(All),
    keywords := ["health", "medical", "insurance", "treatment", "hospital", "swasthya"])

  const BetiBachaoBetiPadhao: Scheme := Scheme(
    id := "beti-bachao-beti-padhao",
    name := "Beti Bachao Beti Padhao",
    nameHindi := "बेटी बचाओ बेटी पढ़ाओ",
    description := "Scheme for survival, protection and education of girl children",
    descriptionHindi := "बालिकाओं के अस्तित्व, सुरक्षा और शिक्षा के लिए योजना",
    state := None,
    category := Central,
    incomeLimit := None,
    gender := Some(Female),
    keywords := ["girl", "education", "beti", "daughter", "school", "study"])

  const PmMudraYojana: Scheme := Scheme(
    id := "pm-mudra-yojana",
    name := "PM MUDRA Yojana",
    nameHindi := "प्रधानमंत्री मुद्रा योजना",
    description := "Micro-finance scheme for small businesses and entrepreneurs",
    descriptionHindi := "छोटे व्यवसाय और उद्यमियों के लिए सूक्ष्म वित्त योजना",
    state := None,
    category := Central,
    incomeLimit := None,
    gender := Some(All),
    keywords := ["business", "loan", "mudra", "entrepreneur", "startup", "vyavasaya"])

  const SukanyaSamriddhiYojana: Scheme := Scheme(
    id := "sukanya-samriddhi-yojana",
    name := "Sukanya Samriddhi Yojana",
    nameHindi := "सुकन्या समृद्धि योजना",
    description := "Savings scheme for girl children with high interest rates",
    descriptionHindi := "उच्च ब्याज दर के साथ बालिकाओं के लिए बचत योजना",
    state := None,
    category := Central,
    incomeLimit := None,
    gender := Some(Female),
    keywords := ["savings", "girl", "investment", "future", "education", "sukanya"])

  const PmUjjwalaYojana: Scheme := Scheme(
    id := "pm-ujjwala-yojana",
    name := "PM Ujjwala Yojana",
    nameHindi := "प्रधानमंत्री उज्ज्वला योजना",
    description := "Free LPG connections to women from BPL families",
    descriptionHindi := "बीपीएल परिवारों की महिलाओं को मुफ्त एलपीजी कनेक्शन",
    state := None,
    category := Central,
    incomeLimit := None,
    gender := Some(Female),
    keywords := ["gas", "cooking", "lpg", "cylinder", "fuel", "ujjwala"])

  const NationalPensionScheme: Scheme := Scheme(
    id := "national-pension-scheme",
    name := "National Pension Scheme (NPS)",
    nameHindi := "राष्ट्रीय पेंशन योजना (एनपीएस)",
    description := "Retirement savings scheme with market-linked returns",
    descriptionHindi := "बाजार-आधारित रिटर्न के साथ सेवानिवृत्ति बचत योजना",
    state := None,
    category := Central,
    incomeLimit := None,
    gender := Some(All),
    keywords := ["pension", "retirement", "savings", "investment", "nps", "old age"])

  const UpKanyaSumangala: Scheme := Scheme(
    id := "up-kanya-sumangala",
    name := "UP Kanya Sumangala Yojana",
    nameHindi := "उत्तर प्रदेश कन्या सुमंगला योजना",
    description := "Financial assistance for girl children in UP at different life stages",
    descriptionHindi := "उत्तर प्रदेश में बालिकाओं के जीवन के विभिन्न चरणों में वित्तीय सहायता",
    state := Some("Uttar Pradesh"),
    category := State,
    incomeLimit := Some("₹3 lakh annually"),
    gender := Some(Female),
    keywords := ["girl", "education", "uttar pradesh", "kanya", "financial aid"])

  const KarnatakaAnnaBhagya: Scheme := Scheme(
    id := "karnataka-anna-bhagya",
    name := "Karnataka Anna Bhagya Yojana",
    nameHindi := "कर्नाटक अन्न भाग्य योजना",
    description := "Free rice distribution scheme for BPL families in Karnataka",
    descriptionHindi := "कर्नाटक में बीपीएल परिवारों के लिए मुफ्त चावल वितरण योजना",
    state := Some("Karnataka"),
    category := State,
    incomeLimit := None,
    gender := Some(All),
    keywords := ["rice", "food", "karnataka", "anna", "ration", "grain"])

  /** The central schemes, in catalog order. */
  const GovernmentSchemes: seq<Scheme> := [
    PmKisan, PmAwasYojana, AyushmanBharat, BetiBachaoBetiPadhao,
    PmMudraYojana, SukanyaSamriddhiYojana, PmUjjwalaYojana, NationalPensionScheme]

  /** The state schemes, in catalog order. */
  const StateSchemes: seq<Scheme> := [UpKanyaSumangala, KarnatakaAnnaBhagya]

  /** `getAllSchemes()`: the central list followed by the state list. */
  function GetAllSchemes(): (r: seq<Scheme>)
    ensures |r| == |GovernmentSchemes| + |StateSchemes|
    ensures forall i | 0 <= i < |GovernmentSchemes| :: r[i] == GovernmentSchemes[i]
    ensures forall i | 0 <= i < |StateSchemes| :: r[|GovernmentSchemes| + i] == StateSchemes[i]
  {
    GovernmentSchemes + StateSchemes
  }

  /*
   * Search.
   */

  /** Some keyword, lower-cased, contains `lowercaseQuery`. */
  predicate MatchesKeywords(keywords: seq<string>, lowercaseQuery: string) {
    Any(keywords, (keyword: string) => Includes(ToLowerCase(keyword), lowercaseQuery))
  }

  /**
   * The test `searchSchemes` applies to a record: the lower-cased query in a
   * lower-cased keyword, name or description, or the query as given in the
   * Hindi name or description.
   */
  predicate MatchesQuery(scheme: Scheme, query: string) {
    var lowercaseQuery := ToLowerCase(query);
    var matchesKeywords := MatchesKeywords(scheme.keywords, lowercaseQuery);
    var matchesName := Includes(ToLowerCase(scheme.name), lowercaseQuery) || Includes(scheme.nameHindi, query);
    var matchesDescription := Includes(ToLowerCase(scheme.description), lowercaseQuery)
                              || Includes(scheme.descriptionHindi, query);
    matchesKeywords || matchesName || matchesDescription
  }

  /** The records of `catalog` that `query` matches, in catalog order. */
  function Search(catalog: seq<Scheme>, query: string): (r: seq<Scheme>)
    ensures IsSubsequence(r, catalog)
    ensures forall s :: s in r <==> s in catalog && MatchesQuery(s, query)
  {
    FilterIsSubsequence(catalog, s => MatchesQuery(s, query));
    Filter(catalog, s => MatchesQuery(s, query))
  }

  /** `searchSchemes(query, userProfile)`: the profile is accepted and never read. */
  function SearchSchemes(query: string, userProfile: Option<Profile>): (r: seq<Scheme>)
    ensures IsSubsequence(r, GetAllSchemes())
  {
    Search(GetAllSchemes(), query)
  }

  /*
   * Eligibility.
   */

  /** JavaScript truthiness of an optional string: present and not empty. */
  predicate IsSet(field: Option<string>) {
    field.Some? && field.value != ""
  }

  /** JavaScript truthiness of an optional number: present and not zero. */
  predicate IsSetNumber(field: Option<real>) {
    field.Some? && field.value != 0.0
  }

  /** The gender rule: a record for one gender excludes a profile that names another. */
  predicate ExcludedByGender(scheme: Scheme, profile: Profile) {
    && scheme.gender.Some? && scheme.gender.value != All
    && IsSet(profile.gender)
    && GenderText(scheme.gender.value) != profile.gender.value
  }

  /** The state rule: a state record excludes a profile from another state. */
  predicate ExcludedByState(scheme: Scheme, profile: Profile) {
    && IsSet(scheme.state)
    && IsSet(profile.state)
    && scheme.state.value != profile.state.value
    && scheme.category == State
  }

  /**
   * The ceiling an `incomeLimit` text denotes: `₹` and `,` removed, the
   * leading number read by `parseFloat`, times 100000 when the text says `lakh`.
   */
  function IncomeLimitValue(incomeLimit: string): Number {
    var limitStr := RemoveAll(incomeLimit, {'₹', ','});
    Multiply(ParseFloat(limitStr), if Includes(limitStr, "lakh") then 100000.0 else 1.0)
  }

  /** The income rule: a set income above the record's ceiling excludes. */
  predicate ExcludedByIncome(scheme: Scheme, profile: Profile) {
    && IsSet(scheme.incomeLimit)
    && IsSetNumber(profile.income)
    && GreaterThan(profile.income.value, IncomeLimitValue(scheme.incomeLimit.value))
  }

  /** The test `getEligibleSchemes` applies to a record. */
  predicate IsEligible(scheme: Scheme, profile: Profile) {
    !ExcludedByGender(scheme, profile) && !ExcludedByState(scheme, profile) && !ExcludedByIncome(scheme, profile)
  }

  /** The records of `catalog` that `profile` is eligible for, in catalog order. */
  function Eligible(catalog: seq<Scheme>, profile: Profile): (r: seq<Scheme>)
    ensures IsSubsequence(r, catalog)
    ensures forall s :: s in r <==> s in catalog && IsEligible(s, profile)
  {
    FilterIsSubsequence(catalog, s => IsEligible(s, profile));
    Filter(catalog, s => IsEligible(s, profile))
  }

  /** `getEligibleSchemes(userProfile)`. */
  function GetEligibleSchemes(profile: Profile): (r: seq<Scheme>)
    ensures IsSubsequence(r, GetAllSchemes())
  {
    Eligible(GetAllSchemes(), profile)
  }
}
