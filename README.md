# SwarSaathi scheme catalog, modelled in Dafny

SwarSaathi is a voice assistant that helps Indian citizens find government
welfare schemes. Its core is the scheme catalog in `src/data/schemes.ts`. This
project models that catalog and its three queries as pure Dafny functions over
sequences of records, and proves what the queries guarantee.

- **Catalog.** The `GovernmentScheme` record is `Schemes.Scheme`, reduced to the fields the queries read. The eight central schemes are `Schemes.GovernmentSchemes` and the two state schemes are `Schemes.StateSchemes`, both written out as the literal records of src/data/schemes.ts:23-299.
- **`getAllSchemes`** puts the central list before the state list.
- **`searchSchemes(query, userProfile)`** keeps a record when one of five containment tests holds:
  - the lower-cased query occurs in a lower-cased keyword, the lower-cased English name or the lower-cased English description;
  - the query, as given, occurs in the Hindi name or the Hindi description.
- **`getEligibleSchemes(profile)`** drops a record when one of three rules excludes it:
  - gender: a single-gender record, against a profile that names another gender;
  - state: a state scheme for another state than the profile's;
  - income: a profile income above the record's ceiling.

The ceiling is read from the record's display text:
- `₹` and `,` are removed;
- `parseFloat` reads the leading number;
- the number is multiplied by 100000 when the text says `lakh`.

The JavaScript built-ins these queries rely on have their own small modules, which follow the ECMAScript definitions except as listed under "## Left out":
- `JsArrays`: `filter` and `some`;
- `JsStrings`: `includes`, `toLowerCase` and `replace` with a global character class;
- `JsNumbers`: `parseFloat`.

JavaScript truthiness is written out:
- a string field counts as set when it is present and not empty;
- a number field counts as set when it is present and not zero.

`parseFloat` follows ECMAScript's grammar:
- it skips leading white space and line terminators;
- it reads an optional sign, then `Infinity` or digits with an optional fraction and an optional exponent;
- it yields NaN when no such prefix exists.

Its value is the exact decimal value of that prefix, as a `real`.

Modules:

- `Wrappers`: the `Option` type used for optional fields.
- `JsArrays`, `JsStrings`, `JsNumbers`: the built-ins above, each with the lemmas the queries need.
- `Schemes`: the record types, the catalog and the three queries.
- `SchemeProperties`: what the queries guarantee for every query, every profile and, where the catalog's content does not matter, every catalog.
- `SchemeExamples`: facts about the shipped catalog, including:
  - the ceilings its income texts denote;
  - how Kanya Sumangala answers particular profiles;
  - searches that find PM Kisan;
  - the invariant that a record names a state exactly when it is a state scheme.

The income ceiling is stored as display text and parsed at query time, and the model follows the code. Field presence follows JavaScript truthiness:
- a record or profile field holding the empty string counts as absent;
- an income of 0 counts as absent.

## Model

| member | source | states |
|---|---|---|
| Schemes.GetAllSchemes | src/data/schemes.ts:301-303 | The catalog is the central list followed by the state list. Its length is the sum of theirs, and each record sits at its index in its own list, offset by the central list's length for state records. |
| Schemes.Search | src/data/schemes.ts:305-322 | Search over a catalog returns a subsequence of it, in catalog order. A record is in the result exactly when it is in the catalog and the search test holds for it. |
| Schemes.SearchSchemes | src/data/schemes.ts:305-322 | `searchSchemes` returns a subsequence of `getAllSchemes()`: only catalog records, in catalog order. |
| Schemes.Eligible | src/data/schemes.ts:324-357 | Eligibility filtering returns a subsequence of the catalog. A record is in the result exactly when it is in the catalog and none of the three rules excludes it. |
| Schemes.GetEligibleSchemes | src/data/schemes.ts:324-357 | `getEligibleSchemes` returns a subsequence of `getAllSchemes()`. |
| JsArrays.Filter | src/data/schemes.ts:309 | `filter` keeps exactly the values that pass the test (which values occur, not how often; `FilterCounts` gives the counts), and never lengthens the list. |
| JsArrays.FilterCounts | src/data/schemes.ts:309 | `filter` keeps every passing occurrence: a passing value occurs in the result as often as in the input, a failing one not at all. |
| JsArrays.Any | src/data/schemes.ts:310-312 | `some` holds exactly when the test holds at some index. |
| JsArrays.AnyMember | src/data/schemes.ts:310-312 | `some` holds exactly when the test holds for some member. |
| JsArrays.FilterIsSubsequence | src/data/schemes.ts:309 | `filter` keeps the order of its input. |
| JsArrays.FilterConcat | src/data/schemes.ts:301-303 | Filtering a concatenation is the concatenation of the filtered parts. |
| JsArrays.FilterWeakens | src/data/schemes.ts:329-356 | A test that accepts more keeps more: the smaller result is a subsequence of the larger one. |
| JsStrings.RemoveAll | src/data/schemes.ts:348 | Removing a set of characters never lengthens the text, and the characters that occur in the result are exactly those of the text that are not in the set (order and counts are stated by `RemoveAllExact`). |
| JsStrings.RemoveAllExact | src/data/schemes.ts:348 | Every other character stays in place: the result is a subsequence of the text, and each character not in the set occurs in it as often as in the text, while characters in the set do not occur. |
| JsStrings.IncludesLowered | src/data/schemes.ts:307-318 | An occurrence survives lower-casing both the text and the query. |
| JsStrings.IncludesPastPrefix | src/data/schemes.ts:349 | An occurrence of a text whose first character is absent from a prefix lies in the part after that prefix. |
| JsNumbers.ParseFloatOfDecimal | src/data/schemes.ts:349 | Round trip: `parseFloat` reads back a decimal numeral as its value. White space and a sign may come before the numeral, and anything that cannot continue a literal may follow it; the sign gives the sign of the result. |
| JsNumbers.ParseFloatOfDigits | src/data/schemes.ts:349 | A run of digits, after white space and a sign and before a character that cannot continue a literal, parses to plus or minus its value. |
| JsNumbers.ParseFloatOfFraction | src/data/schemes.ts:349 | A numeral with a decimal point parses to its whole part plus its fraction. |
| JsNumbers.ParseFloatNaN | src/data/schemes.ts:349 | `parseFloat` is NaN exactly when, after white space and a sign, the text starts with none of these: `Infinity`, a digit, or a point followed by a digit. |
| SchemeProperties.SearchMembership | src/data/schemes.ts:305-322 | A record is found exactly when it is in the catalog and one of the five containment tests holds. |
| SchemeProperties.SearchCounts | src/data/schemes.ts:309-321 | Search keeps every matching occurrence: a matching record occurs in the result as often as in the catalog, a non-matching one not at all. |
| SchemeProperties.SearchIgnoresProfile | src/data/schemes.ts:305 | The profile argument of `searchSchemes` has no effect on the result. |
| SchemeProperties.SearchEmptyQuery | src/data/schemes.ts:305-322 | The empty query returns the catalog unchanged. |
| SchemeProperties.SearchSchemesEmptyQuery | src/data/schemes.ts:305-322 | `searchSchemes('')` returns all of `getAllSchemes()`. |
| SchemeProperties.SearchConcat | src/data/schemes.ts:309 | Searching two lists one after the other gives the two searches concatenated. |
| SchemeProperties.SearchSchemesOrder | src/data/schemes.ts:301-322 | Matching central schemes come first, then matching state schemes, each in list order. |
| SchemeProperties.SearchIgnoresEnglishCase | src/data/schemes.ts:307-318 | A record whose English name, English description or keyword contains any case variant of the query is found. |
| SchemeProperties.HindiFieldIgnoresQueryCase | src/data/schemes.ts:315 | Against a Hindi text with no ASCII letter, the query and its lower-cased form match alike. |
| SchemeProperties.MatchesIgnoresQueryCase | src/data/schemes.ts:307-320 | When a record's Hindi fields hold no ASCII letter, the query and its lower-cased form match that record alike. |
| SchemeProperties.SearchIgnoresQueryCase | src/data/schemes.ts:305-322 | Over a catalog whose Hindi fields hold no ASCII letter, search gives the same result for the query and for its lower-cased form. |
| SchemeProperties.EligibleMembership | src/data/schemes.ts:324-357 | A record is eligible exactly when it is in the catalog and each rule, stated positively, admits the profile. Gender: the record has no gender or `all`, the profile has no gender, or they agree. State: the record is central or has no state, the profile has no state, or they agree. Income: no ceiling, no income, or the income is at most the ceiling. |
| SchemeProperties.EligibleCounts | src/data/schemes.ts:329-356 | Eligibility filtering keeps every eligible occurrence: an eligible record occurs in the result as often as in the catalog, an excluded one not at all. |
| SchemeProperties.GetEligibleSchemesOrder | src/data/schemes.ts:301-303 | Eligible central schemes come first, then eligible state schemes. |
| SchemeProperties.GenderNeverExcludesOpenRecords | src/data/schemes.ts:335-338 | The gender rule never excludes in three cases: a record for all genders, a record without a gender, or a profile without a gender. |
| SchemeProperties.CentralIgnoresState | src/data/schemes.ts:341-344 | A central scheme's eligibility does not depend on the profile's state. |
| SchemeProperties.IncomeRuleNeedsBothSides | src/data/schemes.ts:347-353 | The income rule never excludes when the income is absent or zero, when the record has no ceiling, or when the ceiling is NaN. |
| SchemeProperties.IncomeCeilingDecides | src/data/schemes.ts:347-353 | Against a ceiling that reads as a number, a set income is excluded exactly when it is above the ceiling. |
| SchemeProperties.EligibleGrowsAsProfileRelaxes | src/data/schemes.ts:329-356 | Leaving out the profile's gender, state or income never loses a record. The stricter result is a subsequence of the looser one. |
| SchemeProperties.GetEligibleSchemesGrowsAsProfileRelaxes | src/data/schemes.ts:324-357 | Removing a profile field keeps or enlarges `getEligibleSchemes`'s result, in order. |
| SchemeProperties.EligibleIgnoresAgeAndCategory | src/data/schemes.ts:324-357 | The profile's age and category never change the result. |
| SchemeProperties.GetEligibleSchemesIgnoresAgeAndCategory | src/data/schemes.ts:324-357 | Age and category never change `getEligibleSchemes`'s result. |
| SchemeProperties.EmptyProfileKeepsAll | src/data/schemes.ts:324-357 | A profile with no field set keeps the whole catalog. |
| SchemeProperties.StripRupee | src/data/schemes.ts:348 | Removing `₹` and `,` from `₹`, a numeral and a unit text leaves the numeral and the unit text. |
| SchemeProperties.IncomeLimitOfRupees | src/data/schemes.ts:348-349 | A ceiling written as `₹`, a numeral and a unit text denotes the numeral's value, times 100000 when the unit text contains `lakh`. |
| SchemeExamples.ThreeLakh | src/data/schemes.ts:268 | `₹3 lakh annually` denotes 300000. |
| SchemeExamples.EighteenLakh | src/data/schemes.ts:76 | `₹18 lakh annually` denotes 1800000. |
| SchemeExamples.NoIncomeLimit | src/data/schemes.ts:47 | `No income limit` denotes NaN. |
| SchemeExamples.NoIncomeLimitIsNotANumber | src/data/schemes.ts:47 | `parseFloat('No income limit')` is NaN. |
| SchemeExamples.KanyaSumangalaAboveCeiling | src/data/schemes.ts:244-271 | A girl from Uttar Pradesh with an income above 300000 (400000, for instance) is not eligible for Kanya Sumangala. |
| SchemeExamples.KanyaSumangalaBelowCeiling | src/data/schemes.ts:244-271 | With an income at or below 300000 (250000, for instance), she is eligible. |
| SchemeExamples.KanyaSumangalaAdmitsUpGirls | src/data/schemes.ts:244-271 | A girl from Uttar Pradesh passes Kanya Sumangala's gender rule and state rule. |
| SchemeExamples.KanyaSumangalaWithoutIncome | src/data/schemes.ts:347 | An absent or zero income keeps Kanya Sumangala. |
| SchemeExamples.KanyaSumangalaByState | src/data/schemes.ts:341-344 | Kanya Sumangala excludes a profile from Karnataka. It keeps a profile whose state is absent or empty. |
| SchemeExamples.KanyaSumangalaByGender | src/data/schemes.ts:335-338 | Kanya Sumangala excludes a male profile. It keeps a profile without a gender. |
| SchemeExamples.PmKisanAnyIncome | src/data/schemes.ts:24-50 | PM Kisan's `No income limit` never excludes, whatever the income. |
| SchemeExamples.FarmerFindsPmKisan | src/data/schemes.ts:24-50 | The query `Farmer` matches PM Kisan through its keyword `farmer`. |
| SchemeExamples.KisanFindsPmKisan | src/data/schemes.ts:24-50 | The Hindi query `किसान` matches PM Kisan through its Hindi name. |
| SchemeExamples.CentralSchemesNameNoState | src/data/schemes.ts:23-241 | Every central scheme has category `central` and no state. |
| SchemeExamples.StateSchemesNameTheirState | src/data/schemes.ts:243-299 | Every state scheme has category `state` and names its state. |
| SchemeExamples.CatalogStateIffStateCategory | src/data/schemes.ts:23-299 | In the catalog, a record names a state exactly when it is a state scheme. |

## Left out

- Catalog fields the queries never read are not part of the `Scheme` datatype:
  - eligibility and benefits texts;
  - documents;
  - application URL;
  - department;
  - age group.
- IEEE-754 arithmetic: `parseFloat` yields the exact decimal value as a `real`, with no rounding and no overflow to infinity for huge numerals; the `lakh` multiplication and the comparison are exact too.
- `toLowerCase` folds only `A`-`Z`; the Unicode case mappings of other characters are not modelled. Devanagari has no case, so the Hindi fields are unaffected, but queries are: JavaScript lower-cases some non-ASCII characters to ASCII letters, and the model does not. For example, `"\u212Aisan".toLowerCase()` (KELVIN SIGN) is `"kisan"` in JavaScript, which finds PM Kisan through its keyword `kisan`; the model's `ToLowerCase` leaves U+212A as it is, and that query finds nothing.
- A NaN or infinite profile income cannot be expressed, because the profile's income is a `real`, while `getEligibleSchemes` accepts any `number`. The one caller passes `parseFloat(...) || 0`, which turns NaN into 0 but keeps Infinity, for example for the input `1e400`. An infinite income would exceed every finite ceiling, so JavaScript excludes it from every scheme with a numeric ceiling; the model has no such input.
- The untyped `userProfile` of `searchSchemes` is modelled as an optional `Profile`. It is never read.
- `searchSchemes` and `getEligibleSchemes` delegate to the other functions of `src/data/schemes.ts`. Everything else in the repository is not part of this model: the user interface, the speech recogniser and the form-filling engine.
- Schemes.SearchSchemes: the contract states only that the result is a subsequence of the catalog. Its body is `Search` on `getAllSchemes()`, and `Search` and `SchemeProperties.SearchMembership` state membership for every catalog. The membership statement is not repeated for the literal catalog, because evaluating it against the literal records is too costly for the verifier.
- Schemes.GetEligibleSchemes: the contract states only that the result is a subsequence of the catalog. Membership is stated by `Eligible` and `SchemeProperties.EligibleMembership`, for the same reason.
- SchemeProperties.SearchIgnoresQueryCase: the precondition is that no Hindi field holds an ASCII letter. That precondition is not proved for the shipped records, because a character-by-character proof over their long Devanagari strings is too costly for the verifier. For the shipped catalog, `SearchIgnoresEnglishCase` states the case-insensitive direction.
