/**
 * The queries on the shipped catalog: the ceilings its income texts denote,
 * and how the one state scheme with a ceiling and a gender answers
 * particular profiles.
 */
module SchemeExamples {
  import opened Wrappers
  import opened JsStrings
  import opened JsNumbers
  import opened Schemes
  import opened SchemeProperties

  /** `₹3 lakh annually` denotes 300000. */
  lemma {:induction false} ThreeLakh(text: string)
    requires text == "₹3 lakh annually"
    ensures IncomeLimitValue(text) == Finite(300000.0)
  {
    var unit := " lakh annually";
    assert OccursAt(unit, "lakh", 1);
    IncomeLimitOfRupees(3, unit);
    ThreeLakhText();
  }

  /** `₹18 lakh annually` denotes 1800000. */
  lemma {:induction false} EighteenLakh(text: string)
    requires text == "₹18 lakh annually"
    ensures IncomeLimitValue(text) == Finite(1800000.0)
  {
    var unit := " lakh annually";
    assert OccursAt(unit, "lakh", 1);
    IncomeLimitOfRupees(18, unit);
    EighteenLakhText();
  }

  /** `No income limit` is not a number, so it excludes nobody. */
  lemma {:induction false} NoIncomeLimit(text: string)
    requires text == "No income limit"
    ensures IncomeLimitValue(text) == NaN
  {
    RemoveAllKeeps(text, {'₹', ','});
    NoIncomeLimitIsNotANumber(text);
  }

  lemma {:induction false} NoIncomeLimitIsNotANumber(text: string)
    requires text == "No income limit"
    ensures ParseFloat(text) == NaN
  {
    assert TrimStart(text) == text;
    assert DropSign(text) == text;
    assert DigitRun(text) == 0;
  }

  /** The ceiling texts above, taken apart as the currency sign, a numeral and a unit text. */
  lemma ThreeLakhText()
    ensures "₹3 lakh annually" == "₹" + DecimalOf(3) + " lakh annually"
  {
    assert DecimalOf(3) == "3";
  }

  lemma EighteenLakhText()
    ensures "₹18 lakh annually" == "₹" + DecimalOf(18) + " lakh annually"
  {
    assert DecimalOf(18) == "18";
  }

  /** A female profile from Uttar Pradesh. */
  function UpGirl(income: Option<real>): Profile {
    Profile(None, Some("female"), Some("Uttar Pradesh"), income, None)
  }

  /** Above the `₹3 lakh annually` ceiling, for instance 400000: Kanya Sumangala is excluded. */
  lemma KanyaSumangalaAboveCeiling(income: real)
    requires income > 300000.0
    ensures !IsEligible(UpKanyaSumangala, UpGirl(Some(income)))
  {
    ThreeLakh(UpKanyaSumangala.incomeLimit.value);
    IncomeCeilingDecides(UpKanyaSumangala, UpGirl(Some(income)), 300000.0);
  }

  /** At or below the ceiling, for instance 250000: Kanya Sumangala is kept. */
  lemma KanyaSumangalaBelowCeiling(income: real)
    requires 0.0 < income <= 300000.0
    ensures IsEligible(UpKanyaSumangala, UpGirl(Some(income)))
  {
    ThreeLakh(UpKanyaSumangala.incomeLimit.value);
    IncomeCeilingDecides(UpKanyaSumangala, UpGirl(Some(income)), 300000.0);
    KanyaSumangalaAdmitsUpGirls(UpGirl(Some(income)));
  }

  /** A girl from Uttar Pradesh passes the gender and the state rule of Kanya Sumangala. */
  lemma KanyaSumangalaAdmitsUpGirls(profile: Profile)
    requires profile.gender == Some("female") && profile.state == Some("Uttar Pradesh")
    ensures !ExcludedByGender(UpKanyaSumangala, profile) && !ExcludedByState(UpKanyaSumangala, profile)
  {
  }

  /** An income that is absent or zero never excludes. */
  lemma KanyaSumangalaWithoutIncome()
    ensures IsEligible(UpKanyaSumangala, UpGirl(None))
    ensures IsEligible(UpKanyaSumangala, UpGirl(Some(0.0)))
  {
  }

  /** A profile from another state is excluded from a state scheme; one without a state is not. */
  lemma KanyaSumangalaByState()
    ensures !IsEligible(UpKanyaSumangala, UpGirl(None).(state := Some("Karnataka")))
    ensures IsEligible(UpKanyaSumangala, UpGirl(None).(state := None))
    ensures IsEligible(UpKanyaSumangala, UpGirl(None).(state := Some("")))
  {
  }

  /** A profile naming another gender is excluded from a scheme for girls. */
  lemma KanyaSumangalaByGender()
    ensures !IsEligible(UpKanyaSumangala, UpGirl(None).(gender := Some("male")))
    ensures IsEligible(UpKanyaSumangala, UpGirl(None).(gender := None))
  {
  }

  /** PM Kisan's `No income limit` never excludes, whatever the income. */
  lemma PmKisanAnyIncome(income: real)
    ensures IsEligible(PmKisan, Profile(None, Some("male"), Some("Karnataka"), Some(income), None))
  {
    NoIncomeLimit(PmKisan.incomeLimit.value);
  }

  /** The query `Farmer` finds PM Kisan through its keyword `farmer`. */
  lemma {:induction false} FarmerFindsPmKisan()
    ensures MatchesQuery(PmKisan, "Farmer")
  {
    assert ToLowerCase("Farmer") == "farmer";
    assert ToLowerCase("farmer") == "farmer";
    assert OccursAt("farmer", "farmer", 0);
    MatchesQueryIff(PmKisan, "Farmer");
    assert "farmer" in PmKisan.keywords;
  }

  /** The Hindi query `किसान` finds PM Kisan through its Hindi name. */
  lemma {:induction false} KisanFindsPmKisan()
    ensures MatchesQuery(PmKisan, "किसान")
  {
    assert OccursAt(PmKisan.nameHindi, "किसान", 13);
    MatchesQueryIff(PmKisan, "किसान");
  }


  /** Every central scheme is national: it names no state. */
  lemma CentralSchemesNameNoState()
    ensures forall s | s in GovernmentSchemes :: s.category == Central && s.state == None
  {
  }

  /** Every state scheme names its state. */
  lemma StateSchemesNameTheirState()
    ensures forall s | s in StateSchemes :: s.category == State && IsSet(s.state)
  {
  }

  /** In the shipped catalog a record names a state exactly when it is a state scheme. */
  lemma CatalogStateIffStateCategory()
    ensures forall s | s in GetAllSchemes() :: IsSet(s.state) <==> s.category == State
  {
    CentralSchemesNameNoState();
    StateSchemesNameTheirState();
  }
}
