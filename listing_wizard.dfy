/**
 * The four-step listing-submission wizard (`MainFeature`).
 *
 * Step 1 collects title, type, location and description; step 2 price, size
 * and amenities; step 3 contact details; step 4 shows a preview and submits.
 * `ValidateStep` is the per-step validation as a function of the step and the
 * draft; `Toggle` is the amenity toggle; the class `Wizard` holds the
 * component's state and has one method per event handler.
 */
module ListingWizard {
  import opened Wrappers
  import opened Text
  import opened Numbers
  import opened EmailPatterns
  import Seqs

  /** The names of the wizard's inputs, which `handleChange` receives as `e.target.name`. */
  datatype Field =
    | Title | Description | Price | PropertyType | Bedrooms | Bathrooms | Area | Location
    | ContactEmail | ContactPhone

  /** The draft listing (`formData`): every input is kept as the text the user typed. */
  datatype Draft = Draft(
    title: string, description: string, price: string, propertyType: string,
    bedrooms: string, bathrooms: string, area: string, location: string,
    amenities: seq<string>, contactEmail: string, contactPhone: string)
  {
    function Get(f: Field): string {
      match f
      case Title => title
      case Description => description
      case Price => price
      case PropertyType => propertyType
      case Bedrooms => bedrooms
      case Bathrooms => bathrooms
      case Area => area
      case Location => location
      case ContactEmail => contactEmail
      case ContactPhone => contactPhone
    }

    /** `{ ...prev, [name]: value }` */
    function Set(f: Field, v: string): (r: Draft)
      ensures r.Get(f) == v
      ensures forall g :: g != f ==> r.Get(g) == Get(g)
      ensures r.amenities == amenities
    {
      match f
      case Title => this.(title := v)
      case Description => this.(description := v)
      case Price => this.(price := v)
      case PropertyType => this.(propertyType := v)
      case Bedrooms => this.(bedrooms := v)
      case Bathrooms => this.(bathrooms := v)
      case Area => this.(area := v)
      case Location => this.(location := v)
      case ContactEmail => this.(contactEmail := v)
      case ContactPhone => this.(contactPhone := v)
    }
  }

  /** The draft the wizard starts with and returns to after a submission. */
  const EmptyDraft := Draft("", "", "", "", "", "", "", "", [], "", "")

  /** The amenities offered as toggle buttons on step 2. */
  const AvailableAmenities: seq<string> := [
    "Swimming Pool", "Garden", "Garage", "Air Conditioning", "Heating",
    "Balcony", "Fireplace", "Gym", "Security System", "Elevator"]

  // ---------------------------------------------------------------------------
  // Validation
  // ---------------------------------------------------------------------------

  /** The error object `validateForm` builds: field name to message. */
  type ErrorMap = map<Field, string>

  /** `!s.trim()` */
  predicate Blank(s: string) {
    Trim(s) == ""
  }

  /** The step-2 test of price, bathrooms and area: `!v`, else `isNaN(v) || parseFloat(v) <= 0`. */
  predicate FloatRejected(v: string) {
    v == "" || IsNaN(v) || FloatAtMostZero(ParseFloat(v))
  }

  /** The step-2 test of bedrooms, which reads the value with `parseInt` instead. */
  predicate IntRejected(v: string) {
    v == "" || IsNaN(v) || IntAtMostZero(ParseInt(v))
  }

  /** A numeral with no minus sign and some digit other than 0, e.g. "12", "0.5", "+.25". */
  predicate PositiveNumeral(v: string) {
    && IsDecimalNumeral(v)
    && var n := ScanDecimal(v).value.numeral;
    && !n.negative && HasNonZeroDigit(n.whole + n.fraction)
  }

  /**
   * What the bedrooms test lets through: a numeral whose whole-number part is
   * positive, or one with no whole-number part at all (".5", which `parseInt`
   * reads as NaN, and NaN <= 0 is false).
   */
  predicate BedroomsAccepted(v: string) {
    && IsDecimalNumeral(v)
    && var n := ScanDecimal(v).value.numeral;
    && (n.whole == "" || (!n.negative && HasNonZeroDigit(n.whole)))
  }

  lemma FloatRejectedIff(v: string)
    ensures FloatRejected(v) <==> !PositiveNumeral(v)
  {
    ParseFloatSign(v);
  }

  lemma IntRejectedIff(v: string)
    ensures IntRejected(v) <==> !BedroomsAccepted(v)
  {
    if IsDecimalNumeral(v) {
      var n := ScanDecimal(v).value.numeral;
      WholeValuePositive(n.whole);
    }
  }

  /** `validateForm()` run at `step` on draft `d`: only steps 1 to 3 check anything. */
  function ValidateStep(step: int, d: Draft): (errors: ErrorMap)
    ensures step != 1 && step != 2 && step != 3 ==> errors == map[]
    ensures forall f :: f in errors ==> StepOf(f) == step
  {
    if step == 1 then DetailsErrors(d)
    else if step == 2 then FeaturesErrors(d)
    else if step == 3 then ContactStepErrors(d)
    else map[]
  }

  /** The step whose page renders input `f`: each step shows only its own inputs. */
  function StepOf(f: Field): (n: int)
    ensures 1 <= n <= 3
  {
    match f
    case Title | Description | PropertyType | Location => 1
    case Price | Bedrooms | Bathrooms | Area => 2
    case ContactEmail | ContactPhone => 3
  }

  /** The step-1 messages: one per input whose check fails. */
  function DetailsErrors(d: Draft): (r: ErrorMap)
    ensures r.Keys <= {Title, Description, PropertyType, Location}
    ensures forall f :: f in r ==> r[f] == RequiredMessage(f)
  {
    map f | f in {Title, Description, PropertyType, Location} && DetailsError(d, f).Some? :: DetailsError(d, f).value
  }

  /** The step-2 messages. */
  function FeaturesErrors(d: Draft): (r: ErrorMap)
    ensures r.Keys <= {Price, Bedrooms, Bathrooms, Area}
    ensures forall f :: f in r ==> r[f] == RequiredMessage(f) || r[f] == InvalidMessage(f)
  {
    map f | f in {Price, Bedrooms, Bathrooms, Area} && FeaturesError(d, f).Some? :: FeaturesError(d, f).value
  }

  /** The step-3 messages. */
  function ContactStepErrors(d: Draft): (r: ErrorMap)
    ensures r.Keys <= {ContactEmail, ContactPhone}
    ensures forall f :: f in r ==> r[f] == RequiredMessage(f) || r[f] == InvalidMessage(f)
  {
    map f | f in {ContactEmail, ContactPhone} && ContactStepError(d, f).Some? :: ContactStepError(d, f).value
  }

  /** The message for an input left empty (blank, for the text inputs). */
  function RequiredMessage(f: Field): string {
    match f
    case Title => "Title is required"
    case Description => "Description is required"
    case Price => "Price is required"
    case PropertyType => "Property type is required"
    case Bedrooms => "Number of bedrooms is required"
    case Bathrooms => "Number of bathrooms is required"
    case Area => "Area is required"
    case Location => "Location is required"
    case ContactEmail => "Email is required"
    case ContactPhone => "Phone number is required"
  }

  /** The message for a numeric input that is not a positive number, or an e-mail without an address. */
  function InvalidMessage(f: Field): string {
    match f
    case Price => "Price must be a positive number"
    case Bedrooms => "Bedrooms must be a positive number"
    case Bathrooms => "Bathrooms must be a positive number"
    case Area => "Area must be a positive number"
    case ContactEmail => "Email is invalid"
    case _ => ""
  }

  /** Step 1: title, description and location must not be blank, and a type must be chosen. */
  function DetailsError(d: Draft, f: Field): Option<string> {
    match f
    case Title => if Blank(d.title) then Some(RequiredMessage(f)) else None
    case Description => if Blank(d.description) then Some(RequiredMessage(f)) else None
    case PropertyType => if d.propertyType == "" then Some(RequiredMessage(f)) else None
    case Location => if Blank(d.location) then Some(RequiredMessage(f)) else None
    case _ => None
  }

  /**
   * Step 2: price, bathrooms and area are read with `parseFloat`; bedrooms is
   * read with `parseInt`, so only its whole-number part counts.
   */
  function FeaturesError(d: Draft, f: Field): (r: Option<string>)
    ensures r.Some? ==> r.value == RequiredMessage(f) || r.value == InvalidMessage(f)
  {
    match f
    case Price => FloatError(f, d.price)
    case Bedrooms =>
      if d.bedrooms == "" then Some(RequiredMessage(f))
      else if IntRejected(d.bedrooms) then Some(InvalidMessage(f))
      else None
    case Bathrooms => FloatError(f, d.bathrooms)
    case Area => FloatError(f, d.area)
    case _ => None
  }

  /** One `parseFloat` check of input `f` holding `v`. */
  function FloatError(f: Field, v: string): (r: Option<string>)
    ensures r.Some? ==> r.value == RequiredMessage(f) || r.value == InvalidMessage(f)
  {
    if v == "" then Some(RequiredMessage(f))
    else if FloatRejected(v) then Some(InvalidMessage(f))
    else None
  }

  /** Step 3: the e-mail must be non-blank and contain the loose pattern; the phone must be non-blank. */
  function ContactStepError(d: Draft, f: Field): Option<string> {
    match f
    case ContactEmail =>
      if Blank(d.contactEmail) then Some(RequiredMessage(f))
      else if !LooseEmail(d.contactEmail) then Some(InvalidMessage(f))
      else None
    case ContactPhone => if Blank(d.contactPhone) then Some(RequiredMessage(f)) else None
    case _ => None
  }

  /**
   * Step 1 reports exactly the blank ones among title, description and
   * location, and the type when none is chosen, each as required; it reports
   * no other input.
   */
  lemma DetailsChecked(d: Draft, f: Field)
    ensures f in DetailsErrors(d) <==>
              match f
              case Title => AllSpace(d.title)
              case Description => AllSpace(d.description)
              case PropertyType => d.propertyType == ""
              case Location => AllSpace(d.location)
              case _ => false
    ensures f in DetailsErrors(d) ==> DetailsErrors(d)[f] == RequiredMessage(f)
  {
    match f
    case Title => TrimBlank(d.title);
    case Description => TrimBlank(d.description);
    case Location => TrimBlank(d.location);
    case _ =>
  }

  /**
   * Step 2 reports price, bathrooms and area unless they are positive
   * numerals, and bedrooms unless its `parseInt` reading is accepted; an
   * empty input as required, any other as not a positive number.
   */
  lemma FeaturesChecked(d: Draft, f: Field)
    ensures f in FeaturesErrors(d) <==>
              match f
              case Price => !PositiveNumeral(d.price)
              case Bedrooms => !BedroomsAccepted(d.bedrooms)
              case Bathrooms => !PositiveNumeral(d.bathrooms)
              case Area => !PositiveNumeral(d.area)
              case _ => false
    ensures f in FeaturesErrors(d) ==>
              FeaturesErrors(d)[f] == if d.Get(f) == "" then RequiredMessage(f) else InvalidMessage(f)
  {
    match f
    case Price => FloatRejectedIff(d.price);
    case Bedrooms => IntRejectedIff(d.bedrooms);
    case Bathrooms => FloatRejectedIff(d.bathrooms);
    case Area => FloatRejectedIff(d.area);
    case _ =>
  }

  /**
   * Step 3 reports the e-mail when it is blank (as required) or contains no
   * match of the loose pattern (as invalid), and the phone when it is blank.
   */
  lemma ContactStepChecked(d: Draft, f: Field)
    ensures f in ContactStepErrors(d) <==>
              match f
              case ContactEmail => AllSpace(d.contactEmail) || !LooseEmail(d.contactEmail)
              case ContactPhone => AllSpace(d.contactPhone)
              case _ => false
    ensures f in ContactStepErrors(d) ==>
              ContactStepErrors(d)[f] == if AllSpace(d.Get(f)) then RequiredMessage(f) else InvalidMessage(f)
  {
    match f
    case ContactEmail => TrimBlank(d.contactEmail);
    case ContactPhone => TrimBlank(d.contactPhone);
    case _ =>
  }

  /** The example of a step-1 draft whose only gap is its title. */
  lemma MissingTitleOnly()
    ensures DetailsErrors(EmptyDraft.(propertyType := "house", location := "X", description := "Y")).Keys == {Title}
  {
    var d := EmptyDraft.(propertyType := "house", location := "X", description := "Y");
    forall f ensures f in DetailsErrors(d) <==> f == Title {
      DetailsChecked(d, f);
      assert !IsSpace(d.location[0]) && !IsSpace(d.description[0]);
    }
  }

  /** Step 1 reads only the title, description, type and location. */
  lemma DetailsReadOnlyStepOne(d: Draft, e: Draft)
    requires e.title == d.title && e.description == d.description
    requires e.propertyType == d.propertyType && e.location == d.location
    ensures DetailsErrors(e) == DetailsErrors(d)
  {
    assert forall g :: DetailsError(e, g) == DetailsError(d, g);
  }

  /** Step 2 reads only the price, bedrooms, bathrooms and area. */
  lemma FeaturesReadOnlyStepTwo(d: Draft, e: Draft)
    requires e.price == d.price && e.bedrooms == d.bedrooms
    requires e.bathrooms == d.bathrooms && e.area == d.area
    ensures FeaturesErrors(e) == FeaturesErrors(d)
  {
    assert forall g :: FeaturesError(e, g) == FeaturesError(d, g);
  }

  /** Step 3 reads only the e-mail and the phone. */
  lemma ContactStepReadOnlyStepThree(d: Draft, e: Draft)
    requires e.contactEmail == d.contactEmail && e.contactPhone == d.contactPhone
    ensures ContactStepErrors(e) == ContactStepErrors(d)
  {
    assert forall g :: ContactStepError(e, g) == ContactStepError(d, g);
  }

  /** An edit of an input of another step leaves a step's validation as it was. */
  lemma ValidateStepIgnoresOtherSteps(step: int, d: Draft, f: Field, v: string)
    requires StepOf(f) != step
    ensures ValidateStep(step, d.Set(f, v)) == ValidateStep(step, d)
  {
    var e := d.Set(f, v);
    if step == 1 {
      assert e.title == d.title by { assert Title != f; }
      assert e.description == d.description by { assert Description != f; }
      assert e.propertyType == d.propertyType by { assert PropertyType != f; }
      assert e.location == d.location by { assert Location != f; }
      DetailsReadOnlyStepOne(d, e);
    } else if step == 2 {
      assert e.price == d.price by { assert Price != f; }
      assert e.bedrooms == d.bedrooms by { assert Bedrooms != f; }
      assert e.bathrooms == d.bathrooms by { assert Bathrooms != f; }
      assert e.area == d.area by { assert Area != f; }
      FeaturesReadOnlyStepTwo(d, e);
    } else if step == 3 {
      assert e.contactEmail == d.contactEmail by { assert ContactEmail != f; }
      assert e.contactPhone == d.contactPhone by { assert ContactPhone != f; }
      ContactStepReadOnlyStepThree(d, e);
    }
  }

  /** The amenities are not validated: toggling one leaves every step's validation as it was. */
  lemma ValidateStepIgnoresAmenities(step: int, d: Draft, amenities: seq<string>)
    ensures ValidateStep(step, d.(amenities := amenities)) == ValidateStep(step, d)
  {
    var e := d.(amenities := amenities);
    DetailsReadOnlyStepOne(d, e);
    FeaturesReadOnlyStepTwo(d, e);
    ContactStepReadOnlyStepThree(d, e);
  }

  /**
   * "0.5" is refused as a number of bedrooms (`parseInt` reads 0) but accepted
   * as a number of bathrooms.
   */
  lemma HalfBedroomRefused()
    ensures !BedroomsAccepted("0.5") && PositiveNumeral("0.5")
  {
    var n := ScanDecimal("0.5").value.numeral;
    assert ScanDecimal("0.5").value.length == 3;
    assert n.whole == "0" && n.fraction == "5";
    assert !HasNonZeroDigit("0");
    assert (n.whole + n.fraction)[1] == '5';
  }

  /** ".5" passes as bedrooms: `parseInt(".5")` is NaN, and NaN <= 0 is false. */
  lemma PointFiveBedroomsAccepted()
    ensures BedroomsAccepted(".5")
  {
    assert ScanDecimal(".5").value.length == 2;
    assert ScanDecimal(".5").value.numeral.whole == "";
  }

  /** After step 3 nothing is validated: the preview step always passes. */
  lemma PreviewAlwaysValid(d: Draft)
    ensures ValidateStep(4, d) == map[]
  {
  }

  // ---------------------------------------------------------------------------
  // Input filtering at entry
  // ---------------------------------------------------------------------------

  predicate IsNumericField(f: Field) {
    f == Price || f == Bedrooms || f == Bathrooms || f == Area
  }

  /** `value && parseFloat(value) < 0`: the edit is dropped. */
  predicate RejectedAtEntry(value: string) {
    value != "" && FloatBelowZero(ParseFloat(value))
  }

  /**
   * An edit of a numeric field is dropped exactly when the text starts with a
   * minus sign followed by a numeral with a digit other than 0; "-", "-0" and
   * "-abc" get through.
   */
  lemma RejectedAtEntryIff(value: string)
    ensures RejectedAtEntry(value) <==>
            (ScanDecimal(value).Some? && value[0] == '-' &&
             HasNonZeroDigit(ScanDecimal(value).value.numeral.whole + ScanDecimal(value).value.numeral.fraction))
  {
    ParseFloatSign(value);
  }

  lemma RejectedAtEntryExamples()
    ensures RejectedAtEntry("-50")
    ensures !RejectedAtEntry("-") && !RejectedAtEntry("-0") && !RejectedAtEntry("50")
  {
    RejectedAtEntryIff("-50");
    assert ScanDecimal("-50").value.numeral.whole == "50";
    assert HasNonZeroDigit("50" + "") by { assert ("50" + "")[0] == '5'; }
    RejectedAtEntryIff("-0");
    assert ScanDecimal("-0").value.numeral.whole == "0";
    assert ScanDecimal("-0").value.numeral.fraction == "";
    assert !HasNonZeroDigit("0" + "");
  }

  // ---------------------------------------------------------------------------
  // Amenities
  // ---------------------------------------------------------------------------

  function Other(a: string): string -> bool {
    x => x != a
  }

  /** `toggleAmenity(a)`: drop every copy of `a` when present, otherwise append it. */
  function Toggle(amenities: seq<string>, a: string): (r: seq<string>)
    ensures a in r <==> a !in amenities
    ensures forall b :: b != a ==> (b in r <==> b in amenities)
    ensures a !in amenities ==> |r| == |amenities| + 1 && r[..|r| - 1] == amenities && r[|r| - 1] == a
    ensures a in amenities ==> Seqs.IsSubsequence(r, amenities)
    ensures a in amenities ==> forall b :: multiset(r)[b] == if b == a then 0 else multiset(amenities)[b]
  {
    if a in amenities then
      Seqs.FilterIsSubsequence(amenities, Other(a));
      Seqs.FilterCount(amenities, Other(a));
      Seqs.Filter(amenities, Other(a))
    else
      var r := amenities + [a];
      assert r[..|r| - 1] == amenities;
      r
  }

  lemma ToggleKeepsNoDuplicates(amenities: seq<string>, a: string)
    requires Seqs.NoDuplicates(amenities)
    ensures Seqs.NoDuplicates(Toggle(amenities, a))
  {
    if a in amenities {
      Seqs.FilterNoDuplicates(amenities, Other(a));
    }
  }

  /** Switching an amenity on and then off again restores the list exactly. */
  lemma ToggleTwiceAbsent(amenities: seq<string>, a: string)
    requires a !in amenities
    ensures Toggle(Toggle(amenities, a), a) == amenities
  {
    Seqs.FilterAppend(amenities, [a], Other(a));
    Seqs.FilterAllKept(amenities, Other(a));
  }

  /** Switching a present amenity off and on again moves it to the end of the list. */
  lemma ToggleTwicePresent(amenities: seq<string>, a: string)
    requires a in amenities
    ensures Toggle(Toggle(amenities, a), a) == Seqs.Filter(amenities, Other(a)) + [a]
  {
  }

  // ---------------------------------------------------------------------------
  // The component
  // ---------------------------------------------------------------------------

  /** `setErrors(newErrors)`: every message of the map, as a set value. */
  function Stored(e: ErrorMap): map<Field, Option<string>> {
    map f | f in e :: Some(e[f])
  }

  class Wizard {
    var formData: Draft
    /** A cleared error is kept as `null` (here `None`) rather than removed. */
    var errors: map<Field, Option<string>>
    var currentStep: int
    var previewMode: bool
    var isSubmitting: bool

    /**
     * Steps run from 1 to 4, no amenity is listed twice, and every step before
     * the current one passes its validation: Next is the only way forward and
     * each step renders only its own inputs.
     */
    ghost predicate Valid()
      reads this
    {
      && 1 <= currentStep <= 4
      && Seqs.NoDuplicates(formData.amenities)
      && (forall j :: 1 <= j < currentStep ==> ValidateStep(j, formData) == map[])
    }

    /** `errors[name]` is truthy. */
    predicate HasError(f: Field)
      reads this
    {
      f in errors && errors[f].Some? && errors[f].value != ""
    }

    constructor ()
      ensures Valid()
      ensures formData == EmptyDraft && errors == map[] && currentStep == 1
      ensures !previewMode && !isSubmitting
    {
      formData := EmptyDraft;
      errors := map[];
      currentStep := 1;
      previewMode := false;
      isSubmitting := false;
    }

    /** `handleChange`: a typed edit of input `name`, rendered only on its own step. */
    method HandleChange(name: Field, value: string)
      requires Valid() && StepOf(name) == currentStep
      modifies this
      ensures Valid()
      ensures IsNumericField(name) && RejectedAtEntry(value) ==>
                formData == old(formData) && errors == old(errors)
      ensures !(IsNumericField(name) && RejectedAtEntry(value)) ==>
                && formData.Get(name) == value
                && (forall g :: g != name ==> formData.Get(g) == old(formData).Get(g))
                && formData.amenities == old(formData).amenities
                && errors == if old(HasError(name)) then old(errors)[name := None] else old(errors)
      ensures currentStep == old(currentStep) && previewMode == old(previewMode)
      ensures isSubmitting == old(isSubmitting)
    {
      if IsNumericField(name) && RejectedAtEntry(value) {
        return;
      }
      forall j | 1 <= j < currentStep
        ensures ValidateStep(j, formData.Set(name, value)) == map[]
      {
        ValidateStepIgnoresOtherSteps(j, formData, name, value);
      }
      formData := formData.Set(name, value);
      if HasError(name) {
        errors := errors[name := None];
      }
    }

    /** `toggleAmenity`: a click on one of the amenity buttons. */
    method ToggleAmenity(a: string)
      requires Valid()
      modifies this
      ensures Valid()
      ensures formData == old(formData).(amenities := Toggle(old(formData).amenities, a))
      ensures errors == old(errors) && currentStep == old(currentStep)
      ensures previewMode == old(previewMode) && isSubmitting == old(isSubmitting)
    {
      ToggleKeepsNoDuplicates(formData.amenities, a);
      forall j | 1 <= j < currentStep
        ensures ValidateStep(j, formData.(amenities := Toggle(formData.amenities, a))) == map[]
      {
        ValidateStepIgnoresAmenities(j, formData, Toggle(formData.amenities, a));
      }
      formData := formData.(amenities := Toggle(formData.amenities, a));
    }

    /** `handleNextStep`: the Next button, rendered on steps 1 to 3. */
    method HandleNextStep()
      requires Valid() && currentStep <= 3
      modifies this
      ensures Valid()
      ensures ValidateStep(old(currentStep), old(formData)) == map[] ==>
                currentStep == old(currentStep) + 1 && errors == old(errors)
      ensures ValidateStep(old(currentStep), old(formData)) != map[] ==>
                currentStep == old(currentStep) && errors == Stored(ValidateStep(old(currentStep), old(formData)))
      ensures formData == old(formData) && previewMode == old(previewMode)
      ensures isSubmitting == old(isSubmitting)
    {
      var newErrors := ValidateStep(currentStep, formData);
      if |newErrors| == 0 {
        currentStep := currentStep + 1;
      } else {
        errors := Stored(newErrors);
      }
    }

    /** `handlePrevStep`: the Back button, rendered on steps 2 to 4; it does not validate. */
    method HandlePrevStep()
      requires Valid() && currentStep >= 2
      modifies this
      ensures Valid()
      ensures currentStep == old(currentStep) - 1
      ensures formData == old(formData) && errors == old(errors)
      ensures previewMode == old(previewMode) && isSubmitting == old(isSubmitting)
    {
      currentStep := currentStep - 1;
    }

    /** The Preview/Edit switch of step 4. */
    method TogglePreview()
      requires Valid() && currentStep == 4
      modifies this
      ensures Valid()
      ensures previewMode == !old(previewMode)
      ensures formData == old(formData) && errors == old(errors) && currentStep == old(currentStep)
      ensures isSubmitting == old(isSubmitting)
    {
      previewMode := !previewMode;
    }

    /**
     * `handleSubmit`: the form's submit event. The only submit button is on
     * step 4 and is disabled while a submission is pending.
     */
    method HandleSubmit()
      requires Valid() && !isSubmitting
      modifies this
      ensures Valid()
      ensures ValidateStep(old(currentStep), old(formData)) == map[] ==>
                isSubmitting && errors == old(errors)
      ensures ValidateStep(old(currentStep), old(formData)) != map[] ==>
                !isSubmitting && errors == Stored(ValidateStep(old(currentStep), old(formData)))
      ensures old(currentStep) == 4 ==> isSubmitting && AllStepsPass(formData)
      ensures formData == old(formData) && currentStep == old(currentStep)
      ensures previewMode == old(previewMode)
    {
      var newErrors := ValidateStep(currentStep, formData);
      if currentStep == 4 {
        assert ValidateStep(1, formData) == map[] && ValidateStep(2, formData) == map[];
        assert ValidateStep(3, formData) == map[];
      }
      if |newErrors| == 0 {
        isSubmitting := true;
      } else {
        errors := Stored(newErrors);
      }
    }

    /** The end of the simulated submission: the wizard starts over. */
    method CompleteSubmission()
      requires Valid() && isSubmitting
      modifies this
      ensures Valid()
      ensures formData == EmptyDraft && currentStep == 1
      ensures !previewMode && !isSubmitting
      ensures errors == old(errors)
    {
      isSubmitting := false;
      formData := EmptyDraft;
      currentStep := 1;
      previewMode := false;
    }
  }

  /** Every text field of the reset draft is empty and no amenity is selected. */
  lemma EmptyDraftIsBlank(f: Field)
    ensures EmptyDraft.Get(f) == "" && EmptyDraft.amenities == []
  {
  }

  /** Steps 1 to 3 all pass on the draft. */
  predicate AllStepsPass(d: Draft) {
    DetailsErrors(d) == map[] && FeaturesErrors(d) == map[] && ContactStepErrors(d) == map[]
  }

  /**
   * Next, Next, Next and Submit on a draft that passes every step end, once the
   * submission completes, back on step 1 with an empty draft.
   */
  method SubmitFlow(w: Wizard)
    requires w.Valid() && w.currentStep == 1 && !w.isSubmitting && AllStepsPass(w.formData)
    modifies w
    ensures w.Valid() && w.currentStep == 1 && w.formData == EmptyDraft && !w.isSubmitting
    ensures w.errors == old(w.errors)
  {
    w.HandleNextStep();
    w.HandleNextStep();
    w.HandleNextStep();
    w.HandleSubmit();
    w.CompleteSubmission();
  }

}
