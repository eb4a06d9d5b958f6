/**
  The six-step quote wizard (`QuoteModal`):
    1 package (optional)   2 property type and address   3 services
    4 property size        5 timeline                    6 contact and submission.
  The component's state hooks become the fields of class `Wizard`; its handlers
  become methods. Timers become returned "scheduled" flags, and the two e-mail
  dispatches become inputs saying whether each send succeeded.
 */
module QuoteModal {
  import opened Text
  import opened Validation
  import opened ServiceList

  const TOTAL_STEPS: int := 6

  datatype Direction = Forward | Backward

  datatype SubmissionStatus = Idle | Success | Error

  /** The keys of the validation-error record: the form fields a step can
      reject, named as in the form record. */
  datatype Field =
    | PropertyType | StreetAddress | City | State | ZipCode
    | Timeline | SpecificDate | SpecificTime
    | Name | Email | Phone

  /** The wizard's accumulated form record. */
  datatype FormData = FormData(
    selectedPackage: string,
    propertyType: string,
    streetAddress: string,
    city: string,
    state: string,
    zipCode: string,
    services: seq<string>,
    propertySize: string,
    squareFootage: string,
    timeline: string,
    specificDate: string,
    specificTime: string,
    deadlineDate: string,
    name: string,
    email: string,
    phone: string,
    notes: string)

  /** The record the wizard starts from and `resetForm` restores. */
  function EmptyForm(): (f: FormData)
    ensures f.selectedPackage == "" && f.propertyType == "" && f.streetAddress == ""
    ensures f.city == "" && f.state == "" && f.zipCode == "" && f.services == []
    ensures f.propertySize == "" && f.squareFootage == "" && f.timeline == ""
    ensures f.specificDate == "" && f.specificTime == "" && f.deadlineDate == ""
    ensures f.name == "" && f.email == "" && f.phone == "" && f.notes == ""
  {
    FormData("", "", "", "", "", "", [], "", "", "", "", "", "", "", "", "", "")
  }

  // ------------------------------------------------------------- constants

  const COMMERCIAL := "Commercial"
  const SPECIFIC_DATE := "Specific Date"
  const FLEXIBLE := "Flexible / Not urgent"

  const PROPERTY_TYPE_REQUIRED := "Please select a property type"
  const STREET_REQUIRED := "Please enter the street address"
  const CITY_REQUIRED := "Please enter the city"
  const STATE_REQUIRED := "Please select a state"
  const ZIP_REQUIRED := "Please enter the ZIP code"
  const ZIP_INVALID := "Please enter a valid ZIP code"
  const TIMELINE_REQUIRED := "Please select a timeline"
  const DATE_REQUIRED := "Please select a specific date"
  const TIME_REQUIRED := "Please select a specific time"
  const NAME_REQUIRED := "Name is required"
  const EMAIL_REQUIRED := "Email is required"
  const EMAIL_INVALID := "Please enter a valid email"
  const PHONE_REQUIRED := "Phone is required"
  const PHONE_INVALID := "Please enter a valid phone number"
  const FALLBACK_MESSAGE :=
    "Something went wrong. Please try again or email us directly at envoymediaco@gmail.com"

  const SERVICE_ID := "service_rq3n255"
  const BUSINESS_TEMPLATE := "template_xptmd5r"
  const CUSTOMER_TEMPLATE := "template_3r2gzfb"

  /** The service buttons of step 3. */
  const SERVICE_LABELS: seq<string> := [
    "Real Estate Photography",
    "Real Estate Videography",
    "3D Tour (Matterport / Zillow 3D)",
    "Agent Walkthrough Video",
    "Vacation Rental Media"]

  // ------------------------------------------------------------ step moves

  /** `Math.min(prev + 1, TOTAL_STEPS)`. */
  function NextStep(step: int): (r: int)
    ensures 1 <= step <= TOTAL_STEPS ==> 1 <= r <= TOTAL_STEPS
    ensures r == step + 1 || (r == TOTAL_STEPS && step >= TOTAL_STEPS - 1)
  {
    if step + 1 < TOTAL_STEPS then step + 1 else TOTAL_STEPS
  }

  /** `Math.max(prev - 1, 1)`. */
  function PreviousStep(step: int): (r: int)
    ensures 1 <= step <= TOTAL_STEPS ==> 1 <= r <= TOTAL_STEPS
    ensures r == step - 1 || (r == 1 && step <= 2)
  {
    if step - 1 > 1 then step - 1 else 1
  }

  /** Back undoes Next everywhere except on the last step, and Next undoes Back
      everywhere except on the first. */
  lemma StepMovesInverse(step: int)
    requires 1 <= step <= TOTAL_STEPS
    ensures step < TOTAL_STEPS ==> PreviousStep(NextStep(step)) == step
    ensures step > 1 ==> NextStep(PreviousStep(step)) == step
    ensures NextStep(TOTAL_STEPS) == TOTAL_STEPS && PreviousStep(1) == 1
  {
  }

  /** `k` presses of Next from `step` land on `min(step + k, TOTAL_STEPS)`. */
  function NextSteps(step: int, k: nat): int
    decreases k
  {
    if k == 0 then step else NextSteps(NextStep(step), k - 1)
  }

  lemma {:induction false} NextStepsClamped(step: int, k: nat)
    requires 1 <= step <= TOTAL_STEPS
    decreases k
    ensures NextSteps(step, k) == if step + k < TOTAL_STEPS then step + k else TOTAL_STEPS
  {
    if k > 0 {
      NextStepsClamped(NextStep(step), k - 1);
    }
  }

  // --------------------------------------------------------------- packages

  /** The lookup table inside `handlePackageSelect`. */
  const PACKAGE_SERVICES: map<string, seq<string>> := map[
    "Essential" := ["Real Estate Photography"],
    "Professional" := ["Real Estate Photography", "Real Estate Videography"],
    "Premium" := [
      "Real Estate Photography",
      "Real Estate Videography",
      "3D Tour (Matterport / Zillow 3D)",
      "Agent Walkthrough Video"]]

  /** The names the five package buttons pass to `handlePackageSelect`. */
  const PACKAGE_BUTTONS: seq<string> := [
    "Essential Package",
    "Professional Package",
    "Elite Package",
    "Vacation Rental Package",
    "Commercial Package"]

  /** `packageServices[packageName] || []`. */
  function PackageServices(packageName: string): (r: seq<string>)
    ensures packageName in PACKAGE_SERVICES ==> r == PACKAGE_SERVICES[packageName] && r != []
    ensures packageName !in PACKAGE_SERVICES ==> r == []
    ensures NoDuplicates(r)
  {
    if packageName in PACKAGE_SERVICES then PACKAGE_SERVICES[packageName] else []
  }

  /** The table is keyed by short names while every button passes a long one,
      so no button ever pre-fills a service. */
  lemma PackageButtonsPrefillNothing()
    ensures forall i :: 0 <= i < |PACKAGE_BUTTONS| ==>
      PACKAGE_BUTTONS[i] !in PACKAGE_SERVICES && PackageServices(PACKAGE_BUTTONS[i]) == []
  {
  }

  /** The form after choosing a package. */
  function WithPackage(f: FormData, packageName: string): (g: FormData)
    ensures g.selectedPackage == packageName
    ensures g.services == PackageServices(packageName)
    ensures g.(selectedPackage := f.selectedPackage, services := f.services) == f
  {
    f.(selectedPackage := packageName, services := PackageServices(packageName))
  }

  /** Whatever service list the user had built is discarded by any package
      button: the list is empty afterwards, and step 3's Next is disabled. */
  lemma PackageButtonClearsServices(f: FormData, i: int)
    requires 0 <= i < |PACKAGE_BUTTONS|
    ensures WithPackage(f, PACKAGE_BUTTONS[i]).services == []
    ensures !CanProceedFromStep2(WithPackage(f, PACKAGE_BUTTONS[i]))
  {
    PackageButtonsPrefillNothing();
  }

  // ------------------------------------------------------------------ gates

  /** `canProceedFromStep1`: enables the Next button of the address step. */
  predicate CanProceedFromStep1(f: FormData) {
    && f.propertyType != ""
    && !IsBlank(f.streetAddress)
    && !IsBlank(f.city)
    && f.state != ""
    && !IsBlank(f.zipCode)
  }

  /** `canProceedFromStep2`: enables the Next button of the services step. */
  predicate CanProceedFromStep2(f: FormData) {
    |f.services| > 0
  }

  /** `canProceedFromStep4`: enables the Next button of the timeline step. */
  predicate CanProceedFromStep4(f: FormData) {
    && f.timeline != ""
    && (f.timeline != SPECIFIC_DATE || (f.specificDate != "" && f.specificTime != ""))
  }

  /** The Next button of the size step exists only for "Commercial" and is
      disabled while the square footage is empty or blank. */
  predicate CommercialNextEnabled(f: FormData) {
    f.propertySize == COMMERCIAL && !(f.squareFootage == "" || Trim(f.squareFootage) == "")
  }

  lemma CommercialNextNeedsFootage(f: FormData)
    ensures CommercialNextEnabled(f) <==>
      f.propertySize == COMMERCIAL && exists i :: 0 <= i < |f.squareFootage| && !IsSpace(f.squareFootage[i])
  {
  }

  /** The submit button: disabled while sending and after a success, so a
      failed submission can be retried and a successful one cannot. */
  predicate SubmitEnabled(isSubmitting: bool, status: SubmissionStatus) {
    !isSubmitting && status != Success
  }

  // ------------------------------------------------------------- validation

  /** The error record `handleStep1Next` builds, one entry per violated field. */
  function AddressErrors(f: FormData): map<Field, string> {
    var e0: map<Field, string> := map[];
    var e1 := if f.propertyType == "" then e0[PropertyType := PROPERTY_TYPE_REQUIRED] else e0;
    var e2 := if IsBlank(f.streetAddress) then e1[StreetAddress := STREET_REQUIRED] else e1;
    var e3 := if IsBlank(f.city) then e2[City := CITY_REQUIRED] else e2;
    var e4 := if f.state == "" then e3[State := STATE_REQUIRED] else e3;
    if IsBlank(f.zipCode) then e4[ZipCode := ZIP_REQUIRED]
    else if !ZipShape(f.zipCode) then e4[ZipCode := ZIP_INVALID]
    else e4
  }

  /** Which fields the address step reports: every missing one, and the ZIP code
      whenever it is not a well-formed ZIP code, blank or not. */
  lemma AddressErrorsReport(f: FormData)
    ensures var r := AddressErrors(f);
      && r.Keys <= {PropertyType, StreetAddress, City, State, ZipCode}
      && (PropertyType in r <==> f.propertyType == "")
      && (StreetAddress in r <==> AllSpace(f.streetAddress))
      && (City in r <==> AllSpace(f.city))
      && (State in r <==> f.state == "")
      && (ZipCode in r <==> !ZipShape(f.zipCode))
      && (ZipCode in r ==> r[ZipCode] == if AllSpace(f.zipCode) then ZIP_REQUIRED else ZIP_INVALID)
  {
    AddressFieldsReport(f);
    AddressZipReport(f);
  }

  lemma AddressFieldsReport(f: FormData)
    ensures var r := AddressErrors(f);
      && r.Keys <= {PropertyType, StreetAddress, City, State, ZipCode}
      && (PropertyType in r <==> f.propertyType == "")
      && (StreetAddress in r <==> AllSpace(f.streetAddress))
      && (City in r <==> AllSpace(f.city))
      && (State in r <==> f.state == "")
  {
  }

  lemma AddressZipReport(f: FormData)
    ensures var r := AddressErrors(f);
      && (ZipCode in r <==> !ZipShape(f.zipCode))
      && (ZipCode in r ==> r[ZipCode] == if AllSpace(f.zipCode) then ZIP_REQUIRED else ZIP_INVALID)
  {
    ZipShapeNotBlank(f.zipCode);
  }

  /** An address the validator accepts also enables the button that runs it. */
  lemma AddressAcceptedEnablesNext(f: FormData)
    requires AddressErrors(f) == map[]
    ensures CanProceedFromStep1(f)
  {
    AddressErrorsReport(f);
    assert ZipCode !in AddressErrors(f);
  }

  /** The converse fails: a four-digit ZIP code enables the Next button (the
      button only asks for a non-blank value) and then is rejected. */
  lemma FourDigitZipEnabledButRejected(f: FormData)
    requires f.propertyType != "" && f.state != ""
    requires !AllSpace(f.streetAddress) && !AllSpace(f.city)
    requires f.zipCode == "3360"
    ensures CanProceedFromStep1(f)
    ensures AddressErrors(f) == map[ZipCode := ZIP_INVALID]
  {
    assert !IsSpace(f.zipCode[0]);
    ZipExamples();
    AddressErrorsReport(f);
    var r := AddressErrors(f);
    assert r.Keys == {ZipCode};
  }

  /** A complete address with a five-digit ZIP code passes. */
  lemma FiveDigitZipAccepted(f: FormData)
    requires f.propertyType != "" && f.state != ""
    requires !AllSpace(f.streetAddress) && !AllSpace(f.city)
    requires f.zipCode == "33601"
    ensures AddressErrors(f) == map[]
  {
    ZipExamples();
    AddressErrorsReport(f);
    var r := AddressErrors(f);
    assert r.Keys == {};
  }

  /** The error record `handleStep4Next` builds. */
  function TimelineErrors(f: FormData): map<Field, string> {
    var e0: map<Field, string> := map[];
    var e1 := if f.timeline == "" then e0[Timeline := TIMELINE_REQUIRED] else e0;
    if f.timeline == SPECIFIC_DATE then
      var e2 := if f.specificDate == "" then e1[SpecificDate := DATE_REQUIRED] else e1;
      if f.specificTime == "" then e2[SpecificTime := TIME_REQUIRED] else e2
    else e1
  }

  /** Which fields the timeline step reports: a missing timeline, and under
      "Specific Date" a missing date and a missing time, each with its own
      message. */
  lemma TimelineErrorsReport(f: FormData)
    ensures var r := TimelineErrors(f);
      && r.Keys <= {Timeline, SpecificDate, SpecificTime}
      && (Timeline in r <==> f.timeline == "")
      && (Timeline in r ==> r[Timeline] == TIMELINE_REQUIRED)
      && (SpecificDate in r <==> f.timeline == SPECIFIC_DATE && f.specificDate == "")
      && (SpecificDate in r ==> r[SpecificDate] == DATE_REQUIRED)
      && (SpecificTime in r <==> f.timeline == SPECIFIC_DATE && f.specificTime == "")
      && (SpecificTime in r ==> r[SpecificTime] == TIME_REQUIRED)
  {
  }

  /** The timeline step's validator and its button gate agree exactly. */
  lemma TimelineErrorsMatchGate(f: FormData)
    ensures TimelineErrors(f) == map[] <==> CanProceedFromStep4(f)
  {
    var r := TimelineErrors(f);
    if f.timeline == "" {
      assert Timeline in r;
    } else if f.timeline == SPECIFIC_DATE {
      if f.specificDate == "" {
        assert SpecificDate in r;
      } else if f.specificTime == "" {
        assert SpecificTime in r;
      } else {
        assert r.Keys == {};
      }
    } else {
      assert r.Keys == {};
    }
  }

  /** The error record `handleSubmit` builds for the contact step. */
  function ContactErrors(f: FormData): map<Field, string> {
    var e0: map<Field, string> := map[];
    var e1 := if IsBlank(f.name) then e0[Name := NAME_REQUIRED] else e0;
    var e2 :=
      if IsBlank(f.email) then e1[Email := EMAIL_REQUIRED]
      else if !EmailShape(f.email) then e1[Email := EMAIL_INVALID]
      else e1;
    if IsBlank(f.phone) then e2[Phone := PHONE_REQUIRED]
    else if !ValidatePhone(f.phone) then e2[Phone := PHONE_INVALID]
    else e2
  }

  /** Which fields the contact step reports: a blank name, an e-mail that does not
      match (a blank one says "required"), a phone without ten digits. */
  lemma ContactErrorsReport(f: FormData)
    ensures var r := ContactErrors(f);
      && r.Keys <= {Name, Email, Phone}
      && (Name in r <==> AllSpace(f.name))
      && (Email in r <==> !EmailShape(f.email))
      && (Email in r ==> r[Email] == if AllSpace(f.email) then EMAIL_REQUIRED else EMAIL_INVALID)
      && (Phone in r <==> !ValidatePhone(f.phone))
      && (Phone in r ==> r[Phone] == if AllSpace(f.phone) then PHONE_REQUIRED else PHONE_INVALID)
  {
    ContactNameReport(f);
    ContactEmailReport(f);
    ContactPhoneReport(f);
  }

  lemma ContactNameReport(f: FormData)
    ensures var r := ContactErrors(f);
      && r.Keys <= {Name, Email, Phone}
      && (Name in r <==> AllSpace(f.name))
  {
  }

  lemma ContactEmailReport(f: FormData)
    ensures var r := ContactErrors(f);
      && (Email in r <==> !EmailShape(f.email))
      && (Email in r ==> r[Email] == if AllSpace(f.email) then EMAIL_REQUIRED else EMAIL_INVALID)
  {
    EmailShapeNotBlank(f.email);
  }

  lemma ContactPhoneReport(f: FormData)
    ensures var r := ContactErrors(f);
      && (Phone in r <==> !ValidatePhone(f.phone))
      && (Phone in r ==> r[Phone] == if AllSpace(f.phone) then PHONE_REQUIRED else PHONE_INVALID)
  {
    ValidatePhoneNotBlank(f.phone);
  }

  /** The contact step passes exactly when the name is non-blank, the e-mail
      matches and the phone has ten digits. */
  lemma ContactErrorsEmptyIff(f: FormData)
    ensures ContactErrors(f) == map[] <==>
      !AllSpace(f.name) && EmailShape(f.email) && ValidatePhone(f.phone)
  {
    ContactErrorsReport(f);
    var r := ContactErrors(f);
    if !AllSpace(f.name) && EmailShape(f.email) && ValidatePhone(f.phone) {
      assert r.Keys == {};
    }
  }

  /** A non-blank address without `@` (say "not-an-email") is reported on the
      e-mail field as malformed, not as missing. */
  lemma EmailWithoutAtReported(f: FormData)
    requires '@' !in f.email && !AllSpace(f.email)
    ensures Email in ContactErrors(f) && ContactErrors(f)[Email] == EMAIL_INVALID
  {
    assert IndexOf(f.email, '@') == |f.email|;
    assert !EmailShape(f.email);
    ContactEmailReport(f);
  }

  /** The field-by-field checks of `handleStep1Next`, filling the local error
      record one entry at a time. */
  method CollectAddressErrors(f: FormData) returns (errors: map<Field, string>)
    ensures errors == AddressErrors(f)
  {
    errors := map[];
    if f.propertyType == "" {
      errors := errors[PropertyType := PROPERTY_TYPE_REQUIRED];
    }
    if IsBlank(f.streetAddress) {
      errors := errors[StreetAddress := STREET_REQUIRED];
    }
    if IsBlank(f.city) {
      errors := errors[City := CITY_REQUIRED];
    }
    if f.state == "" {
      errors := errors[State := STATE_REQUIRED];
    }
    if IsBlank(f.zipCode) {
      errors := errors[ZipCode := ZIP_REQUIRED];
    } else if !ZipShape(f.zipCode) {
      errors := errors[ZipCode := ZIP_INVALID];
    }
  }

  /** The field-by-field checks at the top of `handleSubmit`. */
  method CollectContactErrors(f: FormData) returns (errors: map<Field, string>)
    ensures errors == ContactErrors(f)
  {
    errors := map[];
    if IsBlank(f.name) {
      errors := errors[Name := NAME_REQUIRED];
    }
    if IsBlank(f.email) {
      errors := errors[Email := EMAIL_REQUIRED];
    } else if !EmailShape(f.email) {
      errors := errors[Email := EMAIL_INVALID];
    }
    if IsBlank(f.phone) {
      errors := errors[Phone := PHONE_REQUIRED];
    } else if !ValidatePhone(f.phone) {
      errors := errors[Phone := PHONE_INVALID];
    }
  }

  // ------------------------------------------------------------ choices

  /** The form after choosing a timeline: its date, time and deadline are
      cleared. */
  function WithTimeline(f: FormData, timeline: string): (g: FormData)
    ensures g.timeline == timeline
    ensures g.specificDate == "" && g.specificTime == "" && g.deadlineDate == ""
    ensures g.(timeline := f.timeline, specificDate := f.specificDate,
               specificTime := f.specificTime, deadlineDate := f.deadlineDate) == f
  {
    f.(timeline := timeline, specificDate := "", specificTime := "", deadlineDate := "")
  }

  /** Right after a timeline choice the step's Next button is enabled exactly
      when the choice is not "Specific Date": that choice needs a date and a time
      first. */
  lemma TimelineChoiceGate(f: FormData, timeline: string)
    requires timeline != ""
    ensures CanProceedFromStep4(WithTimeline(f, timeline)) <==> timeline != SPECIFIC_DATE
  {
  }

  /** The timeline choices that advance by themselves. */
  predicate TimelineAutoAdvances(timeline: string) {
    timeline != SPECIFIC_DATE && timeline != FLEXIBLE
  }

  /** The size choices that advance by themselves. */
  predicate SizeAutoAdvances(size: string) {
    size != COMMERCIAL
  }

  /** After choosing "Commercial" the step is left only through its Next button,
      and that button needs a square footage; every other size advances by itself
      and has no button. */
  lemma SizeChoiceGate(f: FormData, size: string)
    ensures SizeAutoAdvances(size) ==> !CommercialNextEnabled(f.(propertySize := size))
    ensures !SizeAutoAdvances(size) ==>
      (CommercialNextEnabled(f.(propertySize := size)) <==> !AllSpace(f.squareFootage))
  {
  }

  // -------------------------------------------------------------- dispatch

  /** The flat parameter record sent with both e-mails; the field names are
      the keys the e-mail templates read, and every value is a string. */
  datatype TemplateParams = TemplateParams(
    from_name: string,
    from_email: string,
    phone: string,
    selected_package: string,
    property_type: string,
    street_address: string,
    city: string,
    state: string,
    zip_code: string,
    services: string,
    property_size: string,
    square_footage: string,
    timeline: string,
    specific_date: string,
    specific_time: string,
    deadline_date: string,
    notes: string)

  /** `templateParams`: every form field copied as it stands, except that no
      package reads "Custom" and the service list is joined with ", ". */
  function BuildTemplateParams(f: FormData): (r: TemplateParams)
    ensures r.selected_package != ""
    ensures f.selectedPackage != "" ==> r.selected_package == f.selectedPackage
    ensures f.selectedPackage == "" ==> r.selected_package == "Custom"
    ensures r.services == Join(f.services, ", ")
  {
    TemplateParams(
      from_name := f.name,
      from_email := f.email,
      phone := f.phone,
      selected_package := if f.selectedPackage == "" then "Custom" else f.selectedPackage,
      property_type := f.propertyType,
      street_address := f.streetAddress,
      city := f.city,
      state := f.state,
      zip_code := f.zipCode,
      services := Join(f.services, ", "),
      property_size := f.propertySize,
      square_footage := f.squareFootage,
      timeline := f.timeline,
      specific_date := f.specificDate,
      specific_time := f.specificTime,
      deadline_date := f.deadlineDate,
      notes := f.notes)
  }

  /** The recipient can read the service list back from the record, for any
      non-empty selection of the offered labels. */
  lemma ServicesReadBack(f: FormData)
    requires |f.services| >= 1
    requires forall i :: 0 <= i < |f.services| ==> f.services[i] in SERVICE_LABELS
    ensures SplitAtCommas(BuildTemplateParams(f).services) == f.services
  {
    LabelsHaveNoComma();
    SplitJoinRoundTrip(f.services);
  }

  lemma LabelsHaveNoComma()
    ensures forall x :: x in SERVICE_LABELS ==> ',' !in x
  {
    assert ',' !in SERVICE_LABELS[0];
    assert ',' !in SERVICE_LABELS[1];
    assert ',' !in SERVICE_LABELS[2];
    assert ',' !in SERVICE_LABELS[3];
    assert ',' !in SERVICE_LABELS[4];
  }

  /** No package and a package literally named "Custom" send the same record. */
  lemma CustomPackageIndistinguishable(f: FormData)
    requires f.selectedPackage == ""
    ensures BuildTemplateParams(f) == BuildTemplateParams(f.(selectedPackage := "Custom"))
  {
  }

  /** One call of the e-mail service. */
  datatype Dispatch = Dispatch(serviceId: string, templateId: string, params: TemplateParams)

  /** The calls `handleSubmit` makes for a valid form, given whether the first
      send succeeds: the acknowledgment goes out only after the notice went. */
  function Dispatches(f: FormData, firstSent: bool): (r: seq<Dispatch>)
    ensures 1 <= |r| <= 2 && (|r| == 2 <==> firstSent)
    ensures r[0] == Dispatch(SERVICE_ID, BUSINESS_TEMPLATE, BuildTemplateParams(f))
    ensures |r| == 2 ==> r[1] == Dispatch(SERVICE_ID, CUSTOMER_TEMPLATE, BuildTemplateParams(f))
  {
    var notice := Dispatch(SERVICE_ID, BUSINESS_TEMPLATE, BuildTemplateParams(f));
    if firstSent then [notice, notice.(templateId := CUSTOMER_TEMPLATE)] else [notice]
  }

  // ----------------------------------------------------------------- wizard

  class Wizard {
    var step: int
    var direction: Direction
    var formData: FormData
    var validationErrors: map<Field, string>
    var isSubmitting: bool
    var submissionStatus: SubmissionStatus
    var errorMessage: string

    /** The step stays within 1..6 and the service list never repeats a label. */
    ghost predicate Valid()
      reads this
    {
      1 <= step <= TOTAL_STEPS && NoDuplicates(formData.services)
    }

    constructor ()
      ensures Valid()
      ensures step == 1 && direction == Forward && formData == EmptyForm()
      ensures validationErrors == map[] && !isSubmitting
      ensures submissionStatus == Idle && errorMessage == ""
    {
      step := 1;
      direction := Forward;
      formData := EmptyForm();
      validationErrors := map[];
      isSubmitting := false;
      submissionStatus := Idle;
      errorMessage := "";
    }

    /** `resetForm`: everything but the slide direction back to the start. */
    method ResetForm()
      modifies this`step, this`formData, this`validationErrors, this`isSubmitting,
               this`submissionStatus, this`errorMessage
      ensures Valid()
      ensures step == 1 && formData == EmptyForm() && validationErrors == map[]
      ensures !isSubmitting && submissionStatus == Idle && errorMessage == ""
    {
      step := 1;
      formData := EmptyForm();
      validationErrors := map[];
      isSubmitting := false;
      submissionStatus := Idle;
      errorMessage := "";
    }

    /** `handleNext`. */
    method HandleNext()
      requires Valid()
      modifies this`step, this`direction
      ensures Valid()
      ensures step == NextStep(old(step)) && direction == Forward
    {
      direction := Forward;
      step := if step + 1 < TOTAL_STEPS then step + 1 else TOTAL_STEPS;
    }

    /** `handleBack`. */
    method HandleBack()
      requires Valid()
      modifies this`step, this`direction
      ensures Valid()
      ensures step == PreviousStep(old(step)) && direction == Backward
    {
      direction := Backward;
      step := if step - 1 > 1 then step - 1 else 1;
    }

    /** `handlePackageSelect`: records the package, replaces the service list by
      the table's entry, and schedules one advance. */
    method HandlePackageSelect(packageName: string) returns (advanceScheduled: bool)
      requires Valid()
      modifies this`formData
      ensures Valid()
      ensures formData == WithPackage(old(formData), packageName)
      ensures advanceScheduled
    {
      formData := formData.(selectedPackage := packageName, services := PackageServices(packageName));
      advanceScheduled := true;
    }

    /** `handlePropertyType`. */
    method HandlePropertyType(propertyType: string)
      requires Valid()
      modifies this`formData
      ensures Valid()
      ensures formData == old(formData).(propertyType := propertyType)
    {
      formData := formData.(propertyType := propertyType);
    }

    /** `handleStep1Next`: collects every address error; with none, clears the
      errors and advances, otherwise shows them and stays. */
    method HandleStep1Next()
      requires Valid()
      modifies this`validationErrors, this`step, this`direction
      ensures Valid()
      ensures AddressErrors(formData) != map[] ==>
        validationErrors == AddressErrors(formData) && step == old(step) && direction == old(direction)
      ensures AddressErrors(formData) == map[] ==>
        validationErrors == map[] && step == NextStep(old(step)) && direction == Forward
    {
      var errors := CollectAddressErrors(formData);
      if |errors| > 0 {
        validationErrors := errors;
        return;
      }
      validationErrors := map[];
      HandleNext();
    }

    /** `handleServiceToggle`. */
    method HandleServiceToggle(service: string)
      requires Valid()
      modifies this`formData
      ensures Valid()
      ensures formData == old(formData).(services := Toggle(old(formData).services, service))
    {
      ToggleKeepsNoDuplicates(formData.services, service);
      formData := formData.(services := Toggle(formData.services, service));
    }

    /** `handlePropertySize`: schedules an advance unless the size is
      "Commercial". */
    method HandlePropertySize(size: string) returns (advanceScheduled: bool)
      requires Valid()
      modifies this`formData
      ensures Valid()
      ensures formData == old(formData).(propertySize := size)
      ensures advanceScheduled == SizeAutoAdvances(size)
    {
      formData := formData.(propertySize := size);
      advanceScheduled := size != COMMERCIAL;
    }

    /** The Next button of the size step: present and enabled only for a
      commercial property with a square footage. */
    method HandleCommercialNext() returns (pressed: bool)
      requires Valid()
      modifies this`step, this`direction
      ensures Valid()
      ensures pressed == CommercialNextEnabled(formData)
      ensures pressed ==> step == NextStep(old(step)) && direction == Forward
      ensures !pressed ==> step == old(step) && direction == old(direction)
    {
      pressed := formData.propertySize == COMMERCIAL
        && !(formData.squareFootage == "" || Trim(formData.squareFootage) == "");
      if pressed {
        HandleNext();
      }
    }

    /** `handleTimeline`: sets the timeline, clears its sub-fields and schedules
      an advance unless a date or deadline is to be picked. */
    method HandleTimeline(timeline: string) returns (advanceScheduled: bool)
      requires Valid()
      modifies this`formData
      ensures Valid()
      ensures formData == WithTimeline(old(formData), timeline)
      ensures advanceScheduled == TimelineAutoAdvances(timeline)
    {
      formData := formData.(timeline := timeline, specificDate := "", specificTime := "", deadlineDate := "");
      advanceScheduled := timeline != SPECIFIC_DATE && timeline != FLEXIBLE;
    }

    /** `handleStep4Next`. */
    method HandleStep4Next()
      requires Valid()
      modifies this`validationErrors, this`step, this`direction
      ensures Valid()
      ensures !CanProceedFromStep4(formData) ==>
        validationErrors == TimelineErrors(formData) && step == old(step) && direction == old(direction)
      ensures CanProceedFromStep4(formData) ==>
        validationErrors == map[] && step == NextStep(old(step)) && direction == Forward
    {
      TimelineErrorsMatchGate(formData);
      var f := formData;
      var errors: map<Field, string> := map[];
      if f.timeline == "" {
        errors := errors[Timeline := TIMELINE_REQUIRED];
      }
      if f.timeline == SPECIFIC_DATE {
        if f.specificDate == "" {
          errors := errors[SpecificDate := DATE_REQUIRED];
        }
        if f.specificTime == "" {
          errors := errors[SpecificTime := TIME_REQUIRED];
        }
      }
      if |errors| > 0 {
        validationErrors := errors;
        return;
      }
      validationErrors := map[];
      HandleNext();
    }

    /** `handleSubmit`, with the outcome of each e-mail send given as input. On a
      contact error nothing is sent and the submission state is untouched;
      otherwise the notice is sent, the acknowledgment only if the notice went,
      and the status is "success" only if both went. */
    method HandleSubmit(firstSendSucceeds: bool, secondSendSucceeds: bool)
      returns (sent: seq<Dispatch>, closeScheduled: bool)
      requires Valid()
      modifies this`validationErrors, this`errorMessage, this`isSubmitting, this`submissionStatus
      ensures Valid()
      ensures ContactErrors(formData) != map[] ==>
        && validationErrors == ContactErrors(formData)
        && isSubmitting == old(isSubmitting) && submissionStatus == old(submissionStatus)
        && errorMessage == old(errorMessage)
        && sent == [] && !closeScheduled
      ensures ContactErrors(formData) == map[] ==>
        var ok := firstSendSucceeds && secondSendSucceeds;
        && validationErrors == map[]
        && sent == Dispatches(formData, firstSendSucceeds)
        && !isSubmitting
        && submissionStatus == (if ok then Success else Error)
        && errorMessage == (if ok then "" else FALLBACK_MESSAGE)
        && closeScheduled == ok
        && SubmitEnabled(isSubmitting, submissionStatus) == !ok
    {
      var errors := CollectContactErrors(formData);
      if |errors| > 0 {
        validationErrors := errors;
        sent, closeScheduled := [], false;
        return;
      }

      validationErrors := map[];
      errorMessage := "";
      isSubmitting := true;
      submissionStatus := Idle;

      var templateParams := BuildTemplateParams(formData);
      sent := [Dispatch(SERVICE_ID, BUSINESS_TEMPLATE, templateParams)];
      if firstSendSucceeds {
        sent := sent + [Dispatch(SERVICE_ID, CUSTOMER_TEMPLATE, templateParams)];
      }
      if firstSendSucceeds && secondSendSucceeds {
        submissionStatus := Success;
        isSubmitting := false;
        closeScheduled := true;
      } else {
        submissionStatus := Error;
        isSubmitting := false;
        errorMessage := FALLBACK_MESSAGE;
        closeScheduled := false;
      }
    }
  }
}
