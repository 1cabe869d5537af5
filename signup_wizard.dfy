/**
 * The business-signup wizard (`BusinessSignupFormModal`): three steps
 * (contact, business, brand), a per-step error map folded from the
 * schemas' issues, the invoicing-email mirror, and the submission that
 * builds the payload and resets the wizard.
 *
 * React state updates and effects are modelled as the state they settle
 * into after an event: a `Wizard` method is one user event together with
 * the effects its state change triggers.
 */
module SignupWizard {
  import opened Wrappers
  import opened ZodIssues
  import opened ContactInfo
  import opened BusinessInfo
  import opened BrandInfo
  import opened SignupPayload

  /** `steps.length` */
  const StepCount: nat := 3

  /** The delay of the status refresh scheduled after a submission, in milliseconds. */
  const RefreshDelay: nat := 1000

  const DefaultContact: ContactData :=
    ContactData("", "", "", "", "", "", "TH", "", "", "", "", false, Some(""))
  const DefaultBusiness: BusinessData := BusinessData("TH", "", Some(""), None)
  const DefaultBrand: BrandData := BrandData("", false)

  /** The `errors` state: one map from field name to message per step. */
  datatype Errors = Errors(contact: map<string, string>, business: map<string, string>, brand: map<string, string>)

  /** What the wizard does outside its own state. */
  datatype Effect =
    | SuccessNotified            // `onSuccess()`
    | CloseNotified              // `onClose()`
    | Submitted(form: FormData)  // `fetcher.submit(form)` to `/business-signup`
    | RefreshScheduled(delayMs: nat)  // `setTimeout(fetchBusinessDetails, delayMs)`

  // ---------------------------------------------------------------- error fold

  /**
   * `issues.reduce((acc, e) => { acc[e.path[0]] = e.message; return acc }, {})`:
   * the fold writes the issues in order, so a later issue under a key
   * overwrites an earlier one. Its keys are exactly the keys of the issues.
   */
  function ErrorMap(issues: seq<Issue>): (m: map<string, string>)
    ensures m.Keys == set i | i in issues :: Key(i)
  {
    if issues == [] then map[]
    else
      var init := issues[..|issues| - 1];
      var last := issues[|issues| - 1];
      assert issues == init + [last];
      ErrorMap(init)[Key(last) := last.message]
  }

  /**
   * A key is in the error map exactly when some issue is filed under it, and
   * it holds the message of the last such issue.
   */
  lemma {:induction false} ErrorMapAt(issues: seq<Issue>, key: string)
    ensures key in ErrorMap(issues) <==> MessagesAt(issues, key) != []
    ensures key in ErrorMap(issues) ==>
      ErrorMap(issues)[key] == MessagesAt(issues, key)[|MessagesAt(issues, key)| - 1]
  {
    if issues != [] {
      var init := issues[..|issues| - 1];
      var last := issues[|issues| - 1];
      assert issues == init + [last];
      assert ErrorMap(issues) == ErrorMap(init)[Key(last) := last.message];
      MessagesAtConcat(init, [last], key);
      assert [last][1..] == [];
      assert MessagesAt([last], key) == if Key(last) == key then [last.message] else [];
      ErrorMapAt(init, key);
    }
  }

  /**
   * An empty contact e-mail is shown with the format message, not with
   * 'Please fill this in': both checks fail and the format check comes last.
   */
  lemma EmptyEmailShowsFormatMessage(c: ContactData, isEmail: string -> bool, validatePhoneNumber: ContactData -> seq<Issue>)
    requires c.email == "" && !isEmail("")
    requires SilentOn(validatePhoneNumber(c), "email")
    ensures "email" in ErrorMap(ContactIssues(c, isEmail, validatePhoneNumber))
    ensures ErrorMap(ContactIssues(c, isEmail, validatePhoneNumber))["email"] == EmailInvalid
  {
    EmailMessages(c, isEmail, validatePhoneNumber);
    ErrorMapAt(ContactIssues(c, isEmail, validatePhoneNumber), "email");
  }

  /**
   * The records the wizard starts from, and returns to, are all rejected:
   * the contact with 'Please fill this in' on the first name,
   */
  lemma DefaultContactRejected(isEmail: string -> bool, validatePhoneNumber: ContactData -> seq<Issue>)
    requires SilentOn(validatePhoneNumber(DefaultContact), "firstName")
    ensures "firstName" in ErrorMap(ContactIssues(DefaultContact, isEmail, validatePhoneNumber))
    ensures ErrorMap(ContactIssues(DefaultContact, isEmail, validatePhoneNumber))["firstName"] == FillIn
  {
    FirstNameMessages(DefaultContact, isEmail, validatePhoneNumber);
    ErrorMapAt(ContactIssues(DefaultContact, isEmail, validatePhoneNumber), "firstName");
  }

  /** the business with 'Please fill this in' on the business name and nothing else, */
  lemma DefaultBusinessRejected()
    ensures ErrorMap(BusinessIssues(DefaultBusiness)) == map["businessName" := FillIn]
  {
    assert BusinessIssues(DefaultBusiness) == [Issue(["businessName"], FillIn)];
  }

  /** and the brand on its name and on the terms. */
  lemma DefaultBrandRejected()
    ensures ErrorMap(BrandIssues(DefaultBrand)) == map["brandName" := FillIn, "agreeToTermsAndPolicies" := MustAcceptTerms]
  {
    assert BrandIssues(DefaultBrand) == [Issue(["brandName"], FillIn), Issue(["agreeToTermsAndPolicies"], MustAcceptTerms)];
  }

  // ------------------------------------------------------- country caption

  /**
   * The caption under the country select, as written: it tests the key
   * `countryCode` and shows the message stored under `country`.
   */
  function CountryCaptionAsWritten(contactErrors: map<string, string>): Option<string>
  {
    if "countryCode" in contactErrors && contactErrors["countryCode"] != "" && "country" in contactErrors
    then Some(contactErrors["country"])
    else None
  }

  /**
   * No rule of the contact schema files an issue under `countryCode`, so the
   * caption never shows, even when the country is empty and its message is
   * in the map.
   */
  lemma CountryCaptionNeverShown(c: ContactData, isEmail: string -> bool, validatePhoneNumber: ContactData -> seq<Issue>)
    requires SilentOn(validatePhoneNumber(c), "countryCode")
    ensures CountryCaptionAsWritten(ErrorMap(ContactIssues(c, isEmail, validatePhoneNumber))) == None
  {
    var issues := ContactIssues(c, isEmail, validatePhoneNumber);
    assert "countryCode" !in ContactFields;
    ContactSilent(c, isEmail, validatePhoneNumber, "countryCode");
    MessagesAtAbsent(issues, "countryCode");
    ErrorMapAt(issues, "countryCode");
  }

  /** The caption keyed by the field it reports on. */
  function CountryCaption(contactErrors: map<string, string>): (r: Option<string>)
    ensures r.Some? <==> "country" in contactErrors
  {
    if "country" in contactErrors then Some(contactErrors["country"]) else None
  }

  /** With the caption keyed by `country`, an empty country shows 'Please fill this in'. */
  lemma EmptyCountryCaptionShown(c: ContactData, isEmail: string -> bool, validatePhoneNumber: ContactData -> seq<Issue>)
    requires c.country == ""
    requires SilentOn(validatePhoneNumber(c), "country")
    ensures CountryCaption(ErrorMap(ContactIssues(c, isEmail, validatePhoneNumber))) == Some(FillIn)
  {
    assert AddressFields[1] == "country" && AddressValues(c)[1] == c.country;
    AddressFieldMessages(c, isEmail, validatePhoneNumber, 1);
    ErrorMapAt(ContactIssues(c, isEmail, validatePhoneNumber), "country");
  }

  // ---------------------------------------------------------------- payload

  /** The business record as serialised: the file is replaced by its name. */
  function ToBusinessJson(b: BusinessData): BusinessJson
  {
    BusinessJson(b.taxCountry, b.businessName, b.organizationNumber,
      if b.proofOfBusiness.Some? then Some(b.proofOfBusiness.value.name) else None)
  }

  /** The `FormData` that `handleRegistrationComplete` submits. */
  function Payload(c: ContactData, b: BusinessData, br: BrandData, user: Option<User>, codecs: Codecs): FormData
  {
    [ Entry("formContactData", Text(codecs.contact.stringify(c))),
      Entry("formBusinessData", Text(codecs.business.stringify(ToBusinessJson(b)))),
      Entry("formBrandData", Text(codecs.brand.stringify(br))),
      Entry("userId", Text(if user.Some? then user.value.uid else "")),
      Entry("userEmail", Text(if user.Some? then OrEmpty(user.value.email) else "")),
      Entry("userDisplayName", Text(if user.Some? then OrEmpty(user.value.displayName) else "")) ]
    + (if b.proofOfBusiness.Some? then [Entry("proofOfBusiness", Blob(b.proofOfBusiness.value))] else [])
  }

  /** The three records read back as their JSON text, '' never among them for a codec that round-trips. */
  lemma PayloadRecords(c: ContactData, b: BusinessData, br: BrandData, user: Option<User>, codecs: Codecs)
    ensures Get(Payload(c, b, br, user, codecs), "formContactData") == Some(Text(codecs.contact.stringify(c)))
    ensures Get(Payload(c, b, br, user, codecs), "formBusinessData") == Some(Text(codecs.business.stringify(ToBusinessJson(b))))
    ensures Get(Payload(c, b, br, user, codecs), "formBrandData") == Some(Text(codecs.brand.stringify(br)))
  {
    var form := Payload(c, b, br, user, codecs);
    GetFirst(form, 0, "formContactData");
    GetFirst(form, 1, "formBusinessData");
    GetFirst(form, 2, "formBrandData");
  }

  /** The user's fields read back as given, or as '' when there is no user or the field is null. */
  lemma PayloadUser(c: ContactData, b: BusinessData, br: BrandData, user: Option<User>, codecs: Codecs)
    ensures Get(Payload(c, b, br, user, codecs), "userId") == Some(Text(if user.Some? then user.value.uid else ""))
    ensures Get(Payload(c, b, br, user, codecs), "userEmail") == Some(Text(if user.Some? then OrEmpty(user.value.email) else ""))
    ensures Get(Payload(c, b, br, user, codecs), "userDisplayName") == Some(Text(if user.Some? then OrEmpty(user.value.displayName) else ""))
  {
    var form := Payload(c, b, br, user, codecs);
    GetFirst(form, 3, "userId");
    GetFirst(form, 4, "userEmail");
    GetFirst(form, 5, "userDisplayName");
  }

  /** The file is sent as a file, and only when there is one. */
  lemma PayloadFile(c: ContactData, b: BusinessData, br: BrandData, user: Option<User>, codecs: Codecs)
    ensures Get(Payload(c, b, br, user, codecs), "proofOfBusiness") == if b.proofOfBusiness.Some? then Some(Blob(b.proofOfBusiness.value)) else None
  {
    if b.proofOfBusiness.Some? {
      GetFirst(Payload(c, b, br, user, codecs), 6, "proofOfBusiness");
    } else {
      GetMissing(Payload(c, b, br, user, codecs), "proofOfBusiness");
    }
  }

  // ---------------------------------------------------------------- mirror

  /** While `useInvoicingEmail` is off, the invoicing e-mail equals the e-mail. */
  predicate Mirrored(c: ContactData)
  {
    !c.useInvoicingEmail ==> c.invoicingEmail == Some(c.email)
  }

  /**
   * The effect on `[useInvoicingEmail, email]`: when either changed and the
   * box is off, the invoicing e-mail is set to the e-mail.
   */
  function AfterMirror(before: ContactData, after: ContactData): (r: ContactData)
    ensures (before.useInvoicingEmail != after.useInvoicingEmail || before.email != after.email) ==> Mirrored(r)
    ensures after.useInvoicingEmail ==> r == after
    ensures before.useInvoicingEmail == after.useInvoicingEmail && before.email == after.email ==> r == after
    ensures r.(invoicingEmail := after.invoicingEmail) == after
  {
    if (before.useInvoicingEmail != after.useInvoicingEmail || before.email != after.email) && !after.useInvoicingEmail
    then after.(invoicingEmail := Some(after.email))
    else after
  }

  // ---------------------------------------------------------------- fields

  /** The text fields of the contact step: the named inputs, the phone field's callbacks and the country select. */
  datatype ContactField =
    | FirstName | LastName | Email | PhoneNumber | PhonePrefix | PhoneCountryCode
    | Country | Street | StreetNumber | PostalCode | City | InvoicingEmail

  function WithContactText(c: ContactData, field: ContactField, value: string): ContactData
  {
    match field
    case FirstName => c.(firstName := value)
    case LastName => c.(lastName := value)
    case Email => c.(email := value)
    case PhoneNumber => c.(phoneNumber := value)
    case PhonePrefix => c.(phonePrefix := value)
    case PhoneCountryCode => c.(phoneCountryCode := value)
    case Country => c.(country := value)
    case Street => c.(street := value)
    case StreetNumber => c.(streetNumber := value)
    case PostalCode => c.(postalCode := value)
    case City => c.(city := value)
    case InvoicingEmail => c.(invoicingEmail := Some(value))
  }

  /** The text fields of the business step. */
  datatype BusinessField = TaxCountry | BusinessName | OrganizationNumber

  function WithBusinessText(b: BusinessData, field: BusinessField, value: string): BusinessData
  {
    match field
    case TaxCountry => b.(taxCountry := value)
    case BusinessName => b.(businessName := value)
    case OrganizationNumber => b.(organizationNumber := Some(value))
  }

  // ---------------------------------------------------------------- wizard

  class Wizard {
    /** zod's e-mail format test. */
    const isEmail: string -> bool
    /** The phone rule of the contact schema. */
    const validatePhoneNumber: ContactData -> seq<Issue>
    /** The signed-in user, if any. */
    const user: Option<User>
    /** Whether an `onSuccess` callback was supplied. */
    const hasOnSuccess: bool
    const codecs: Codecs

    var activeStep: nat
    var isOpen: bool
    var contact: ContactData
    var business: BusinessData
    var brand: BrandData
    var isShowInvoicingEmail: bool
    var errors: Errors
    /** What the wizard has done outside its state, oldest first. */
    var effects: seq<Effect>

    /**
     * Between events the wizard rests on one of its three steps (reaching
     * the fourth completes the registration at once), and a ticked
     * invoicing box has shown the invoicing field.
     */
    predicate Valid()
      reads this
    {
      activeStep < StepCount && (contact.useInvoicingEmail ==> isShowInvoicingEmail)
    }

    /** The issues of the step the wizard is on; the `default` branch accepts. */
    function StepIssues(): seq<Issue>
      reads this
    {
      if activeStep == 0 then ContactIssues(contact, isEmail, validatePhoneNumber)
      else if activeStep == 1 then BusinessIssues(business)
      else if activeStep == 2 then BrandIssues(brand)
      else []
    }

    /** What a completed registration does outside the state, in order. */
    function CompletionEffects(c: ContactData, b: BusinessData, br: BrandData): seq<Effect>
    {
      (if hasOnSuccess then [SuccessNotified] else [])
      + [Submitted(Payload(c, b, br, user, codecs)), RefreshScheduled(RefreshDelay)]
    }

    constructor (open: bool, isEmail: string -> bool, validatePhoneNumber: ContactData -> seq<Issue>,
                 user: Option<User>, hasOnSuccess: bool, codecs: Codecs)
      ensures Valid() && Mirrored(contact)
      ensures this.isEmail == isEmail && this.validatePhoneNumber == validatePhoneNumber
      ensures this.user == user && this.hasOnSuccess == hasOnSuccess && this.codecs == codecs
      ensures activeStep == 0 && isOpen == open && !isShowInvoicingEmail
      ensures contact == DefaultContact && business == DefaultBusiness && brand == DefaultBrand
      ensures errors == Errors(map[], map[], map[]) && effects == []
    {
      this.isEmail := isEmail;
      this.validatePhoneNumber := validatePhoneNumber;
      this.user := user;
      this.hasOnSuccess := hasOnSuccess;
      this.codecs := codecs;
      activeStep := 0;
      isOpen := open;
      contact := DefaultContact;
      business := DefaultBusiness;
      brand := DefaultBrand;
      isShowInvoicingEmail := false;
      errors := Errors(map[], map[], map[]);
      effects := [];
    }

    /** `validateContactData`: folds the contact issues into `errors.contact`. */
    method ValidateContact() returns (ok: bool)
      modifies this`errors
      ensures ok <==> ContactAccepted(contact, isEmail, validatePhoneNumber)
      ensures errors == old(errors).(contact := ErrorMap(ContactIssues(contact, isEmail, validatePhoneNumber)))
    {
      var issues := ContactIssues(contact, isEmail, validatePhoneNumber);
      if issues != [] {
        errors := errors.(contact := ErrorMap(issues));
        return false;
      }
      errors := errors.(contact := map[]);
      ok := true;
    }

    /** `validateBusinessData`: folds the business issues into `errors.business`. */
    method ValidateBusiness() returns (ok: bool)
      modifies this`errors
      ensures ok <==> BusinessIssues(business) == []
      ensures errors == old(errors).(business := ErrorMap(BusinessIssues(business)))
    {
      var issues := BusinessIssues(business);
      if issues != [] {
        errors := errors.(business := ErrorMap(issues));
        return false;
      }
      errors := errors.(business := map[]);
      ok := true;
    }

    /** `validateBrandData`: folds the brand issues into `errors.brand`. */
    method ValidateBrand() returns (ok: bool)
      modifies this`errors
      ensures ok <==> BrandIssues(brand) == []
      ensures errors == old(errors).(brand := ErrorMap(BrandIssues(brand)))
    {
      var issues := BrandIssues(brand);
      if issues != [] {
        errors := errors.(brand := ErrorMap(issues));
        return false;
      }
      errors := errors.(brand := map[]);
      ok := true;
    }

    /**
     * `handleRegistrationComplete`, run by the effect on `activeStep` when it
     * reaches `steps.length`: submits the payload built from the records,
     * closes the wizard and resets it. The error maps and the invoicing
     * field's visibility are left as they are.
     */
    method CompleteRegistration()
      requires activeStep == StepCount
      modifies this`activeStep, this`isOpen, this`contact, this`business, this`brand, this`effects
      ensures activeStep == 0 && !isOpen
      ensures contact == DefaultContact && business == DefaultBusiness && brand == DefaultBrand
      ensures effects == old(effects) + CompletionEffects(old(contact), old(business), old(brand))
    {
      var form: FormData := [];
      form := form + [Entry("formContactData", Text(codecs.contact.stringify(contact)))];
      form := form + [Entry("formBusinessData", Text(codecs.business.stringify(ToBusinessJson(business))))];
      form := form + [Entry("formBrandData", Text(codecs.brand.stringify(brand)))];
      form := form + [Entry("userId", Text(if user.Some? then user.value.uid else ""))];
      form := form + [Entry("userEmail", Text(if user.Some? then OrEmpty(user.value.email) else ""))];
      form := form + [Entry("userDisplayName", Text(if user.Some? then OrEmpty(user.value.displayName) else ""))];
      if business.proofOfBusiness.Some? {
        form := form + [Entry("proofOfBusiness", Blob(business.proofOfBusiness.value))];
      }
      assert form == Payload(contact, business, brand, user, codecs);
      isOpen := false;
      if hasOnSuccess {
        effects := effects + [SuccessNotified];
      }
      activeStep := 0;
      contact := DefaultContact;
      business := DefaultBusiness;
      brand := DefaultBrand;
      effects := effects + [Submitted(form), RefreshScheduled(RefreshDelay)];
    }

    /** The error maps once the current step is validated: that step's map becomes the fold of its issues. */
    function ValidatedErrors(): Errors
      reads this
    {
      if activeStep == 0 then errors.(contact := ErrorMap(ContactIssues(contact, isEmail, validatePhoneNumber)))
      else if activeStep == 1 then errors.(business := ErrorMap(BusinessIssues(business)))
      else if activeStep == 2 then errors.(brand := ErrorMap(BrandIssues(brand)))
      else errors
    }

    /**
     * The `switch` of `handleNext`: validates the step the wizard is on,
     * which rewrites that step's error map and no other.
     */
    method ValidateStep() returns (ok: bool)
      requires Valid()
      modifies this`errors
      ensures ok <==> old(StepIssues()) == []
      ensures old(activeStep) == 0 ==>
        errors == old(errors).(contact := ErrorMap(ContactIssues(contact, isEmail, validatePhoneNumber)))
      ensures old(activeStep) == 1 ==> errors == old(errors).(business := ErrorMap(BusinessIssues(business)))
      ensures old(activeStep) == 2 ==> errors == old(errors).(brand := ErrorMap(BrandIssues(brand)))
      ensures errors == old(ValidatedErrors())
    {
      if activeStep == 0 {
        ok := ValidateContact();
      } else if activeStep == 1 {
        ok := ValidateBusiness();
      } else {
        ok := ValidateBrand();
      }
    }

    /**
     * `handleNext`: validates the current step. A failing step stays put; a
     * passing one advances by one, and passing the brand step completes the
     * registration.
     */
    method Next()
      requires Valid()
      modifies this`activeStep, this`isOpen, this`contact, this`business, this`brand, this`errors, this`effects
      ensures Valid()
      ensures errors == old(ValidatedErrors())
      ensures old(StepIssues()) != [] || old(activeStep) + 1 < StepCount ==>
        && activeStep == (if old(StepIssues()) == [] then old(activeStep) + 1 else old(activeStep))
        && contact == old(contact) && business == old(business) && brand == old(brand)
        && isOpen == old(isOpen) && effects == old(effects)
      ensures old(StepIssues()) == [] && old(activeStep) + 1 == StepCount ==>
        && activeStep == 0 && !isOpen
        && contact == DefaultContact && business == DefaultBusiness && brand == DefaultBrand
        && effects == old(effects) + CompletionEffects(old(contact), old(business), old(brand))
    {
      var isValid := ValidateStep();
      if isValid {
        activeStep := activeStep + 1;
        if activeStep == StepCount {
          CompleteRegistration();
        }
      }
    }

    /** `handleBack`: one step back, with no validation; the button is disabled on the first step. */
    method Back()
      requires Valid() && activeStep != 0
      modifies this`activeStep
      ensures Valid()
      ensures activeStep == old(activeStep) - 1
    {
      activeStep := activeStep - 1;
    }

    /**
     * `handleCloseModal`: closes the wizard, notifies the caller and resets
     * the step and the records; the error maps are left as they are.
     */
    method Cancel()
      requires Valid()
      modifies this`isOpen, this`effects, this`activeStep, this`contact, this`business, this`brand
      ensures Valid() && Mirrored(contact)
      ensures !isOpen && activeStep == 0 && effects == old(effects) + [CloseNotified]
      ensures contact == DefaultContact && business == DefaultBusiness && brand == DefaultBrand
    {
      isOpen := false;
      effects := effects + [CloseNotified];
      activeStep := 0;
      contact := DefaultContact;
      business := DefaultBusiness;
      brand := DefaultBrand;
    }

    /** The effect on the `open` prop. */
    method SetOpen(open: bool)
      modifies this`isOpen
      ensures isOpen == open
    {
      isOpen := open;
    }

    /**
     * A contact text field changes, followed by the mirror effect. Editing
     * the e-mail keeps the mirror; editing the invoicing field stores what
     * was typed, even while the box is off.
     */
    method ChangeContactText(field: ContactField, value: string)
      requires Valid()
      modifies this`contact
      ensures Valid()
      ensures contact == AfterMirror(old(contact), WithContactText(old(contact), field, value))
      ensures field != InvoicingEmail && Mirrored(old(contact)) ==> Mirrored(contact)
      ensures field == InvoicingEmail ==> contact.invoicingEmail == Some(value)
    {
      var before := contact;
      contact := WithContactText(contact, field, value);
      if (before.useInvoicingEmail != contact.useInvoicingEmail || before.email != contact.email)
         && !contact.useInvoicingEmail
      {
        contact := contact.(invoicingEmail := Some(contact.email));
      }
    }

    /**
     * The invoicing box changes, followed by both effects on it: ticking it
     * shows the invoicing field for good, and unticking it copies the
     * e-mail over whatever was typed.
     */
    method ChangeUseInvoicingEmail(checked: bool)
      requires Valid()
      modifies this`contact, this`isShowInvoicingEmail
      ensures Valid()
      ensures contact == AfterMirror(old(contact), old(contact).(useInvoicingEmail := checked))
      ensures isShowInvoicingEmail == (old(isShowInvoicingEmail) || checked)
      ensures Mirrored(old(contact)) ==> Mirrored(contact)
      ensures !checked && old(contact.useInvoicingEmail) ==> contact.invoicingEmail == Some(contact.email)
    {
      var before := contact;
      contact := contact.(useInvoicingEmail := checked);
      if before.useInvoicingEmail != checked {
        if !checked {
          contact := contact.(invoicingEmail := Some(contact.email));
        } else {
          isShowInvoicingEmail := true;
        }
      }
    }

    /** A business text field or select changes. */
    method ChangeBusinessText(field: BusinessField, value: string)
      modifies this`business
      ensures business == WithBusinessText(old(business), field, value)
      ensures business.proofOfBusiness == old(business.proofOfBusiness)
    {
      business := WithBusinessText(business, field, value);
    }

    /** `handleFileUpload`: a chosen file replaces the proof of business; no file changes nothing. */
    method UploadFile(file: Option<FileInfo>)
      modifies this`business
      ensures business == if file.Some? then old(business).(proofOfBusiness := file) else old(business)
    {
      if file.Some? {
        business := business.(proofOfBusiness := file);
      }
    }

    /** The brand name input changes. */
    method ChangeBrandName(value: string)
      modifies this`brand
      ensures brand == old(brand).(brandName := value)
    {
      brand := brand.(brandName := value);
    }

    /** The terms box changes. */
    method ChangeAgreeToTerms(checked: bool)
      modifies this`brand
      ensures brand == old(brand).(agreeToTermsAndPolicies := checked)
    {
      brand := brand.(agreeToTermsAndPolicies := checked);
    }
  }
}
