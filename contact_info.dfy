/**
 * `ContactInfoSchema`: the rules of the wizard's first step.
 *
 * Two checks belong to libraries whose code is not part of this model and
 * are taken as parameters: `isEmail` is zod's `.email()` format test and
 * `validatePhoneNumber` is the phone rule the schema's `superRefine` calls
 * first, given here as the list of issues it adds for a record.
 */
module ContactInfo {
  import opened Wrappers
  import opened ZodIssues

  /** `defaultNameCharacterLimit` */
  const NameLimit: nat := 100

  const FirstNameTooLong: string := "First Name must be at most 100 characters long"
  const LastNameTooLong: string := "Last Name must be at most 100 characters long"
  const EmailInvalid: string := "Email must be a valid email"
  const InvoicingEmailInvalid: string := "Invoicing email must be a valid email"

  /**
   * A contact record. `invoicingEmail` is optional in the schema; the wizard
   * always holds a string there. An absent `useInvoicingEmail` behaves as
   * `false` in every rule and is written as `false`.
   */
  datatype ContactData = ContactData(
    firstName: string,
    lastName: string,
    email: string,
    phoneNumber: string,
    phonePrefix: string,
    phoneCountryCode: string,
    country: string,
    street: string,
    streetNumber: string,
    postalCode: string,
    city: string,
    useInvoicingEmail: bool,
    invoicingEmail: Option<string>)

  /** A name field: `.min(1, 'Please fill this in').max(100, tooLong)`. */
  function NameIssues(field: string, s: string, tooLong: string): seq<Issue>
  {
    Check(|s| >= 1, [field], FillIn) + Check(|s| <= NameLimit, [field], tooLong)
  }

  /** A field with only `.min(1, 'Please fill this in')`. */
  function RequiredIssues(field: string, s: string): seq<Issue>
  {
    Check(|s| >= 1, [field], FillIn)
  }

  /** `email: z.string().min(1, …).email('Email must be a valid email')` */
  function EmailIssues(email: string, isEmail: string -> bool): seq<Issue>
  {
    Check(|email| >= 1, ["email"], FillIn) + Check(isEmail(email), ["email"], EmailInvalid)
  }

  /** `invoicingEmail: z.string().email(…).optional()`: checked whenever present. */
  function InvoicingEmailFormatIssues(invoicingEmail: Option<string>, isEmail: string -> bool): seq<Issue>
  {
    match invoicingEmail
    case None => []
    case Some(e) => Check(isEmail(e), ["invoicingEmail"], InvoicingEmailInvalid)
  }

  /** The names of the fields that only have to be filled in, in the order of the shape. */
  const AddressFields: seq<string> := ["phonePrefix", "country", "street", "streetNumber", "postalCode", "city"]

  /** The values of those fields, in the same order. */
  function AddressValues(c: ContactData): (r: seq<string>)
    ensures |r| == |AddressFields|
  {
    [c.phonePrefix, c.country, c.street, c.streetNumber, c.postalCode, c.city]
  }

  /** A run of fields with only `.min(1, 'Please fill this in')`, checked in order. */
  function RequiredAll(names: seq<string>, values: seq<string>): seq<Issue>
    requires |names| == |values|
  {
    if names == [] then [] else RequiredIssues(names[0], values[0]) + RequiredAll(names[1..], values[1..])
  }

  /** The address block: the prefix and the five address fields. */
  function AddressIssues(c: ContactData): seq<Issue>
  {
    RequiredAll(AddressFields, AddressValues(c))
  }

  /** The issues of the object's fields, in the order of its shape. */
  function FieldIssues(c: ContactData, isEmail: string -> bool): seq<Issue>
  {
    (NameIssues("firstName", c.firstName, FirstNameTooLong) + NameIssues("lastName", c.lastName, LastNameTooLong))
    + (EmailIssues(c.email, isEmail)
    + (AddressIssues(c)
    + InvoicingEmailFormatIssues(c.invoicingEmail, isEmail)))
  }

  /** The cross-field rule: `useInvoicingEmail && !invoicingEmail`. */
  function InvoicingRequiredIssues(c: ContactData): seq<Issue>
  {
    var missing := c.invoicingEmail == None || c.invoicingEmail == Some("");
    Check(!(c.useInvoicingEmail && missing), ["invoicingEmail"], FillIn)
  }

  /** What the schema accepts, stated field by field. */
  predicate ContactAccepted(c: ContactData, isEmail: string -> bool, validatePhoneNumber: ContactData -> seq<Issue>)
  {
    && 1 <= |c.firstName| <= NameLimit
    && 1 <= |c.lastName| <= NameLimit
    && c.email != "" && isEmail(c.email)
    && c.phonePrefix != ""
    && c.country != "" && c.street != "" && c.streetNumber != ""
    && c.postalCode != "" && c.city != ""
    && (c.invoicingEmail.Some? ==> isEmail(c.invoicingEmail.value))
    && validatePhoneNumber(c) == []
    && (c.useInvoicingEmail ==> c.invoicingEmail.Some? && c.invoicingEmail.value != "")
  }

  /**
   * `ContactInfoSchema.safeParse(c).error.errors`: the field issues, then the
   * issues of the phone rule, then the invoicing-email rule.
   */
  function ContactIssues(c: ContactData, isEmail: string -> bool, validatePhoneNumber: ContactData -> seq<Issue>): (r: seq<Issue>)
    ensures r == [] <==> ContactAccepted(c, isEmail, validatePhoneNumber)
  {
    AddressEmpty(c);
    FieldIssues(c, isEmail) + (validatePhoneNumber(c) + InvoicingRequiredIssues(c))
  }

  lemma CheckKey(ok: bool, field: string, message: string, key: string)
    requires field != key
    ensures SilentOn(Check(ok, [field], message), key)
  {
  }

  /** Each group of rules files its issues under its own fields only. */
  lemma NameSilent(field: string, s: string, tooLong: string, key: string)
    requires field != key
    ensures SilentOn(NameIssues(field, s, tooLong), key)
  {
    CheckKey(|s| >= 1, field, FillIn, key);
    CheckKey(|s| <= NameLimit, field, tooLong, key);
    SilentOnConcat(Check(|s| >= 1, [field], FillIn), Check(|s| <= NameLimit, [field], tooLong), key);
  }

  lemma EmailSilent(email: string, isEmail: string -> bool, key: string)
    requires key != "email"
    ensures SilentOn(EmailIssues(email, isEmail), key)
  {
    CheckKey(|email| >= 1, "email", FillIn, key);
    CheckKey(isEmail(email), "email", EmailInvalid, key);
    SilentOnConcat(Check(|email| >= 1, ["email"], FillIn), Check(isEmail(email), ["email"], EmailInvalid), key);
  }

  /** The address block has no issue exactly when all six fields are filled in. */
  lemma AddressEmpty(c: ContactData)
    ensures AddressIssues(c) == [] <==>
      (c.phonePrefix != "" && c.country != "" && c.street != ""
       && c.streetNumber != "" && c.postalCode != "" && c.city != "")
  {
    var v := AddressValues(c);
    RequiredAllEmpty(AddressFields, v);
    assert v[0] == c.phonePrefix && v[1] == c.country && v[2] == c.street;
    assert v[3] == c.streetNumber && v[4] == c.postalCode && v[5] == c.city;
  }

  lemma AddressSilent(c: ContactData, key: string)
    requires key !in AddressFields
    ensures SilentOn(AddressIssues(c), key)
  {
    RequiredAllSilent(AddressFields, AddressValues(c), key);
  }

  lemma InvoicingSilent(c: ContactData, isEmail: string -> bool, key: string)
    requires key != "invoicingEmail"
    ensures SilentOn(InvoicingEmailFormatIssues(c.invoicingEmail, isEmail), key)
    ensures SilentOn(InvoicingRequiredIssues(c), key)
  {
    if c.invoicingEmail.Some? {
      CheckKey(isEmail(c.invoicingEmail.value), "invoicingEmail", InvoicingEmailInvalid, key);
    }
    CheckKey(!(c.useInvoicingEmail && (c.invoicingEmail == None || c.invoicingEmail == Some(""))), "invoicingEmail", FillIn, key);
  }

  /** The messages of a name field: two checks on one field. */
  lemma NameMessages(field: string, s: string, tooLong: string)
    ensures MessagesAt(NameIssues(field, s, tooLong), field)
         == (if s == "" then [FillIn] else []) + (if |s| > NameLimit then [tooLong] else [])
  {
    MessagesAtConcat(Check(|s| >= 1, [field], FillIn), Check(|s| <= NameLimit, [field], tooLong), field);
    MessagesAtCheck(|s| >= 1, field, FillIn, field);
    MessagesAtCheck(|s| <= NameLimit, field, tooLong, field);
  }

  /**
   * A first name reports 'Please fill this in' when empty and the length
   * message when over 100 characters, and nothing else.
   */
  lemma FirstNameMessages(c: ContactData, isEmail: string -> bool, validatePhoneNumber: ContactData -> seq<Issue>)
    requires SilentOn(validatePhoneNumber(c), "firstName")
    ensures MessagesAt(ContactIssues(c, isEmail, validatePhoneNumber), "firstName")
         == (if c.firstName == "" then [FillIn] else [])
          + (if |c.firstName| > NameLimit then [FirstNameTooLong] else [])
  {
    var k := "firstName";
    var n1 := NameIssues(k, c.firstName, FirstNameTooLong);
    var n2 := NameIssues("lastName", c.lastName, LastNameTooLong);
    var e := EmailIssues(c.email, isEmail);
    var a := AddressIssues(c);
    var f := InvoicingEmailFormatIssues(c.invoicingEmail, isEmail);
    var phone := validatePhoneNumber(c);
    var req := InvoicingRequiredIssues(c);
    NameSilent("lastName", c.lastName, LastNameTooLong, k);
    EmailSilent(c.email, isEmail, k);
    AddressSilent(c, k);
    InvoicingSilent(c, isEmail, k);
    SilentOnConcat(a, f, k);
    SilentOnConcat(e, a + f, k);
    SilentOnConcat(phone, req, k);
    MessagesAtOnly(FieldIssues(c, isEmail), phone + req, k);
    MessagesAtOnly(n1 + n2, e + (a + f), k);
    MessagesAtOnly(n1, n2, k);
    NameMessages(k, c.firstName, FirstNameTooLong);
  }

  /** The same for the last name. */
  lemma LastNameMessages(c: ContactData, isEmail: string -> bool, validatePhoneNumber: ContactData -> seq<Issue>)
    requires SilentOn(validatePhoneNumber(c), "lastName")
    ensures MessagesAt(ContactIssues(c, isEmail, validatePhoneNumber), "lastName")
         == (if c.lastName == "" then [FillIn] else [])
          + (if |c.lastName| > NameLimit then [LastNameTooLong] else [])
  {
    var k := "lastName";
    var n1 := NameIssues("firstName", c.firstName, FirstNameTooLong);
    var n2 := NameIssues(k, c.lastName, LastNameTooLong);
    var e := EmailIssues(c.email, isEmail);
    var a := AddressIssues(c);
    var f := InvoicingEmailFormatIssues(c.invoicingEmail, isEmail);
    var phone := validatePhoneNumber(c);
    var req := InvoicingRequiredIssues(c);
    NameSilent("firstName", c.firstName, FirstNameTooLong, k);
    EmailSilent(c.email, isEmail, k);
    AddressSilent(c, k);
    InvoicingSilent(c, isEmail, k);
    SilentOnConcat(a, f, k);
    SilentOnConcat(e, a + f, k);
    SilentOnConcat(phone, req, k);
    MessagesAtOnly(FieldIssues(c, isEmail), phone + req, k);
    MessagesAtOnly(n1 + n2, e + (a + f), k);
    MessagesAtSkip(n1, n2, k);
    NameMessages(k, c.lastName, LastNameTooLong);
  }

  /**
   * The e-mail field reports 'Please fill this in' when empty and then the
   * format message whenever the address is not well formed; so an empty
   * address reports both when `isEmail("")` is false.
   */
  lemma EmailMessages(c: ContactData, isEmail: string -> bool, validatePhoneNumber: ContactData -> seq<Issue>)
    requires SilentOn(validatePhoneNumber(c), "email")
    ensures MessagesAt(ContactIssues(c, isEmail, validatePhoneNumber), "email")
         == (if c.email == "" then [FillIn] else [])
          + (if isEmail(c.email) then [] else [EmailInvalid])
  {
    var k := "email";
    var n1 := NameIssues("firstName", c.firstName, FirstNameTooLong);
    var n2 := NameIssues("lastName", c.lastName, LastNameTooLong);
    var e := EmailIssues(c.email, isEmail);
    var a := AddressIssues(c);
    var f := InvoicingEmailFormatIssues(c.invoicingEmail, isEmail);
    var phone := validatePhoneNumber(c);
    var req := InvoicingRequiredIssues(c);
    NameSilent("firstName", c.firstName, FirstNameTooLong, k);
    NameSilent("lastName", c.lastName, LastNameTooLong, k);
    AddressSilent(c, k);
    InvoicingSilent(c, isEmail, k);
    SilentOnConcat(n1, n2, k);
    SilentOnConcat(a, f, k);
    SilentOnConcat(phone, req, k);
    MessagesAtOnly(FieldIssues(c, isEmail), phone + req, k);
    MessagesAtSkip(n1 + n2, e + (a + f), k);
    MessagesAtOnly(e, a + f, k);
    MessagesAtConcat(Check(|c.email| >= 1, [k], FillIn), Check(isEmail(c.email), [k], EmailInvalid), k);
    MessagesAtCheck(|c.email| >= 1, k, FillIn, k);
    MessagesAtCheck(isEmail(c.email), k, EmailInvalid, k);
  }

  /**
   * The invoicing e-mail reports the format message whenever it is present
   * and malformed (even with `useInvoicingEmail` off), then 'Please fill
   * this in' when it is required and empty or missing.
   */
  lemma InvoicingEmailMessages(c: ContactData, isEmail: string -> bool, validatePhoneNumber: ContactData -> seq<Issue>)
    requires SilentOn(validatePhoneNumber(c), "invoicingEmail")
    ensures MessagesAt(ContactIssues(c, isEmail, validatePhoneNumber), "invoicingEmail")
         == (if c.invoicingEmail.Some? && !isEmail(c.invoicingEmail.value) then [InvoicingEmailInvalid] else [])
          + (if c.useInvoicingEmail && (c.invoicingEmail == None || c.invoicingEmail == Some("")) then [FillIn] else [])
  {
    var k := "invoicingEmail";
    var n1 := NameIssues("firstName", c.firstName, FirstNameTooLong);
    var n2 := NameIssues("lastName", c.lastName, LastNameTooLong);
    var e := EmailIssues(c.email, isEmail);
    var a := AddressIssues(c);
    var f := InvoicingEmailFormatIssues(c.invoicingEmail, isEmail);
    var phone := validatePhoneNumber(c);
    var req := InvoicingRequiredIssues(c);
    NameSilent("firstName", c.firstName, FirstNameTooLong, k);
    NameSilent("lastName", c.lastName, LastNameTooLong, k);
    EmailSilent(c.email, isEmail, k);
    AddressSilent(c, k);
    SilentOnConcat(n1, n2, k);
    MessagesAtConcat(FieldIssues(c, isEmail), phone + req, k);
    MessagesAtSkip(phone, req, k);
    MessagesAtSkip(n1 + n2, e + (a + f), k);
    MessagesAtSkip(e, a + f, k);
    MessagesAtSkip(a, f, k);
    if c.invoicingEmail.Some? {
      MessagesAtCheck(isEmail(c.invoicingEmail.value), k, InvoicingEmailInvalid, k);
    }
    MessagesAtCheck(!(c.useInvoicingEmail && (c.invoicingEmail == None || c.invoicingEmail == Some(""))), k, FillIn, k);
  }

  /** A run of required fields has no issue exactly when every value is non-empty. */
  lemma {:induction false} RequiredAllEmpty(names: seq<string>, values: seq<string>)
    requires |names| == |values|
    ensures RequiredAll(names, values) == [] <==> forall j :: 0 <= j < |values| ==> values[j] != ""
  {
    if names != [] {
      RequiredAllEmpty(names[1..], values[1..]);
      assert forall j :: 1 <= j < |values| ==> values[j] == values[1..][j - 1];
    }
  }

  /** A run of required fields files nothing under a name outside it. */
  lemma {:induction false} RequiredAllSilent(names: seq<string>, values: seq<string>, key: string)
    requires |names| == |values|
    requires key !in names
    ensures SilentOn(RequiredAll(names, values), key)
  {
    if names != [] {
      CheckKey(|values[0]| >= 1, names[0], FillIn, key);
      RequiredAllSilent(names[1..], values[1..], key);
      SilentOnConcat(RequiredIssues(names[0], values[0]), RequiredAll(names[1..], values[1..]), key);
    }
  }

  /** Names that occur once each. */
  predicate Distinct(names: seq<string>)
  {
    forall i, j :: 0 <= i < j < |names| ==> names[i] != names[j]
  }

  /**
   * Among distinct names, the field at position `j` reports 'Please fill
   * this in' when its value is empty, and nothing otherwise.
   */
  lemma {:induction false} RequiredAllAt(names: seq<string>, values: seq<string>, j: nat)
    requires |names| == |values| && j < |names| && Distinct(names)
    ensures MessagesAt(RequiredAll(names, values), names[j]) == if values[j] == "" then [FillIn] else []
  {
    var k := names[j];
    var head := RequiredIssues(names[0], values[0]);
    var tail := RequiredAll(names[1..], values[1..]);
    MessagesAtConcat(head, tail, k);
    MessagesAtCheck(|values[0]| >= 1, names[0], FillIn, k);
    if j == 0 {
      assert k !in names[1..] by {
        forall i | 0 <= i < |names[1..]|
          ensures names[1..][i] != k
        {
          assert names[1..][i] == names[i + 1];
        }
      }
      RequiredAllSilent(names[1..], values[1..], k);
      MessagesAtAbsent(tail, k);
    } else {
      assert names[1..][j - 1] == k;
      RequiredAllAt(names[1..], values[1..], j - 1);
    }
  }

  /** Within the address block, each field reports only its own emptiness. */
  lemma AddressMessages(c: ContactData, j: nat)
    requires j < |AddressFields|
    ensures MessagesAt(AddressIssues(c), AddressFields[j]) == if AddressValues(c)[j] == "" then [FillIn] else []
  {
    RequiredAllAt(AddressFields, AddressValues(c), j);
  }

  /** A required address field reports exactly 'Please fill this in' when empty. */
  lemma AddressFieldMessages(c: ContactData, isEmail: string -> bool, validatePhoneNumber: ContactData -> seq<Issue>, j: nat)
    requires j < |AddressFields|
    requires SilentOn(validatePhoneNumber(c), AddressFields[j])
    ensures MessagesAt(ContactIssues(c, isEmail, validatePhoneNumber), AddressFields[j])
         == if AddressValues(c)[j] == "" then [FillIn] else []
  {
    var k := AddressFields[j];
    var n1 := NameIssues("firstName", c.firstName, FirstNameTooLong);
    var n2 := NameIssues("lastName", c.lastName, LastNameTooLong);
    var e := EmailIssues(c.email, isEmail);
    var a := AddressIssues(c);
    var f := InvoicingEmailFormatIssues(c.invoicingEmail, isEmail);
    var phone := validatePhoneNumber(c);
    var req := InvoicingRequiredIssues(c);
    NameSilent("firstName", c.firstName, FirstNameTooLong, k);
    NameSilent("lastName", c.lastName, LastNameTooLong, k);
    EmailSilent(c.email, isEmail, k);
    InvoicingSilent(c, isEmail, k);
    SilentOnConcat(n1, n2, k);
    SilentOnConcat(phone, req, k);
    MessagesAtOnly(FieldIssues(c, isEmail), phone + req, k);
    MessagesAtSkip(n1 + n2, e + (a + f), k);
    MessagesAtSkip(e, a + f, k);
    MessagesAtOnly(a, f, k);
    AddressMessages(c, j);
  }

  /** The names the schema's own rules file issues under. */
  const ContactFields: seq<string> := ["firstName", "lastName", "email", "invoicingEmail"] + AddressFields

  /** A key outside the schema's fields receives issues only from the phone rule. */
  lemma ContactSilent(c: ContactData, isEmail: string -> bool, validatePhoneNumber: ContactData -> seq<Issue>, key: string)
    requires key !in ContactFields
    requires SilentOn(validatePhoneNumber(c), key)
    ensures SilentOn(ContactIssues(c, isEmail, validatePhoneNumber), key)
  {
    assert key != ContactFields[0] && key != ContactFields[1] && key != ContactFields[2] && key != ContactFields[3];
    assert key !in AddressFields by {
      forall j | 0 <= j < |AddressFields| ensures AddressFields[j] != key {
        assert AddressFields[j] == ContactFields[4 + j];
      }
    }
    var n1 := NameIssues("firstName", c.firstName, FirstNameTooLong);
    var n2 := NameIssues("lastName", c.lastName, LastNameTooLong);
    var e := EmailIssues(c.email, isEmail);
    var a := AddressIssues(c);
    var f := InvoicingEmailFormatIssues(c.invoicingEmail, isEmail);
    var phone := validatePhoneNumber(c);
    var req := InvoicingRequiredIssues(c);
    NameSilent("firstName", c.firstName, FirstNameTooLong, key);
    NameSilent("lastName", c.lastName, LastNameTooLong, key);
    EmailSilent(c.email, isEmail, key);
    AddressSilent(c, key);
    InvoicingSilent(c, isEmail, key);
    SilentOnConcat(n1, n2, key);
    SilentOnConcat(a, f, key);
    SilentOnConcat(e, a + f, key);
    SilentOnConcat(n1 + n2, e + (a + f), key);
    SilentOnConcat(phone, req, key);
    SilentOnConcat(FieldIssues(c, isEmail), phone + req, key);
  }
}
