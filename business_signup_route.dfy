/**
 * The `business-signup` route's `action`: it reads the wizard's `FormData`,
 * rejects a request whose records are malformed or missing, sends the
 * confirmation mail, uploads the proof of business and posts three records
 * to the backend.
 *
 * The mail service, the upload and the three posts are calls whose code is
 * not part of this model: the upload and the posts are parameters giving
 * their outcome, and every call is recorded as a `RouteEffect`.
 */
module BusinessSignupRoute {
  import opened Wrappers
  import opened ContactInfo
  import opened BusinessInfo
  import opened BrandInfo
  import opened SignupPayload
  import opened SignupWizard

  const InvalidJson: string := "Invalid JSON data"
  const DataMissing: string := "Business, Brand or Contact data is missing"

  /** How `JSON.parse` sees a `File` stored under a text name: `String(file)`. */
  const FileText: string := "[object File]"

  /** `{success: true}`, a 400 with an error text, or a 500. */
  datatype Response = Success | BadRequest(error: string) | ServerError

  /** The backend's business record; `document` is the id of the uploaded file. */
  datatype BusinessRecord = BusinessRecord(
    name: string,
    taxCountry: string,
    organizationNumber: Option<string>,
    document: Option<nat>,
    firebaseUserRefId: string)

  /** The backend's contact record. */
  datatype ContactRecord = ContactRecord(
    firstName: string,
    lastName: string,
    email: string,
    phoneNumber: string,
    phonePrefix: string,
    phoneCountryCode: string,
    country: string,
    street: string,
    streetNumber: string,
    postalCode: string,
    city: string,
    useInvoiceEmail: bool,
    invoiceEmail: Option<string>,
    firebaseUserRefId: Option<string>)

  /** The backend's brand record. */
  datatype BrandRecord = BrandRecord(name: string, agreeTermsAndPolicies: bool, firebaseUserRefId: Option<string>)

  datatype Post = BusinessPost(business: BusinessRecord) | ContactPost(contact: ContactRecord) | BrandPost(brand: BrandRecord)

  /** The calls the action makes outside itself. */
  datatype RouteEffect =
    | MailSent(to: string, displayName: string)
    | FileUploaded(file: FileInfo)
    | Posted(request: Post)

  // ---------------------------------------------------------------- reading the form

  /** `formData.get(name) as string | null` */
  function TextField(form: FormData, name: string): Option<string>
  {
    match Get(form, name)
    case None => None
    case Some(Text(t)) => Some(t)
    case Some(Blob(_)) => Some(FileText)
  }

  /** A string that JavaScript treats as true: present and non-empty. */
  predicate Present(t: Option<string>)
  {
    t.Some? && t.value != ""
  }

  /** The field is present and `JSON.parse` throws on it. */
  predicate ParseFails<T>(t: Option<string>, codec: Codec<T>)
  {
    Present(t) && codec.parse(t.value).None?
  }

  predicate AnyParseFails(form: FormData, codecs: Codecs)
  {
    || ParseFails(TextField(form, "formBusinessData"), codecs.business)
    || ParseFails(TextField(form, "formContactData"), codecs.contact)
    || ParseFails(TextField(form, "formBrandData"), codecs.brand)
  }

  predicate AllPresent(form: FormData)
  {
    && Present(TextField(form, "formBusinessData"))
    && Present(TextField(form, "formContactData"))
    && Present(TextField(form, "formBrandData"))
  }

  datatype Parsed = Parsed(business: BusinessJson, contact: ContactData, brand: BrandData)

  datatype Checked = Rejected(response: Response) | Accepted(parsed: Parsed)

  /**
   * The two checks before any call is made: every present record must
   * parse, and only then must all three be present. A record that does not
   * parse is reported even when another one is missing.
   */
  function CheckFields(form: FormData, codecs: Codecs): (r: Checked)
    ensures r.Accepted? <==> AllPresent(form) && !AnyParseFails(form, codecs)
    ensures AnyParseFails(form, codecs) ==> r == Rejected(BadRequest(InvalidJson))
    ensures r == Rejected(BadRequest(DataMissing)) <==> !AnyParseFails(form, codecs) && !AllPresent(form)
    ensures r.Accepted? ==>
      && Some(r.parsed.business) == codecs.business.parse(TextField(form, "formBusinessData").value)
      && Some(r.parsed.contact) == codecs.contact.parse(TextField(form, "formContactData").value)
      && Some(r.parsed.brand) == codecs.brand.parse(TextField(form, "formBrandData").value)
  {
    var business := TextField(form, "formBusinessData");
    var contact := TextField(form, "formContactData");
    var brand := TextField(form, "formBrandData");
    if ParseFails(business, codecs.business) || ParseFails(contact, codecs.contact) || ParseFails(brand, codecs.brand) then
      Rejected(BadRequest(InvalidJson))
    else if !Present(business) || !Present(contact) || !Present(brand) then
      Rejected(BadRequest(DataMissing))
    else
      Accepted(Parsed(
        codecs.business.parse(business.value).value,
        codecs.contact.parse(contact.value).value,
        codecs.brand.parse(brand.value).value))
  }

  // ---------------------------------------------------------------- records

  /** The business record read back into the wizard's serialised form, given the file name. */
  function BusinessOf(r: BusinessRecord, proofName: Option<string>): BusinessJson
  {
    BusinessJson(r.taxCountry, r.name, r.organizationNumber, proofName)
  }

  /** `newBusiness`: the user id defaults to ''. */
  function NewBusiness(b: BusinessJson, document: Option<nat>, userId: Option<string>): (r: BusinessRecord)
    ensures BusinessOf(r, b.proofOfBusiness) == b
    ensures r.document == document
    ensures r.firebaseUserRefId == if userId.Some? then userId.value else ""
  {
    BusinessRecord(b.businessName, b.taxCountry, b.organizationNumber, document, OrEmpty(userId))
  }

  /** The contact record read back into the wizard's form, `invoice_email` as the invoicing e-mail. */
  function ContactOf(r: ContactRecord): ContactData
  {
    ContactData(r.firstName, r.lastName, r.email, r.phoneNumber, r.phonePrefix, r.phoneCountryCode,
      r.country, r.street, r.streetNumber, r.postalCode, r.city, r.useInvoiceEmail, r.invoiceEmail)
  }

  /**
   * `newContact`: the fields are copied one to one and `invoice_email` is
   * the invoicing e-mail when the box is ticked, else the e-mail. The
   * record gives the contact back exactly when the contact is mirrored: an
   * invoicing e-mail typed while the box is off is dropped.
   */
  function NewContact(c: ContactData, userId: Option<string>): (r: ContactRecord)
    ensures c.useInvoicingEmail ==> r.invoiceEmail == c.invoicingEmail
    ensures !c.useInvoicingEmail ==> r.invoiceEmail == Some(c.email)
    ensures ContactOf(r) == c <==> Mirrored(c)
    ensures ContactOf(r).(invoicingEmail := c.invoicingEmail) == c
    ensures r.firebaseUserRefId == userId
  {
    ContactRecord(c.firstName, c.lastName, c.email, c.phoneNumber, c.phonePrefix, c.phoneCountryCode,
      c.country, c.street, c.streetNumber, c.postalCode, c.city, c.useInvoicingEmail,
      if c.useInvoicingEmail then c.invoicingEmail else Some(c.email),
      userId)
  }

  /**
   * A contact the schema accepts is posted with a non-empty, well-formed
   * invoice e-mail, whichever way the box is set.
   */
  lemma AcceptedContactInvoiceEmail(c: ContactData, isEmail: string -> bool,
                                    validatePhoneNumber: ContactData -> seq<ZodIssues.Issue>, userId: Option<string>)
    requires ContactAccepted(c, isEmail, validatePhoneNumber)
    ensures NewContact(c, userId).invoiceEmail.Some?
    ensures NewContact(c, userId).invoiceEmail.value != ""
    ensures isEmail(NewContact(c, userId).invoiceEmail.value)
  {
  }

  function BrandOf(r: BrandRecord): BrandData
  {
    BrandData(r.name, r.agreeTermsAndPolicies)
  }

  /** `newBrand` */
  function NewBrand(br: BrandData, userId: Option<string>): (r: BrandRecord)
    ensures BrandOf(r) == br
    ensures r.firebaseUserRefId == userId
  {
    BrandRecord(br.brandName, br.agreeToTermsAndPolicies, userId)
  }

  /** `fileUpload.length ? fileUpload[0].id : null` */
  function DocumentId(ids: seq<nat>): (r: Option<nat>)
    ensures r.Some? <==> |ids| > 0
    ensures r.Some? ==> r.value == ids[0]
  {
    if |ids| > 0 then Some(ids[0]) else None
  }

  /** The three posts of one request, in the order they are started. */
  function Posts(p: Parsed, document: Option<nat>, userId: Option<string>): seq<Post>
  {
    [ BusinessPost(NewBusiness(p.business, document, userId)),
      ContactPost(NewContact(p.contact, userId)),
      BrandPost(NewBrand(p.brand, userId)) ]
  }

  /** The confirmation mail, sent when `userEmail` is present. */
  function MailEffects(form: FormData): seq<RouteEffect>
  {
    var email := TextField(form, "userEmail");
    if Present(email) then [MailSent(email.value, OrEmpty(TextField(form, "userDisplayName")))] else []
  }

  // ---------------------------------------------------------------- action

  /** Where the file step leaves the request. */
  datatype FileOutcome =
    | NoUpload                                      // no file was sent
    | UploadedAs(file: FileInfo, document: Option<nat>)
    | FileFailed(effects: seq<RouteEffect>)        // the request ends in a 500 after these calls

  /**
   * The file step: a file is uploaded and its first id, if any, becomes the
   * document; a text under the file's name makes the upload throw, and so
   * does a failed upload.
   */
  function FileStep(form: FormData, upload: FileInfo -> Option<seq<nat>>): (r: FileOutcome)
    ensures r.NoUpload? <==> Get(form, "proofOfBusiness") in {None, Some(Text(""))}
    ensures r.UploadedAs? ==> Get(form, "proofOfBusiness") == Some(Blob(r.file)) && upload(r.file).Some?
    ensures r.UploadedAs? ==> r.document == DocumentId(upload(r.file).value)
  {
    match Get(form, "proofOfBusiness")
    case None => NoUpload
    case Some(Text(t)) => if t == "" then NoUpload else FileFailed([])
    case Some(Blob(f)) =>
      match upload(f)
      case None => FileFailed([FileUploaded(f)])
      case Some(ids) => UploadedAs(f, DocumentId(ids))
  }

  function UploadEffects(outcome: FileOutcome): seq<RouteEffect>
  {
    match outcome
    case NoUpload => []
    case UploadedAs(f, _) => [FileUploaded(f)]
    case FileFailed(e) => e
  }

  function Document(outcome: FileOutcome): Option<nat>
  {
    if outcome.UploadedAs? then outcome.document else None
  }

  /**
   * `action`. A rejected request makes no call. Otherwise the mail goes
   * first, whatever happens next; then the file step; then all three records
   * are posted, and the request succeeds only when every post does.
   */
  method Action(form: FormData, codecs: Codecs, upload: FileInfo -> Option<seq<nat>>, post: Post -> bool)
    returns (response: Response, effects: seq<RouteEffect>)
    ensures CheckFields(form, codecs).Rejected? ==>
      response == CheckFields(form, codecs).response && effects == []
    ensures CheckFields(form, codecs).Accepted? && FileStep(form, upload).FileFailed? ==>
      response == ServerError && effects == MailEffects(form) + UploadEffects(FileStep(form, upload))
    ensures CheckFields(form, codecs).Accepted? && !FileStep(form, upload).FileFailed? ==>
      var posts := Posts(CheckFields(form, codecs).parsed, Document(FileStep(form, upload)), TextField(form, "userId"));
      && effects == MailEffects(form) + UploadEffects(FileStep(form, upload)) + PostEffects(posts)
      && (response == Success <==> AllSucceed(posts, post))
      && (response != Success ==> response == ServerError)
  {
    var file := Get(form, "proofOfBusiness");
    var userId := TextField(form, "userId");
    var email := TextField(form, "userEmail");
    var displayName := TextField(form, "userDisplayName");

    var checked := CheckFields(form, codecs);
    if checked.Rejected? {
      return checked.response, [];
    }
    var parsed := checked.parsed;

    effects := [];
    if Present(email) {
      effects := effects + [MailSent(email.value, OrEmpty(displayName))];
    }
    assert effects == MailEffects(form);

    ghost var outcome := FileStep(form, upload);
    var document: Option<nat> := None;
    if file.Some? {
      match file.value
      case Blob(f) =>
        effects := effects + [FileUploaded(f)];
        var ids := upload(f);
        if ids.None? {
          assert outcome == FileFailed([FileUploaded(f)]);
          return ServerError, effects;
        }
        document := DocumentId(ids.value);
        assert outcome == UploadedAs(f, document);
      case Text(t) =>
        if t != "" {
          assert outcome == FileFailed([]);
          return ServerError, effects;
        }
        assert outcome == NoUpload;
    } else {
      assert outcome == NoUpload;
    }
    assert effects == MailEffects(form) + UploadEffects(outcome) && document == Document(outcome);

    var posts := Posts(parsed, document, userId);
    effects := effects + PostEffects(posts);
    var businessDone := post(posts[0]);
    var contactDone := post(posts[1]);
    var brandDone := post(posts[2]);
    assert AllSucceed(posts, post) <==> businessDone && contactDone && brandDone;
    if businessDone && contactDone && brandDone {
      response := Success;
    } else {
      response := ServerError;
    }
  }

  function PostEffects(posts: seq<Post>): (r: seq<RouteEffect>)
    ensures |r| == |posts|
    ensures forall i :: 0 <= i < |posts| ==> r[i] == Posted(posts[i])
  {
    if posts == [] then [] else [Posted(posts[0])] + PostEffects(posts[1..])
  }

  /** `Promise.all` of the posts resolves. */
  predicate AllSucceed(posts: seq<Post>, post: Post -> bool)
  {
    forall i :: 0 <= i < |posts| ==> post(posts[i])
  }

  // ---------------------------------------------------------------- wizard to route

  /**
   * What the wizard submits passes both checks, and the route reads back
   * the wizard's own records.
   */
  lemma WizardSubmissionAccepted(c: ContactData, b: BusinessData, br: BrandData, user: Option<User>, codecs: Codecs)
    requires AllRoundTrip(codecs)
    ensures CheckFields(Payload(c, b, br, user, codecs), codecs) == Accepted(Parsed(ToBusinessJson(b), c, br))
  {
    PayloadRecords(c, b, br, user, codecs);
  }

  /**
   * Every record the route posts for a wizard submission carries the
   * signed-in user's id, or '' when nobody is signed in, and the mail goes
   * to the user's e-mail when there is one.
   */
  lemma WizardSubmissionUser(c: ContactData, b: BusinessData, br: BrandData, user: Option<User>, codecs: Codecs)
    ensures TextField(Payload(c, b, br, user, codecs), "userId") == Some(if user.Some? then user.value.uid else "")
    ensures MailEffects(Payload(c, b, br, user, codecs))
         == if user.Some? && user.value.email.Some? && user.value.email.value != ""
            then [MailSent(user.value.email.value, OrEmpty(user.value.displayName))]
            else []
  {
    PayloadUser(c, b, br, user, codecs);
  }

  /**
   * For a wizard submission with a mirrored contact, each posted record
   * reads back as the record the wizard held; the business record's
   * document is whatever the upload step chose.
   */
  lemma WizardRecordsRoundTrip(c: ContactData, b: BusinessData, br: BrandData, user: Option<User>, codecs: Codecs,
                               document: Option<nat>)
    requires AllRoundTrip(codecs) && Mirrored(c)
    ensures CheckFields(Payload(c, b, br, user, codecs), codecs).Accepted?
    ensures var p := CheckFields(Payload(c, b, br, user, codecs), codecs).parsed;
            var u := TextField(Payload(c, b, br, user, codecs), "userId");
            && ContactOf(NewContact(p.contact, u)) == c
            && BrandOf(NewBrand(p.brand, u)) == br
            && BusinessOf(NewBusiness(p.business, document, u), ToBusinessJson(b).proofOfBusiness) == ToBusinessJson(b)
  {
    WizardSubmissionAccepted(c, b, br, user, codecs);
  }
}
