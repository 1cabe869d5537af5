# Business signup wizard, its schemas and its route — a Dafny model

This project models the business-signup core of the T-shirt creator
landing site:

- the zod schemas that validate the signup wizard's three steps (contact,
  business, brand), and the login, forgot-password and password-reset forms;
- the wizard itself (`BusinessSignupFormModal`): the three steps, the
  per-step error maps folded from the schemas' issues, the
  invoicing-email mirror, and the submission that builds a multipart
  payload and resets the wizard;
- the `business-signup` route action, which reads that payload, rejects
  malformed or missing records, sends the confirmation mail, uploads the
  proof of business and posts three records to the backend;
- the phone-number field with its country-prefix select;
- the colour picker of the popular-products section;
- the light/dark theme provider and the way it persists the mode.

The schemas are pure functions from a record to the list of zod issues,
in the order zod reports them. Every string check and refinement in these
schemas is non-fatal, so all failing checks report, and an object's
`superRefine` runs after its field issues. The React components are
classes whose fields are their state. A method is one user event together
with the effects its state change triggers. Calls to the outside world
(`onSuccess`, `fetcher.submit`, the mail, the upload, the posts) are
recorded in an effect log.

Library code whose source is not part of this model is taken as a
parameter:

- zod's e-mail format test;
- the phone rule `validatePhoneNumber` (given as the issues it adds);
- `JSON.stringify`/`JSON.parse`, as a codec whose only assumed property is
  that parsing what was stringified gives the value back;
- the `countries-list` dataset;
- the outcomes of the upload and of each post.

Modules: `Wrappers`, `ZodIssues`, `JsText`, `ContactInfo`, `BusinessInfo`,
`BrandInfo`, `ForgotPassword`, `Login`, `PasswordReset`, `SignupPayload`,
`SignupWizard`, `BusinessSignupRoute`, `PhoneNumberInput`,
`PopularProducts`, `ThemeContext`.

## Model

| member | source | states |
|---|---|---|
| JsText.TrimEmptyIffBlank | app/schemas/login.ts:9 | `s.trim().length > 0` fails exactly when every character of `s` is ECMAScript white space |
| ContactInfo.ContactIssues | app/schemas/contact-info.ts:6-77 | no issue exactly when: both names are 1–100 characters; the e-mail is non-empty and well formed; the phone prefix and the five address fields are non-empty; a present invoicing e-mail is well formed; the phone rule adds nothing; a ticked invoicing box has a non-empty invoicing e-mail |
| ContactInfo.FirstNameMessages | app/schemas/contact-info.ts:8-16 | the messages filed under `firstName` are 'Please fill this in' when it is empty, then the 100-character message when it is longer, and nothing else |
| ContactInfo.LastNameMessages | app/schemas/contact-info.ts:18-26 | the same for `lastName` |
| ContactInfo.EmailMessages | app/schemas/contact-info.ts:27-32 | `email` gets 'Please fill this in' when empty, then the format message whenever malformed, so an empty address can get both |
| ContactInfo.InvoicingEmailMessages | app/schemas/contact-info.ts:61-76 | `invoicingEmail` gets the format message when it is present and malformed, even with the box unticked, then 'Please fill this in' when the box is ticked and the address is missing or empty |
| ContactInfo.AddressEmpty | app/schemas/contact-info.ts:34-60 | the prefix and address block has no issue exactly when all six fields are non-empty |
| ContactInfo.AddressFieldMessages | app/schemas/contact-info.ts:34-60 | each of the six fields gets exactly 'Please fill this in' when it is empty and nothing otherwise |
| ContactInfo.ContactSilent | app/schemas/contact-info.ts:6-77 | a key outside the schema's own fields receives issues only from the phone rule |
| BusinessInfo.ProofIssues | app/schemas/business-info.ts:19-31 | an absent proof passes; a present one passes exactly when it is at most 10 MiB and of type `application/pdf` |
| BusinessInfo.BusinessIssues | app/schemas/business-info.ts:3-32 | no issue exactly when the tax country and business name are non-empty and a present proof passes both refinements |
| BusinessInfo.ProofSizeBoundary | app/schemas/business-info.ts:23 | the size bound is inclusive: a PDF of 10 485 760 bytes passes and one of 10 485 761 bytes fails |
| BusinessInfo.TaxCountryMessages | app/schemas/business-info.ts:4-8 | `taxCountry` gets 'Please fill this in' exactly when empty |
| BusinessInfo.BusinessNameMessages | app/schemas/business-info.ts:9-13 | `businessName` gets 'Please fill this in' exactly when empty |
| BusinessInfo.OrganizationNumberMessages | app/schemas/business-info.ts:14-18 | nothing is ever filed under `organizationNumber` |
| BusinessInfo.ProofOfBusinessMessages | app/schemas/business-info.ts:19-31 | a present proof gets the shared PDF message once for being too large and once for the wrong type, in that order |
| BrandInfo.BrandIssues | app/schemas/brand-info.ts:3-18 | no issue exactly when the brand name is 1–100 characters and the terms are accepted |
| BrandInfo.BrandNameMessages | app/schemas/brand-info.ts:4-9 | `brandName` gets 'Please fill this in' when empty and the length message when over 100 characters, whatever the terms are |
| BrandInfo.TermsMessages | app/schemas/brand-info.ts:10-17 | `agreeToTermsAndPolicies` gets the terms message exactly when the terms are refused |
| ForgotPassword.ForgotIssues | app/schemas/forgot-password.ts:3-29 | no issue exactly when the address is non-empty and well formed; an empty one always gets 'Please fill this in'; a non-empty one can only get the format message |
| ForgotPassword.ForgotMessages | app/schemas/forgot-password.ts:5-28 | `email` gets the format message when malformed, then 'Please fill this in' when empty |
| Login.LoginIssues | app/schemas/login.ts:3-14 | no issue exactly when the address is well formed and not blank |
| Login.LoginMessages | app/schemas/login.ts:4-12 | `email` gets the format message when malformed, then 'Please fill this in' when blank |
| Login.PasswordUnconstrained | app/schemas/login.ts:13 | the password never changes the issues |
| PasswordReset.StrongIffClasses | app/schemas/password-reset.ts:17-33 | a password passes the strength rule exactly when it has three of the four character classes, or has two of them and is at least 8 characters long |
| PasswordReset.SevenCharactersCanPass | app/schemas/password-reset.ts:17-33 | 'Abcdef1' (7 characters) passes, although the message asks for 8 |
| PasswordReset.EightCharactersTwoClassesPass | app/schemas/password-reset.ts:17-33 | 'abcdefg1' passes with only two classes |
| PasswordReset.SevenCharactersTwoClassesFail | app/schemas/password-reset.ts:17-33 | 'abcdef1' fails |
| PasswordReset.StrongIsMonotone | app/schemas/password-reset.ts:17-33 | appending characters never makes a passing password fail |
| PasswordReset.OtherSymbolsIgnored | app/schemas/password-reset.ts:19-22 | a character outside the four classes (any symbol but `!@#$%&`) adds no class |
| PasswordReset.WhitespaceInNoClass | app/schemas/password-reset.ts:19-22 | white space belongs to none of the four classes |
| PasswordReset.StrongIsNotBlank | app/schemas/password-reset.ts:11-34 | a password that passes the strength rule is never blank |
| PasswordReset.ResetIssues | app/schemas/password-reset.ts:3-69 | no issue exactly when the e-mail is non-empty and well formed, the password is strong and the confirmation equals it |
| PasswordReset.PasswordFieldMessages | app/schemas/password-reset.ts:11-34 | a password field files only under its own name: 'Please fill this in' when blank, then the strength message when weak |
| PasswordReset.PasswordMessages | app/schemas/password-reset.ts:11-34 | `password` gets 'Please fill this in' when blank and the strength message when weak |
| PasswordReset.ConfirmPasswordMessages | app/schemas/password-reset.ts:35-69 | `confirmPassword` gets the blank and strength messages, then the mismatch message last when it differs from the password |
| PasswordReset.ResetEmailMessages | app/schemas/password-reset.ts:5-10 | `email` gets 'Please fill this in' when empty, then the format message when malformed |
| SignupWizard.ErrorMap | app/components/BusinessSignupFormModal.tsx:154-160 | the folded map's keys are exactly the `path[0]` keys of the issues |
| SignupWizard.ErrorMapAt | app/components/BusinessSignupFormModal.tsx:154-160 | a key is in the map exactly when some issue is filed under it, and it holds the last such issue's message |
| SignupWizard.EmptyEmailShowsFormatMessage | app/components/BusinessSignupFormModal.tsx:148-164 | an empty contact e-mail is shown with 'Email must be a valid email', not 'Please fill this in' |
| SignupWizard.DefaultContactRejected | app/components/BusinessSignupFormModal.tsx:63-77 | the initial contact is rejected, with 'Please fill this in' on the first name |
| SignupWizard.DefaultBusinessRejected | app/components/BusinessSignupFormModal.tsx:80-85 | the initial business record's error map is exactly `businessName` ↦ 'Please fill this in' |
| SignupWizard.DefaultBrandRejected | app/components/BusinessSignupFormModal.tsx:88-91 | the initial brand's error map is exactly the brand name's and the terms' messages |
| SignupWizard.CountryCaptionNeverShown | app/components/BusinessSignupFormModal.tsx:433-436 | the caption as written is never shown for any contact (see Findings) |
| SignupWizard.CountryCaption | app/components/BusinessSignupFormModal.tsx:433-436 | the caption keyed by `country` is shown exactly when the map has a `country` message |
| SignupWizard.EmptyCountryCaptionShown | app/components/BusinessSignupFormModal.tsx:433-436 | with that caption, an empty country shows 'Please fill this in' |
| SignupWizard.PayloadRecords | app/components/BusinessSignupFormModal.tsx:280-294 | the payload's three record entries read back as the stringified contact, business (file replaced by its name) and brand |
| SignupWizard.PayloadUser | app/components/BusinessSignupFormModal.tsx:295-297 | `userId`, `userEmail` and `userDisplayName` read back as the user's values, '' when there is no user or the value is null |
| SignupWizard.PayloadFile | app/components/BusinessSignupFormModal.tsx:299-304 | the proof of business is sent as a file, and only when there is one |
| SignupWizard.AfterMirror | app/components/BusinessSignupFormModal.tsx:119-133 | after a change of the box or the e-mail the contact is mirrored; a ticked box, or a change to neither the box nor the e-mail, leaves the contact as edited; nothing but the invoicing e-mail is ever changed |
| SignupWizard.Wizard.constructor | app/components/BusinessSignupFormModal.tsx:61-99 | the wizard starts on the first step with the default records, empty error maps, the invoicing field hidden and a mirrored contact |
| SignupWizard.Wizard.ValidateContact | app/components/BusinessSignupFormModal.tsx:148-168 | returns true exactly when the contact is accepted; replaces only the contact error map, with the fold of the contact issues |
| SignupWizard.Wizard.ValidateBusiness | app/components/BusinessSignupFormModal.tsx:170-190 | the same for the business step |
| SignupWizard.Wizard.ValidateBrand | app/components/BusinessSignupFormModal.tsx:192-212 | the same for the brand step |
| SignupWizard.Wizard.CompleteRegistration | app/components/BusinessSignupFormModal.tsx:278-321 | closes and resets the wizard and records `onSuccess` (when given), the submitted payload of the records held before the reset, and the one-second refresh, in that order |
| SignupWizard.Wizard.ValidateStep | app/components/BusinessSignupFormModal.tsx:215-228 | validates the step the wizard is on: returns true exactly when that step has no issue, and rewrites that step's error map and no other |
| SignupWizard.Wizard.Next | app/components/BusinessSignupFormModal.tsx:214-233 | the error maps become those of the validated step; a failing step stays put with records and effects unchanged; a passing one advances; passing the brand step completes the registration (lines 141-146); the step stays below 3 |
| SignupWizard.Wizard.Back | app/components/BusinessSignupFormModal.tsx:235-237 | one step back, with no validation |
| SignupWizard.Wizard.Cancel | app/components/BusinessSignupFormModal.tsx:756-763 | closes the wizard, records `onClose`, and resets the step and the three records |
| SignupWizard.Wizard.SetOpen | app/components/BusinessSignupFormModal.tsx:115-117 | the open flag follows the `open` prop |
| SignupWizard.Wizard.ChangeContactText | app/components/BusinessSignupFormModal.tsx:239-247 | the field takes the new value, followed by the mirror effect; every edit except the invoicing field's keeps a mirrored contact mirrored; the invoicing field always stores what was typed |
| SignupWizard.Wizard.ChangeUseInvoicingEmail | app/components/BusinessSignupFormModal.tsx:119-139 | ticking shows the invoicing field for good; unticking copies the e-mail over the invoicing e-mail; a mirrored contact stays mirrored |
| SignupWizard.Wizard.ChangeBusinessText | app/components/BusinessSignupFormModal.tsx:249-257 | the field takes the new value and the proof of business is untouched |
| SignupWizard.Wizard.UploadFile | app/components/BusinessSignupFormModal.tsx:269-276 | a chosen file replaces the proof of business; no file changes nothing |
| SignupWizard.Wizard.ChangeBrandName | app/components/BusinessSignupFormModal.tsx:259-267 | only the brand name changes |
| SignupWizard.Wizard.ChangeAgreeToTerms | app/components/BusinessSignupFormModal.tsx:259-267 | only the terms flag changes |
| BusinessSignupRoute.CheckFields | app/routes/business-signup.tsx:20-55 | accepted exactly when all three records are present and none fails to parse; a record that fails to parse gives 'Invalid JSON data' even when another is missing; 'Business, Brand or Contact data is missing' exactly when nothing fails to parse and something is missing; accepted values are the parsed records |
| BusinessSignupRoute.NewBusiness | app/routes/business-signup.tsx:113-119 | the record reads back as the submitted business; its document is the upload's id; its user id defaults to '' |
| BusinessSignupRoute.NewContact | app/routes/business-signup.tsx:120-137 | `invoice_email` is the invoicing e-mail when the box is ticked and the e-mail otherwise; the record reads back as the submitted contact exactly when the contact is mirrored; every field but the invoicing e-mail always reads back; the user id is passed as is |
| BusinessSignupRoute.AcceptedContactInvoiceEmail | app/routes/business-signup.tsx:132-135 | a contact the schema accepts is posted with a non-empty, well-formed invoice e-mail |
| BusinessSignupRoute.NewBrand | app/routes/business-signup.tsx:138-142 | the record reads back as the submitted brand and carries the user id |
| BusinessSignupRoute.DocumentId | app/routes/business-signup.tsx:108-110 | the document is the first uploaded id, or none when the upload returned no entry |
| BusinessSignupRoute.FileStep | app/routes/business-signup.tsx:93-111 | no upload exactly when no file (or an empty text) was sent; an uploaded file is the one sent, and its document is the first returned id |
| BusinessSignupRoute.PostEffects | app/routes/business-signup.tsx:144-150 | one post is recorded per record, in order |
| BusinessSignupRoute.Action | app/routes/business-signup.tsx:8-161 | a rejected request answers 400 with its error and makes no call; otherwise the mail (when an address is given) goes first, then the upload; a failed upload ends in a 500 before any post; otherwise the three records are posted and the answer is success exactly when every post succeeds, else a 500 |
| BusinessSignupRoute.WizardSubmissionAccepted | app/routes/business-signup.tsx:35-55 | every payload the wizard submits passes both checks and parses back to the wizard's own records |
| BusinessSignupRoute.WizardSubmissionUser | app/routes/business-signup.tsx:26-89 | for a wizard submission the posted user id is the user's uid or '', and the mail goes to the user's e-mail exactly when it is non-empty |
| BusinessSignupRoute.WizardRecordsRoundTrip | app/routes/business-signup.tsx:113-142 | for a wizard submission with a mirrored contact, each posted record reads back as the record the wizard held |
| PhoneNumberInput.DecimalString | app/components/PhoneNumberInput.tsx:34 | the text of a dialling code is non-empty decimal digits with no leading zero |
| PhoneNumberInput.DecimalRoundTrip | app/components/PhoneNumberInput.tsx:34 | reading that text gives the code back |
| PhoneNumberInput.CountryOptions | app/components/PhoneNumberInput.tsx:30-36 | one option per dataset entry, in order, with its code and name, and digits that denote the entry's first dialling code |
| PhoneNumberInput.Find | app/components/PhoneNumberInput.tsx:87-89 | an option is found exactly when some option has the code; the one found is the first option with that code |
| PhoneNumberInput.DefaultOption | app/components/PhoneNumberInput.tsx:64-66 | the default is TH when the dataset has it, else the first option |
| PhoneNumberInput.PhoneNumberField.constructor | app/components/PhoneNumberInput.tsx:64-93 | mounting selects the default, or the given country when the dataset has it; the default's prefix and code are emitted only when both callbacks are given |
| PhoneNumberInput.PhoneNumberField.SyncSpecificCountry | app/components/PhoneNumberInput.tsx:86-93 | a known country code selects its option without emitting anything; an unknown one changes nothing |
| PhoneNumberInput.PhoneNumberField.CountryChange | app/components/PhoneNumberInput.tsx:95-108 | a known code selects its option and emits `+prefix` and the code to the callbacks that are given; an unknown one changes nothing |
| PhoneNumberInput.PhoneNumberField.PhoneNumberChange | app/components/PhoneNumberInput.tsx:110-116 | the raw text is kept, forwarded unchanged, and is what the uncontrolled field displays |
| PhoneNumberInput.PhoneNumberField.ResetPhoneNumber | app/components/PhoneNumberInput.tsx:118-122 | the number is cleared, and the uncontrolled field displays '' |
| PhoneNumberInput.PhoneNumberField.DisplayedNumber | app/components/PhoneNumberInput.tsx:237 | the controlled value is shown when given (even ''), else the field's own number |
| PhoneNumberInput.PhoneNumberField.HiddenPrefix | app/components/PhoneNumberInput.tsx:256-262 | the hidden prefix is '+' followed by digits that denote the selected country's first dialling code |
| PopularProducts.CatalogueWellFormed | app/components/PopularProductSection.tsx:65-135 | every product has variants, with distinct non-empty colours |
| PopularProducts.FindVariant | app/components/PopularProductSection.tsx:157-159 | finds a variant exactly when one has the colour, and it is the first such |
| PopularProducts.SelectedImage | app/components/PopularProductSection.tsx:154-163 | the image shown is always one of the product's variants' images |
| PopularProducts.DefaultImage | app/components/PopularProductSection.tsx:154-163 | with no choice or an empty one, the first variant's image is shown |
| PopularProducts.MatchingImage | app/components/PopularProductSection.tsx:154-163 | a chosen colour shows the image of the first variant of that colour |
| PopularProducts.UnknownColorImage | app/components/PopularProductSection.tsx:154-163 | a chosen colour no variant has falls back to the first variant's image |
| PopularProducts.SwatchClick | app/components/PopularProductSection.tsx:223-238 | clicking a swatch shows its image, highlights it and no other swatch of the product, and leaves other products' images unchanged |
| PopularProducts.ColorPicker.constructor | app/components/PopularProductSection.tsx:143-145 | no colour is chosen at first |
| PopularProducts.ColorPicker.SelectColor | app/components/PopularProductSection.tsx:147-152 | records the colour for that product and leaves the other products' choices as they were |
| ThemeContext.Toggled | app/contexts/ThemeContext.tsx:33 | the toggled mode is 'light' or 'dark' and differs from the previous one |
| ThemeContext.ToggleTwice | app/contexts/ThemeContext.tsx:31-35 | toggling twice restores 'light' or 'dark', and turns any other stored mode into 'dark' |
| ThemeContext.PaletteMode | app/contexts/ThemeContext.tsx:37-41 | the palette is light while theming is off, and follows the mode otherwise |
| ThemeContext.ThemeProvider.constructor | app/contexts/ThemeContext.tsx:28-54 | mounting restores a saved non-empty mode (else 'light') and leaves it stored |
| ThemeContext.ThemeProvider.Toggle | app/contexts/ThemeContext.tsx:31-35 | with theming on, flips the mode and stores it; with theming off, changes nothing |
| ThemeContext.ThemeProvider.SetDisableTheming | app/contexts/ThemeContext.tsx:50-54 | turning theming back on stores the current mode; otherwise storage is untouched; while theming is on the stored mode is the current one |

## Left out

- Rendering, layout and styling (MUI components, media queries, the stepper's labels, the terms modal) are not modelled.
- Asynchronous behaviour is not modelled. The mail, the upload, the posts, `fetcher.submit` and the delayed `fetchBusinessDetails` are recorded as effects in call order, and their outcomes are parameters. The 500 response's text, built from the backend's error object, is not modelled.
- `JSON.stringify`/`JSON.parse` are an abstract codec per record, assumed to round-trip. A JSON text that parses to something other than an object is not modelled.
- zod's `invalid_type_error` messages are not modelled: every record here has the declared field types. An absent `useInvoicingEmail` is taken as `false`, which is how every rule treats it.
- String lengths are counted in Unicode scalar values, not UTF-16 code units, so a name with characters outside the Basic Multilingual Plane is measured differently.
- zod's e-mail format test and the phone rule `validatePhoneNumber` are parameters. `app/utils/PhoneNumberUtils` is not part of this model.
- The forgot-password schema's `superRefine` is async; it is modelled as its synchronous result.
- PasswordReset.ResetIssues: the schema's `superRefine` is async, so the schema is parsed with `parseAsync`, whose refinements may report both fields' blank-text issues before both strength issues; only the order of the issues within each field is modelled (the per-key message lemmas do not depend on the interleaving).
- The route's `formData.get(...) as File` cast is not modelled beyond two cases: a text stored under a record's name reads as itself, and a file stored there reads as '[object File]'. A file stored under `userId` is not modelled. Upload ids are natural numbers.
- Dialling codes are natural numbers, as in the `countries-list` dataset. The dataset itself, and the uniqueness of its codes, are assumptions rather than part of this model.
- The signed-in user comes from the auth context, whose code is not part of this model; it is a constant of the wizard.
- The wizard's `onFail` prop is never called by the source, and the phone field's `resetPhoneNumber` is never called by the wizard; both are left unconnected.
- The popular products' prices are only displayed and are left out.
- React's StrictMode double effects and the order of batched state updates inside one event are not modelled; each method gives the state the event settles into.
- SignupWizard.Wizard.Next: the `default` branch of `handleNext` is not reachable, because completion happens inside the same event and the step at rest is always 0, 1 or 2.
- SignupWizard.Wizard.Back: requires a step other than the first, because the Back button is disabled there (line 835). The handler itself has no guard.
- SignupWizard.Wizard.CompleteRegistration and SignupWizard.Wizard.Cancel: like the source, neither clears the error maps or hides the invoicing field again.
- SignupWizard.Wizard.ChangeContactText: editing the invoicing e-mail while the box is unticked breaks the mirror, because the mirror effect only runs when the box or the e-mail changes. The route then posts the e-mail instead (see `BusinessSignupRoute.NewContact`).
- PhoneNumberInput.PhoneNumberField.SyncSpecificCountry: following the source, a country set from outside changes the displayed prefix without emitting it, so the contact's `phonePrefix` can differ from the prefix on screen.
- ThemeContext.ThemeProvider.constructor: the first persist effect briefly stores 'light' before the restored mode replaces it. Only the settled storage is stated.

## Findings

| source | as written | input that shows it | evidently intended | confidence | as-written member | corrected member |
|---|---|---|---|---|---|---|
| app/components/BusinessSignupFormModal.tsx:433-436 | the caption under the country select tests `errors.contact.countryCode` and shows `errors.contact.country`, but no rule files anything under `countryCode`, so the caption is never shown | a contact whose `country` is '' gets 'Please fill this in' under `country`, and the caption stays hidden | test `errors.contact.country`, the key the message is stored under | low (the select offers only non-empty codes, so only the red outline is lost in practice); not executed | SignupWizard.CountryCaptionAsWritten, SignupWizard.CountryCaptionNeverShown | SignupWizard.CountryCaption, SignupWizard.EmptyCountryCaptionShown |
