/**
 * What the signup wizard sends to the `business-signup` route: a multipart
 * `FormData` whose text entries carry the three records as JSON.
 *
 * `JSON.stringify` and `JSON.parse` are not modelled character by
 * character; each record type has a `Codec`, a pair of functions taken as a
 * parameter, and the one property the model relies on is `RoundTrips`.
 */
module SignupPayload {
  import opened Wrappers
  import opened ContactInfo
  import opened BusinessInfo
  import opened BrandInfo

  /** A `FormData` value: a string or a `File`. */
  datatype FormValue = Text(text: string) | Blob(file: FileInfo)

  datatype Entry = Entry(name: string, value: FormValue)

  /** The entries of a `FormData`, in the order they were appended. */
  type FormData = seq<Entry>

  /** `formData.get(name)`: the value of the first entry with that name, or null. */
  function Get(form: FormData, name: string): Option<FormValue>
  {
    if form == [] then None
    else if form[0].name == name then Some(form[0].value)
    else Get(form[1..], name)
  }

  /** Entries appended after the first one with a name do not change what `get` returns for it. */
  lemma {:induction false} GetAppend(form: FormData, more: FormData, name: string)
    requires Get(form, name).Some?
    ensures Get(form + more, name) == Get(form, name)
  {
    if form[0].name != name {
      assert (form + more)[1..] == form[1..] + more;
      GetAppend(form[1..], more, name);
    }
  }

  /** `get` finds the first entry with the name. */
  lemma {:induction false} GetFirst(form: FormData, i: nat, name: string)
    requires i < |form| && form[i].name == name
    requires forall j :: 0 <= j < i ==> form[j].name != name
    ensures Get(form, name) == Some(form[i].value)
  {
    if i > 0 {
      GetFirst(form[1..], i - 1, name);
    }
  }

  /** `get` finds nothing when no entry has the name. */
  lemma {:induction false} GetMissing(form: FormData, name: string)
    requires forall j :: 0 <= j < |form| ==> form[j].name != name
    ensures Get(form, name) == None
  {
    if form != [] {
      GetMissing(form[1..], name);
    }
  }

  /** A JSON encoding of `T`: `JSON.stringify` and a `JSON.parse` that may throw. */
  datatype Codec<!T> = Codec(stringify: T -> string, parse: string -> Option<T>)

  /**
   * Parsing what was stringified gives the value back, and the text of an
   * object is never empty (it is at least `{}`).
   */
  ghost predicate RoundTrips<T(!new)>(codec: Codec<T>)
  {
    forall x: T :: codec.parse(codec.stringify(x)) == Some(x) && codec.stringify(x) != ""
  }

  /**
   * The business record as the wizard serialises it: the `File` is replaced
   * by its name, and an absent file leaves the key out.
   */
  datatype BusinessJson = BusinessJson(
    taxCountry: string,
    businessName: string,
    organizationNumber: Option<string>,
    proofOfBusiness: Option<string>)

  datatype Codecs = Codecs(contact: Codec<ContactData>, business: Codec<BusinessJson>, brand: Codec<BrandData>)

  ghost predicate AllRoundTrip(codecs: Codecs)
  {
    RoundTrips(codecs.contact) && RoundTrips(codecs.business) && RoundTrips(codecs.brand)
  }

  /** The signed-in Firebase user: a uid, and an e-mail and display name that may be null. */
  datatype User = User(uid: string, email: Option<string>, displayName: Option<string>)

  /** `s ?? ''` */
  function OrEmpty(s: Option<string>): string
  {
    if s.Some? then s.value else ""
  }
}
