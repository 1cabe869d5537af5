/**
 * `PhoneNumberField`: a country select that sets the dialling prefix, and a
 * text input for the number. The country list comes from the
 * `countries-list` dataset, given here as a sequence of entries in the
 * order `Object.entries` yields them.
 */
module PhoneNumberInput {
  import opened Wrappers

  /** An entry of the dataset: its key, its name and its dialling codes. */
  datatype Country = Country(code: string, name: string, phone: seq<nat>)

  /** `CountryOption`: the dialling code is kept as text. */
  datatype CountryOption = CountryOption(code: string, name: string, phone: string)

  /** The code the component selects when it can. */
  const DefaultCode: string := "TH"

  // ---------------------------------------------------------------- decimal text

  predicate IsDigit(ch: char)
  {
    '0' <= ch <= '9'
  }

  predicate AllDigits(s: string)
  {
    forall i :: 0 <= i < |s| ==> IsDigit(s[i])
  }

  /** `n.toString()` for a whole number: its decimal digits, with no leading zero. */
  function DecimalString(n: nat): (s: string)
    ensures |s| > 0 && AllDigits(s)
    ensures s[0] == '0' ==> n == 0
    decreases n
  {
    if n < 10 then [('0' as int + n) as char]
    else DecimalString(n / 10) + [('0' as int + n % 10) as char]
  }

  /** The number a string of decimal digits denotes. */
  function DecimalValue(s: string): nat
    requires AllDigits(s)
  {
    if s == [] then 0
    else DecimalValue(s[..|s| - 1]) * 10 + (s[|s| - 1] as int - '0' as int)
  }

  /** Reading the text of a number gives the number back. */
  lemma {:induction false} DecimalRoundTrip(n: nat)
    ensures DecimalValue(DecimalString(n)) == n
    decreases n
  {
    var s := DecimalString(n);
    if n >= 10 {
      var front := DecimalString(n / 10);
      assert s[..|s| - 1] == front;
      DecimalRoundTrip(n / 10);
    }
  }

  // ---------------------------------------------------------------- options

  /**
   * `countryOptions`: one option per entry, in order, whose dialling code is
   * the text of the entry's first code.
   */
  function CountryOptions(countries: seq<Country>): (r: seq<CountryOption>)
    requires forall c :: c in countries ==> |c.phone| > 0
    ensures |r| == |countries|
    ensures forall i :: 0 <= i < |r| ==> r[i].code == countries[i].code && r[i].name == countries[i].name
    ensures forall i :: 0 <= i < |r| ==> |r[i].phone| > 0 && AllDigits(r[i].phone) && DecimalValue(r[i].phone) == countries[i].phone[0]
  {
    if countries == [] then []
    else
      DecimalRoundTrip(countries[0].phone[0]);
      [CountryOption(countries[0].code, countries[0].name, DecimalString(countries[0].phone[0]))]
      + CountryOptions(countries[1..])
  }

  /** `countryOptions.find((c) => c.code === code)`; an undefined code matches nothing. */
  function Find(options: seq<CountryOption>, code: Option<string>): (r: Option<CountryOption>)
    ensures r.Some? <==> code.Some? && exists i :: 0 <= i < |options| && options[i].code == code.value
    ensures r.Some? ==> r.value.code == code.value && r.value in options
    ensures r.Some? ==> exists i :: 0 <= i < |options| && options[i] == r.value
                                    && forall j :: 0 <= j < i ==> options[j].code != code.value
  {
    if code.None? || options == [] then None
    else if options[0].code == code.value then Some(options[0])
    else
      var rest := Find(options[1..], code);
      assert rest.Some? ==> exists i :: 0 <= i < |options| && options[i] == rest.value
                                        && forall j :: 0 <= j < i ==> options[j].code != code.value by {
        if rest.Some? {
          var i :| 0 <= i < |options[1..]| && options[1..][i] == rest.value
                   && forall j :: 0 <= j < i ==> options[1..][j].code != code.value;
          assert options[i + 1] == rest.value;
          assert forall j :: 1 <= j < i + 1 ==> options[j].code == options[1..][j - 1].code;
        }
      }
      rest
  }

  /** `find(TH) || countryOptions[0]`: TH when the dataset has it, else the first option. */
  function DefaultOption(options: seq<CountryOption>): (r: CountryOption)
    requires |options| > 0
    ensures r in options
    ensures (exists i :: 0 <= i < |options| && options[i].code == DefaultCode) ==> r.code == DefaultCode
    ensures (forall i :: 0 <= i < |options| ==> options[i].code != DefaultCode) ==> r == options[0]
  {
    var th := Find(options, Some(DefaultCode));
    if th.Some? then th.value else options[0]
  }

  // ---------------------------------------------------------------- the field

  /** A callback call the field makes. */
  datatype Emission = PrefixEmitted(prefix: string) | CountryEmitted(code: string) | NumberEmitted(number: string)

  /** The emissions for choosing an option: `+<code>`, then the country code. */
  function ChoiceEmissions(option: CountryOption, hasPrefixCallback: bool, hasCountryCallback: bool): seq<Emission>
  {
    (if hasPrefixCallback then [PrefixEmitted("+" + option.phone)] else [])
    + (if hasCountryCallback then [CountryEmitted(option.code)] else [])
  }

  class PhoneNumberField {
    const countries: seq<Country>
    const options: seq<CountryOption>
    /** Which of the three callbacks the parent supplied. */
    const hasPrefixCallback: bool
    const hasCountryCallback: bool
    const hasNumberCallback: bool

    var selectedCountry: CountryOption
    var phoneNumber: string
    /** The callback calls made so far, oldest first. */
    var emitted: seq<Emission>

    predicate Valid()
      reads this
    {
      && (forall c :: c in countries ==> |c.phone| > 0)
      && options == CountryOptions(countries)
      && selectedCountry in options
    }

    /**
     * Mounting: the default option and an empty number; the mount effect
     * emits the default's prefix and code only when both callbacks are
     * supplied; then the effect on `specificCountry` selects that country
     * when the dataset has it.
     */
    constructor (countries: seq<Country>, hasPrefixCallback: bool, hasCountryCallback: bool,
                 hasNumberCallback: bool, specificCountry: Option<string>)
      requires |countries| > 0 && forall c :: c in countries ==> |c.phone| > 0
      ensures Valid()
      ensures this.countries == countries && this.hasPrefixCallback == hasPrefixCallback
      ensures this.hasCountryCallback == hasCountryCallback && this.hasNumberCallback == hasNumberCallback
      ensures phoneNumber == ""
      ensures emitted == if hasPrefixCallback && hasCountryCallback
                         then [PrefixEmitted("+" + DefaultOption(options).phone), CountryEmitted(DefaultOption(options).code)]
                         else []
      ensures selectedCountry == if Find(options, specificCountry).Some? then Find(options, specificCountry).value
                                 else DefaultOption(options)
    {
      this.countries := countries;
      this.hasPrefixCallback := hasPrefixCallback;
      this.hasCountryCallback := hasCountryCallback;
      this.hasNumberCallback := hasNumberCallback;
      options := CountryOptions(countries);
      new;
      var initial := DefaultOption(options);
      selectedCountry := initial;
      phoneNumber := "";
      emitted := [];
      if hasPrefixCallback && hasCountryCallback {
        emitted := [PrefixEmitted("+" + initial.phone), CountryEmitted(initial.code)];
      }
      SyncSpecificCountry(specificCountry);
    }

    /** The effect on `specificCountry`: a known code selects its option, silently; an unknown one changes nothing. */
    method SyncSpecificCountry(specificCountry: Option<string>)
      requires Valid()
      modifies this`selectedCountry
      ensures Valid()
      ensures selectedCountry == if Find(options, specificCountry).Some? then Find(options, specificCountry).value
                                 else old(selectedCountry)
    {
      var option := Find(options, specificCountry);
      if option.Some? {
        selectedCountry := option.value;
      }
    }

    /** `handleCountryChange`: a known code selects its option and emits `+<code>` and the code. */
    method CountryChange(code: string)
      requires Valid()
      modifies this`selectedCountry, this`emitted
      ensures Valid()
      ensures Find(options, Some(code)).None? ==> selectedCountry == old(selectedCountry) && emitted == old(emitted)
      ensures Find(options, Some(code)).Some? ==>
        && selectedCountry.code == code
        && emitted == old(emitted) + ChoiceEmissions(selectedCountry, hasPrefixCallback, hasCountryCallback)
    {
      var country := Find(options, Some(code));
      if country.Some? {
        selectedCountry := country.value;
        emitted := emitted + ChoiceEmissions(country.value, hasPrefixCallback, hasCountryCallback);
      }
    }

    /** `handlePhoneNumberChange`: keeps the raw text and forwards it unchanged. */
    method PhoneNumberChange(text: string)
      modifies this`phoneNumber, this`emitted
      ensures phoneNumber == text
      ensures DisplayedNumber(None) == text
      ensures emitted == old(emitted) + if hasNumberCallback then [NumberEmitted(text)] else []
    {
      phoneNumber := text;
      if hasNumberCallback {
        emitted := emitted + [NumberEmitted(text)];
      }
    }

    /** `resetPhoneNumber`, exposed through the ref. */
    method ResetPhoneNumber()
      modifies this`phoneNumber
      ensures phoneNumber == ""
      ensures DisplayedNumber(None) == ""
    {
      phoneNumber := "";
    }

    /** The number shown: the controlled `value` when the parent gives one, else the field's own. */
    function DisplayedNumber(value: Option<string>): (r: string)
      reads this
      ensures value.Some? ==> r == value.value
      ensures value.None? ==> r == phoneNumber
    {
      if value.Some? then value.value else phoneNumber
    }

    /** The hidden `phonePrefix` input: `+` and the first dialling code of the selected country. */
    function HiddenPrefix(): (r: string)
      requires Valid()
      reads this
      ensures |r| > 1 && r[0] == '+' && AllDigits(r[1..])
      ensures exists i :: 0 <= i < |countries| && countries[i].code == selectedCountry.code
                          && DecimalValue(r[1..]) == countries[i].phone[0]
    {
      var i :| 0 <= i < |options| && options[i] == selectedCountry;
      assert ("+" + selectedCountry.phone)[1..] == options[i].phone;
      "+" + selectedCountry.phone
    }
  }
}
