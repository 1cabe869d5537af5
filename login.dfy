/**
 * `LoginSchema`: the e-mail is checked for format, then for containing
 * something other than white space; the password is any string.
 */
module Login {
  import opened ZodIssues
  import opened JsText

  const InvalidEmail: string := "Please enter a valid email address"

  datatype LoginData = LoginData(email: string, password: string)

  /**
   * The issues of the schema. The non-blank refinement names `email` as its
   * path, so its issue sits at `email.email`.
   */
  function LoginIssues(d: LoginData, isEmail: string -> bool): (r: seq<Issue>)
    ensures r == [] <==> isEmail(d.email) && !IsBlank(d.email)
  {
    TrimEmptyIffBlank(d.email);
    Check(isEmail(d.email), ["email"], InvalidEmail)
    + Check(|Trim(d.email)| > 0, ["email", "email"], FillIn)
  }

  /**
   * A malformed address reports the format message and a blank one
   * 'Please fill this in', both under `email`, in that order.
   */
  lemma LoginMessages(d: LoginData, isEmail: string -> bool)
    ensures MessagesAt(LoginIssues(d, isEmail), "email")
         == (if isEmail(d.email) then [] else [InvalidEmail]) + (if IsBlank(d.email) then [FillIn] else [])
  {
    var k := "email";
    MessagesAtConcat(Check(isEmail(d.email), [k], InvalidEmail), Check(|Trim(d.email)| > 0, [k, k], FillIn), k);
    MessagesAtCheck(isEmail(d.email), k, InvalidEmail, k);
    TrimEmptyIffBlank(d.email);
    if IsBlank(d.email) {
      var one := [Issue([k, k], FillIn)];
      assert Key(one[0]) == k && one[1..] == [];
    }
  }

  /** The password is unconstrained: changing it never changes the issues. */
  lemma PasswordUnconstrained(email: string, p: string, q: string, isEmail: string -> bool)
    ensures LoginIssues(LoginData(email, p), isEmail) == LoginIssues(LoginData(email, q), isEmail)
  {
  }
}
