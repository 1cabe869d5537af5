/**
 * `ForgotPasswordSchema`: one e-mail field whose format check comes first,
 * then a `superRefine` that adds 'Please fill this in' for an empty address.
 */
module ForgotPassword {
  import opened ZodIssues

  const InvalidEmail: string := "Please enter a valid email address"

  /**
   * The issues of the schema. For a non-empty address the `superRefine`
   * only re-runs the format test and returns, adding nothing.
   */
  function ForgotIssues(email: string, isEmail: string -> bool): (r: seq<Issue>)
    ensures r == [] <==> email != "" && isEmail(email)
    ensures email == "" ==> Issue(["email"], FillIn) in r
    ensures email != "" ==> forall i :: i in r ==> i == Issue(["email"], InvalidEmail)
  {
    Check(isEmail(email), ["email"], InvalidEmail)
    + (if email == "" then [Issue(["email"], FillIn)] else [])
  }

  /**
   * Everything is filed under `email`: the format message when malformed,
   * then 'Please fill this in' when empty, so the last message of an empty
   * address is 'Please fill this in'.
   */
  lemma ForgotMessages(email: string, isEmail: string -> bool)
    ensures MessagesAt(ForgotIssues(email, isEmail), "email")
         == (if isEmail(email) then [] else [InvalidEmail]) + (if email == "" then [FillIn] else [])
  {
    var k := "email";
    var empty: seq<Issue> := if email == "" then [Issue([k], FillIn)] else [];
    MessagesAtConcat(Check(isEmail(email), [k], InvalidEmail), empty, k);
    MessagesAtCheck(isEmail(email), k, InvalidEmail, k);
    MessagesAtCheck(email != "", k, FillIn, k);
  }
}
