/**
 * `PasswordResetSchema`: e-mail, password and confirmation, with the
 * password-strength count and the match rule.
 */
module PasswordReset {
  import opened ZodIssues
  import opened JsText

  const InvalidEmail: string := "Please enter a valid email address"
  const WeakPassword: string := "Your password needs to be at least 8 characters including at least 3 of the following 4 types of characters: a lower case letter, an uppercase letter, a number, a special character (such as !@#$%&)"
  const PasswordsDiffer: string := "Your passwords don't match. Check, re-enter and try again."

  /** The length that counts as one of the strength criteria. */
  const MinLength: nat := 8

  /** The regular-expression classes of the strength rule; `\d` is ASCII `0-9`. */
  const Specials: string := "!@#$%&"

  predicate IsLower(c: char) { 'a' <= c <= 'z' }
  predicate IsUpper(c: char) { 'A' <= c <= 'Z' }
  predicate IsDigit(c: char) { '0' <= c <= '9' }
  predicate IsSpecial(c: char) { c in Specials }

  /** `/[a-z]/.test(s)` and the three like it: some character of the class occurs. */
  predicate HasLower(s: string) { exists i :: 0 <= i < |s| && IsLower(s[i]) }
  predicate HasUpper(s: string) { exists i :: 0 <= i < |s| && IsUpper(s[i]) }
  predicate HasDigit(s: string) { exists i :: 0 <= i < |s| && IsDigit(s[i]) }
  predicate HasSpecial(s: string) { exists i :: 0 <= i < |s| && IsSpecial(s[i]) }

  /** `bs.filter(Boolean).length` */
  function CountTrue(bs: seq<bool>): (n: nat)
    ensures n <= |bs|
  {
    if bs == [] then 0 else (if bs[0] then 1 else 0) + CountTrue(bs[1..])
  }

  /** The four character classes the rule looks for. */
  function Classes(s: string): seq<bool>
  {
    [HasLower(s), HasUpper(s), HasDigit(s), HasSpecial(s)]
  }

  /** The five criteria the rule counts, in the order of the source's array. */
  function Criteria(s: string): seq<bool>
  {
    Classes(s) + [|s| >= MinLength]
  }

  /** The strength refinement: at least three of the five criteria hold. */
  predicate IsStrong(s: string)
  {
    CountTrue(Criteria(s)) >= 3
  }

  lemma {:induction false} CountTrueConcat(a: seq<bool>, b: seq<bool>)
    ensures CountTrue(a + b) == CountTrue(a) + CountTrue(b)
  {
    if a == [] {
      assert a + b == b;
    } else {
      assert (a + b)[0] == a[0];
      assert (a + b)[1..] == a[1..] + b;
      CountTrueConcat(a[1..], b);
    }
  }

  /** Counting is monotone: turning criteria on never lowers the count. */
  lemma {:induction false} CountTrueMonotone(a: seq<bool>, b: seq<bool>)
    requires |a| == |b|
    requires forall i :: 0 <= i < |a| && a[i] ==> b[i]
    ensures CountTrue(a) <= CountTrue(b)
  {
    if a != [] {
      assert forall i :: 0 <= i < |a[1..]| && a[1..][i] ==> b[1..][i] by {
        forall i | 0 <= i < |a[1..]| && a[1..][i]
          ensures b[1..][i]
        {
          assert a[1..][i] == a[i + 1] && b[1..][i] == b[i + 1];
        }
      }
      CountTrueMonotone(a[1..], b[1..]);
    }
  }

  /**
   * Because the length is itself a criterion, a password passes exactly when
   * it has three of the four classes, or is at least 8 characters long and
   * has two of them.
   */
  lemma StrongIffClasses(s: string)
    ensures IsStrong(s) <==>
      (CountTrue(Classes(s)) >= 3 || (|s| >= MinLength && CountTrue(Classes(s)) >= 2))
  {
    CountTrueConcat(Classes(s), [|s| >= MinLength]);
    assert CountTrue([|s| >= MinLength]) == if |s| >= MinLength then 1 else 0 by {
      assert [|s| >= MinLength][1..] == [];
    }
  }

  /** A 7-character password with a lower-case letter, an upper-case letter and a digit passes. */
  lemma SevenCharactersCanPass()
    ensures |"Abcdef1"| == 7 && IsStrong("Abcdef1")
  {
    var s := "Abcdef1";
    assert IsUpper(s[0]) && IsLower(s[1]) && IsDigit(s[6]);
    ClassCount(s);
    StrongIffClasses(s);
  }

  /** An 8-character password with only two classes passes. */
  lemma EightCharactersTwoClassesPass()
    ensures IsStrong("abcdefg1")
  {
    var s := "abcdefg1";
    assert IsLower(s[0]) && IsDigit(s[7]);
    ClassCount(s);
    StrongIffClasses(s);
  }

  /** Seven characters of only two classes fail. */
  lemma SevenCharactersTwoClassesFail()
    ensures !IsStrong("abcdef1")
  {
    var t := "abcdef1";
    assert !HasUpper(t) by {
      forall i | 0 <= i < |t| ensures !IsUpper(t[i]) { }
    }
    assert !HasSpecial(t) by {
      forall i | 0 <= i < |t| ensures !IsSpecial(t[i]) { }
    }
    StrongIffClasses(t);
  }

  /** The count of classes in terms of the four tests. */
  lemma ClassCount(s: string)
    ensures CountTrue(Classes(s))
         == (if HasLower(s) then 1 else 0) + (if HasUpper(s) then 1 else 0)
          + (if HasDigit(s) then 1 else 0) + (if HasSpecial(s) then 1 else 0)
  {
    var a, b, c, d := HasLower(s), HasUpper(s), HasDigit(s), HasSpecial(s);
    assert [d][1..] == [];
    assert CountTrue([d]) == if d then 1 else 0;
    assert [c, d][1..] == [d];
    assert CountTrue([c, d]) == (if c then 1 else 0) + CountTrue([d]);
    assert [b, c, d][1..] == [c, d];
    assert CountTrue([b, c, d]) == (if b then 1 else 0) + CountTrue([c, d]);
    assert [a, b, c, d][1..] == [b, c, d];
  }

  /** Appending characters keeps every class that was there. */
  lemma ClassesGrow(s: string, t: string)
    ensures forall i :: 0 <= i < 4 && Classes(s)[i] ==> Classes(s + t)[i]
  {
    if HasLower(s) {
      var i :| 0 <= i < |s| && IsLower(s[i]);
      assert (s + t)[i] == s[i];
    }
    if HasUpper(s) {
      var i :| 0 <= i < |s| && IsUpper(s[i]);
      assert (s + t)[i] == s[i];
    }
    if HasDigit(s) {
      var i :| 0 <= i < |s| && IsDigit(s[i]);
      assert (s + t)[i] == s[i];
    }
    if HasSpecial(s) {
      var i :| 0 <= i < |s| && IsSpecial(s[i]);
      assert (s + t)[i] == s[i];
    }
  }

  /** Appending characters never turns a passing password into a failing one. */
  lemma StrongIsMonotone(s: string, t: string)
    requires IsStrong(s)
    ensures IsStrong(s + t)
  {
    ClassesGrow(s, t);
    CountTrueMonotone(Criteria(s), Criteria(s + t));
  }

  /** A symbol outside `!@#$%&` (or any other character outside the four classes) counts for nothing but length. */
  lemma OtherSymbolsIgnored(s: string, c: char)
    requires !IsLower(c) && !IsUpper(c) && !IsDigit(c) && !IsSpecial(c)
    ensures Classes(s + [c]) == Classes(s)
  {
    ClassesGrow(s, [c]);
    var u := s + [c];
    if HasLower(u) {
      var i :| 0 <= i < |u| && IsLower(u[i]);
      assert i < |s| && u[i] == s[i];
    }
    if HasUpper(u) {
      var i :| 0 <= i < |u| && IsUpper(u[i]);
      assert i < |s| && u[i] == s[i];
    }
    if HasDigit(u) {
      var i :| 0 <= i < |u| && IsDigit(u[i]);
      assert i < |s| && u[i] == s[i];
    }
    if HasSpecial(u) {
      var i :| 0 <= i < |u| && IsSpecial(u[i]);
      assert i < |s| && u[i] == s[i];
    }
  }

  /** White space belongs to none of the four classes. */
  lemma WhitespaceInNoClass(c: char)
    requires IsJsWhitespace(c)
    ensures !IsLower(c) && !IsUpper(c) && !IsDigit(c) && !IsSpecial(c)
  {
    assert Specials == ['!', '@', '#', '$', '%', '&'];
  }

  /**
   * A strong password is never blank: blank text has none of the four
   * classes, so it meets at most the length criterion.
   */
  lemma StrongIsNotBlank(s: string)
    ensures IsStrong(s) ==> !IsBlank(s)
  {
    if IsBlank(s) {
      forall i | 0 <= i < |s|
        ensures !IsLower(s[i]) && !IsUpper(s[i]) && !IsDigit(s[i]) && !IsSpecial(s[i])
      {
        WhitespaceInNoClass(s[i]);
      }
      ClassCount(s);
      StrongIffClasses(s);
    }
  }

  datatype ResetData = ResetData(email: string, password: string, confirmPassword: string)

  /** `email: z.string().min(1, 'Please fill this in').email(…)` */
  function ResetEmailIssues(email: string, isEmail: string -> bool): seq<Issue>
  {
    Check(|email| >= 1, ["email"], FillIn) + Check(isEmail(email), ["email"], InvalidEmail)
  }

  /**
   * A password field: the non-blank refinement, whose explicit path repeats
   * the field's name, then the strength refinement.
   */
  function PasswordIssues(field: string, value: string): seq<Issue>
  {
    Check(|Trim(value)| > 0, [field, field], FillIn) + Check(IsStrong(value), [field], WeakPassword)
  }

  /** The match rule of the object's `superRefine`. */
  function MatchIssues(d: ResetData): seq<Issue>
  {
    Check(d.password == d.confirmPassword, ["confirmPassword"], PasswordsDiffer)
  }

  /**
   * The issues of `PasswordResetSchema`, grouped field by field, then the
   * match rule. The schema is parsed asynchronously, and the async checks
   * of the two password fields may then report in another interleaving;
   * the issues of each field keep their order, and so does every key's
   * list of messages.
   */
  function ResetIssues(d: ResetData, isEmail: string -> bool): (r: seq<Issue>)
    ensures r == [] <==>
      (d.email != "" && isEmail(d.email) && IsStrong(d.password) && d.password == d.confirmPassword)
  {
    StrongIsNotBlank(d.password);
    TrimEmptyIffBlank(d.password);
    TrimEmptyIffBlank(d.confirmPassword);
    ResetEmailIssues(d.email, isEmail)
    + (PasswordIssues("password", d.password)
    + (PasswordIssues("confirmPassword", d.confirmPassword) + MatchIssues(d)))
  }

  /** A password field reports under its own name: blank text, then weakness. */
  lemma PasswordFieldMessages(field: string, value: string, k: string)
    ensures MessagesAt(PasswordIssues(field, value), k)
         == if k != field then []
            else (if IsBlank(value) then [FillIn] else []) + (if IsStrong(value) then [] else [WeakPassword])
  {
    var blank := Check(|Trim(value)| > 0, [field, field], FillIn);
    var weak := Check(IsStrong(value), [field], WeakPassword);
    MessagesAtConcat(blank, weak, k);
    TrimEmptyIffBlank(value);
    if |Trim(value)| == 0 {
      var one := [Issue([field, field], FillIn)];
      assert Key(one[0]) == field && one[1..] == [];
    }
    MessagesAtCheck(IsStrong(value), field, WeakPassword, k);
  }

  /**
   * The confirmation reports 'Please fill this in' when blank, the strength
   * message when weak, and the mismatch message last when it differs from
   * the password; so the wizard-style fold would show the mismatch.
   */
  lemma ConfirmPasswordMessages(d: ResetData, isEmail: string -> bool)
    ensures MessagesAt(ResetIssues(d, isEmail), "confirmPassword")
         == (if IsBlank(d.confirmPassword) then [FillIn] else [])
          + (if IsStrong(d.confirmPassword) then [] else [WeakPassword])
          + (if d.password != d.confirmPassword then [PasswordsDiffer] else [])
  {
    var k := "confirmPassword";
    var e := ResetEmailIssues(d.email, isEmail);
    var p := PasswordIssues("password", d.password);
    var c := PasswordIssues(k, d.confirmPassword);
    var m := MatchIssues(d);
    assert MessagesAt(e, k) == [] by {
      MessagesAtConcat(Check(|d.email| >= 1, ["email"], FillIn), Check(isEmail(d.email), ["email"], InvalidEmail), k);
      MessagesAtCheck(|d.email| >= 1, "email", FillIn, k);
      MessagesAtCheck(isEmail(d.email), "email", InvalidEmail, k);
    }
    assert MessagesAt(p, k) == [] by {
      PasswordFieldMessages("password", d.password, k);
    }
    assert MessagesAt(c + m, k)
        == (if IsBlank(d.confirmPassword) then [FillIn] else [])
         + (if IsStrong(d.confirmPassword) then [] else [WeakPassword])
         + (if d.password != d.confirmPassword then [PasswordsDiffer] else []) by {
      PasswordFieldMessages(k, d.confirmPassword, k);
      MessagesAtCheck(d.password == d.confirmPassword, k, PasswordsDiffer, k);
      MessagesAtConcat(c, m, k);
    }
    MessagesAtConcat(p, c + m, k);
    MessagesAtConcat(e, p + (c + m), k);
  }

  /** The password reports 'Please fill this in' when blank and the strength message when weak. */
  lemma PasswordMessages(d: ResetData, isEmail: string -> bool)
    ensures MessagesAt(ResetIssues(d, isEmail), "password")
         == (if IsBlank(d.password) then [FillIn] else [])
          + (if IsStrong(d.password) then [] else [WeakPassword])
  {
    var k := "password";
    var e := ResetEmailIssues(d.email, isEmail);
    var p := PasswordIssues(k, d.password);
    var c := PasswordIssues("confirmPassword", d.confirmPassword);
    var m := MatchIssues(d);
    assert MessagesAt(e, k) == [] by {
      MessagesAtConcat(Check(|d.email| >= 1, ["email"], FillIn), Check(isEmail(d.email), ["email"], InvalidEmail), k);
      MessagesAtCheck(|d.email| >= 1, "email", FillIn, k);
      MessagesAtCheck(isEmail(d.email), "email", InvalidEmail, k);
    }
    assert MessagesAt(c + m, k) == [] by {
      PasswordFieldMessages("confirmPassword", d.confirmPassword, k);
      MessagesAtCheck(d.password == d.confirmPassword, "confirmPassword", PasswordsDiffer, k);
      MessagesAtConcat(c, m, k);
    }
    assert MessagesAt(p, k)
        == (if IsBlank(d.password) then [FillIn] else [])
         + (if IsStrong(d.password) then [] else [WeakPassword]) by {
      PasswordFieldMessages(k, d.password, k);
    }
    MessagesAtConcat(p, c + m, k);
    MessagesAtConcat(e, p + (c + m), k);
  }

  /** The e-mail reports 'Please fill this in' when empty and the format message when malformed. */
  lemma ResetEmailMessages(d: ResetData, isEmail: string -> bool)
    ensures MessagesAt(ResetIssues(d, isEmail), "email")
         == (if d.email == "" then [FillIn] else []) + (if isEmail(d.email) then [] else [InvalidEmail])
  {
    var k := "email";
    var e := ResetEmailIssues(d.email, isEmail);
    var p := PasswordIssues("password", d.password);
    var c := PasswordIssues("confirmPassword", d.confirmPassword);
    var m := MatchIssues(d);
    assert MessagesAt(e, k) == (if d.email == "" then [FillIn] else []) + (if isEmail(d.email) then [] else [InvalidEmail]) by {
      MessagesAtConcat(Check(|d.email| >= 1, [k], FillIn), Check(isEmail(d.email), [k], InvalidEmail), k);
      MessagesAtCheck(|d.email| >= 1, k, FillIn, k);
      MessagesAtCheck(isEmail(d.email), k, InvalidEmail, k);
    }
    assert MessagesAt(p, k) == [] by {
      PasswordFieldMessages("password", d.password, k);
    }
    assert MessagesAt(c + m, k) == [] by {
      PasswordFieldMessages("confirmPassword", d.confirmPassword, k);
      MessagesAtCheck(d.password == d.confirmPassword, "confirmPassword", PasswordsDiffer, k);
      MessagesAtConcat(c, m, k);
    }
    MessagesAtConcat(p, c + m, k);
    MessagesAtConcat(e, p + (c + m), k);
  }
}
