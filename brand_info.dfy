/**
 * `BrandInfoSchema`: the rules of the wizard's third step.
 */
module BrandInfo {
  import opened ZodIssues

  datatype BrandData = BrandData(brandName: string, agreeToTermsAndPolicies: bool)

  const BrandNameLimit: nat := 100
  const BrandNameTooLong: string := "Brand name must be at most 100 characters long"
  const MustAcceptTerms: string := "You must accept the terms of service to continue."

  /** The two checks of the brand name, in the order they are declared. */
  function BrandNameIssues(name: string): seq<Issue>
  {
    Check(|name| >= 1, ["brandName"], FillIn) + Check(|name| <= BrandNameLimit, ["brandName"], BrandNameTooLong)
  }

  /** `BrandInfoSchema.safeParse(b).error.errors`, in the order of the shape. */
  function BrandIssues(b: BrandData): (r: seq<Issue>)
    ensures r == [] <==> 1 <= |b.brandName| <= BrandNameLimit && b.agreeToTermsAndPolicies
  {
    BrandNameIssues(b.brandName)
    + Check(b.agreeToTermsAndPolicies, ["agreeToTermsAndPolicies"], MustAcceptTerms)
  }

  /**
   * An empty brand name reports 'Please fill this in' and one longer than
   * 100 characters the length message; the terms do not affect it.
   */
  lemma BrandNameMessages(b: BrandData)
    ensures MessagesAt(BrandIssues(b), "brandName")
         == (if b.brandName == "" then [FillIn] else [])
          + (if |b.brandName| > BrandNameLimit then [BrandNameTooLong] else [])
  {
    var k := "brandName";
    var n := BrandNameIssues(b.brandName);
    var t := Check(b.agreeToTermsAndPolicies, ["agreeToTermsAndPolicies"], MustAcceptTerms);
    MessagesAtConcat(Check(|b.brandName| >= 1, [k], FillIn), Check(|b.brandName| <= BrandNameLimit, [k], BrandNameTooLong), k);
    MessagesAtCheck(|b.brandName| >= 1, k, FillIn, k);
    MessagesAtCheck(|b.brandName| <= BrandNameLimit, k, BrandNameTooLong, k);
    MessagesAtCheck(b.agreeToTermsAndPolicies, "agreeToTermsAndPolicies", MustAcceptTerms, k);
    MessagesAtConcat(n, t, k);
  }

  /** Refusing the terms reports the terms message, whatever the brand name is. */
  lemma TermsMessages(b: BrandData)
    ensures MessagesAt(BrandIssues(b), "agreeToTermsAndPolicies")
         == if b.agreeToTermsAndPolicies then [] else [MustAcceptTerms]
  {
    var k := "agreeToTermsAndPolicies";
    var n := BrandNameIssues(b.brandName);
    var t := Check(b.agreeToTermsAndPolicies, [k], MustAcceptTerms);
    MessagesAtConcat(Check(|b.brandName| >= 1, ["brandName"], FillIn), Check(|b.brandName| <= BrandNameLimit, ["brandName"], BrandNameTooLong), k);
    MessagesAtCheck(|b.brandName| >= 1, "brandName", FillIn, k);
    MessagesAtCheck(|b.brandName| <= BrandNameLimit, "brandName", BrandNameTooLong, k);
    MessagesAtCheck(b.agreeToTermsAndPolicies, k, MustAcceptTerms, k);
    MessagesAtConcat(n, t, k);
  }
}
