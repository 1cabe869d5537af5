/**
 * `BusinessInfoSchema`: the rules of the wizard's second step.
 */
module BusinessInfo {
  import opened Wrappers
  import opened ZodIssues

  /** The properties of a browser `File` that the rules and the wizard read. */
  datatype FileInfo = FileInfo(name: string, size: nat, mimeType: string)

  /**
   * A business record. `organizationNumber` and `proofOfBusiness` are
   * optional in the schema.
   */
  datatype BusinessData = BusinessData(
    taxCountry: string,
    businessName: string,
    organizationNumber: Option<string>,
    proofOfBusiness: Option<FileInfo>)

  /** `10 * 1024 * 1024` bytes. */
  const MaxProofSize: nat := 10 * 1024 * 1024
  const PdfType: string := "application/pdf"

  /** Both refinements of the proof of business share this message. */
  const ProofMessage: string := "Only PDF files are supported, with a maximum size of 10 MB."

  /**
   * The two refinements of a present proof of business, size first and then
   * type; a failing first refinement does not stop the second one.
   */
  function ProofIssues(proof: Option<FileInfo>): (r: seq<Issue>)
    ensures r == [] <==> (proof.Some? ==> proof.value.size <= MaxProofSize && proof.value.mimeType == PdfType)
  {
    match proof
    case None => []
    case Some(f) =>
      Check(f.size <= MaxProofSize, ["proofOfBusiness"], ProofMessage)
      + Check(f.mimeType == PdfType, ["proofOfBusiness"], ProofMessage)
  }

  /** `BusinessInfoSchema.safeParse(b).error.errors`, in the order of the shape. */
  function BusinessIssues(b: BusinessData): (r: seq<Issue>)
    ensures r == [] <==>
      (b.taxCountry != "" && b.businessName != ""
       && (b.proofOfBusiness.Some? ==>
             b.proofOfBusiness.value.size <= MaxProofSize && b.proofOfBusiness.value.mimeType == PdfType))
  {
    Check(|b.taxCountry| >= 1, ["taxCountry"], FillIn)
    + (Check(|b.businessName| >= 1, ["businessName"], FillIn)
    + ProofIssues(b.proofOfBusiness))
  }

  /**
   * The size bound is inclusive: a PDF of exactly 10 485 760 bytes passes
   * and one byte more fails.
   */
  lemma ProofSizeBoundary(name: string)
    ensures ProofIssues(Some(FileInfo(name, 10485760, PdfType))) == []
    ensures ProofIssues(Some(FileInfo(name, 10485761, PdfType))) != []
  {
    assert MaxProofSize == 10485760;
  }

  /** The issues the record files under `k`: those of its three checked fields, in order. */
  lemma BusinessMessagesSplit(b: BusinessData, k: string)
    ensures MessagesAt(BusinessIssues(b), k)
         == MessagesAt(Check(|b.taxCountry| >= 1, ["taxCountry"], FillIn), k)
          + MessagesAt(Check(|b.businessName| >= 1, ["businessName"], FillIn), k)
          + MessagesAt(ProofIssues(b.proofOfBusiness), k)
  {
    var t := Check(|b.taxCountry| >= 1, ["taxCountry"], FillIn);
    var n := Check(|b.businessName| >= 1, ["businessName"], FillIn);
    var p := ProofIssues(b.proofOfBusiness);
    MessagesAtConcat3(t, n, p, k);
  }

  /** An empty tax country reports 'Please fill this in', and nothing else is filed under it. */
  lemma TaxCountryMessages(b: BusinessData)
    ensures MessagesAt(BusinessIssues(b), "taxCountry") == if b.taxCountry == "" then [FillIn] else []
  {
    var k := "taxCountry";
    assert MessagesAt(Check(|b.taxCountry| >= 1, ["taxCountry"], FillIn), k) == if b.taxCountry == "" then [FillIn] else [] by {
      MessagesAtCheck(|b.taxCountry| >= 1, "taxCountry", FillIn, k);
    }
    assert MessagesAt(Check(|b.businessName| >= 1, ["businessName"], FillIn), k) == [] by {
      MessagesAtCheck(|b.businessName| >= 1, "businessName", FillIn, k);
    }
    ProofSilent(b.proofOfBusiness, k);
    BusinessMessagesSplit(b, k);
  }

  /** The same for the business name. */
  lemma BusinessNameMessages(b: BusinessData)
    ensures MessagesAt(BusinessIssues(b), "businessName") == if b.businessName == "" then [FillIn] else []
  {
    var k := "businessName";
    assert MessagesAt(Check(|b.taxCountry| >= 1, ["taxCountry"], FillIn), k) == [] by {
      MessagesAtCheck(|b.taxCountry| >= 1, "taxCountry", FillIn, k);
    }
    assert MessagesAt(Check(|b.businessName| >= 1, ["businessName"], FillIn), k) == if b.businessName == "" then [FillIn] else [] by {
      MessagesAtCheck(|b.businessName| >= 1, "businessName", FillIn, k);
    }
    ProofSilent(b.proofOfBusiness, k);
    BusinessMessagesSplit(b, k);
  }

  /**
   * A present proof of business reports the shared message once per failing
   * refinement, so the surfaced text is the same whichever one fails.
   */
  lemma ProofOfBusinessMessages(b: BusinessData)
    ensures MessagesAt(BusinessIssues(b), "proofOfBusiness")
         == if b.proofOfBusiness.None? then [] else FileMessages(b.proofOfBusiness.value)
  {
    var k := "proofOfBusiness";
    assert MessagesAt(Check(|b.taxCountry| >= 1, ["taxCountry"], FillIn), k) == [] by {
      MessagesAtCheck(|b.taxCountry| >= 1, "taxCountry", FillIn, k);
    }
    assert MessagesAt(Check(|b.businessName| >= 1, ["businessName"], FillIn), k) == [] by {
      MessagesAtCheck(|b.businessName| >= 1, "businessName", FillIn, k);
    }
    ProofMessages(b.proofOfBusiness);
    BusinessMessagesSplit(b, k);
  }

  /** The organization number is optional and free: nothing is ever filed under it. */
  lemma OrganizationNumberMessages(b: BusinessData)
    ensures MessagesAt(BusinessIssues(b), "organizationNumber") == []
  {
    var k := "organizationNumber";
    assert MessagesAt(Check(|b.taxCountry| >= 1, ["taxCountry"], FillIn), k) == [] by {
      MessagesAtCheck(|b.taxCountry| >= 1, "taxCountry", FillIn, k);
    }
    assert MessagesAt(Check(|b.businessName| >= 1, ["businessName"], FillIn), k) == [] by {
      MessagesAtCheck(|b.businessName| >= 1, "businessName", FillIn, k);
    }
    ProofSilent(b.proofOfBusiness, k);
    BusinessMessagesSplit(b, k);
  }

  /** The messages a present file earns: one per limit it breaks, size first. */
  function FileMessages(f: FileInfo): seq<string>
  {
    (if f.size > MaxProofSize then [ProofMessage] else [])
    + (if f.mimeType != PdfType then [ProofMessage] else [])
  }

  /** The proof of business files its issues under its own name only. */
  lemma ProofSilent(proof: Option<FileInfo>, k: string)
    requires k != "proofOfBusiness"
    ensures MessagesAt(ProofIssues(proof), k) == []
  {
    if proof.Some? {
      var f := proof.value;
      MessagesAtConcat(Check(f.size <= MaxProofSize, ["proofOfBusiness"], ProofMessage), Check(f.mimeType == PdfType, ["proofOfBusiness"], ProofMessage), k);
      MessagesAtCheck(f.size <= MaxProofSize, "proofOfBusiness", ProofMessage, k);
      MessagesAtCheck(f.mimeType == PdfType, "proofOfBusiness", ProofMessage, k);
    }
  }

  /** Each failing refinement of a present file reports the shared message once. */
  lemma ProofMessages(proof: Option<FileInfo>)
    ensures MessagesAt(ProofIssues(proof), "proofOfBusiness")
         == if proof.None? then [] else FileMessages(proof.value)
  {
    if proof.Some? {
      var f := proof.value;
      var k := "proofOfBusiness";
      MessagesAtConcat(Check(f.size <= MaxProofSize, [k], ProofMessage), Check(f.mimeType == PdfType, [k], ProofMessage), k);
      MessagesAtCheck(f.size <= MaxProofSize, k, ProofMessage, k);
      MessagesAtCheck(f.mimeType == PdfType, k, ProofMessage, k);
    }
  }
}
