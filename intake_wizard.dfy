/**
 * The claim intake wizard of the new-request screen: a three-step form over
 * one draft record, with a validator per step, cascade rules that clear
 * dependent fields, a staged list of at most three policy documents, the
 * policy-number hyphen formatter and the 500-character consultation limit.
 *
 * The source names the step data Step1Data, Step2Data, Step3Data and the
 * validators isStep1Valid .. isStep3Valid, while the step index runs 0..2:
 * step index k is validated by IsStep{k+1}Valid.
 */
module IntakeWizard {
  import opened Wrappers
  import opened Seqs
  import opened Strings

  // ---------------------------------------------------------------------------
  // Option tables
  // ---------------------------------------------------------------------------

  /** 보험상품 유형: the insurance product type; `Unchosen` is the empty selection "". */
  datatype InsuranceType =
    | Unchosen
    | Indemnity            // 실손
    | LiabilityProperty    // 배상책임/재물
    | TrafficAccident      // 교통사고
    | PermanentDisability  // 후유장해
    | DiagnosisSurgery     // 진단/수술비/기타

  /** The value the select element carries for each type. */
  function TypeLabel(t: InsuranceType): string
  {
    match t
    case Unchosen => ""
    case Indemnity => "실손"
    case LiabilityProperty => "배상책임/재물"
    case TrafficAccident => "교통사고"
    case PermanentDisability => "후유장해"
    case DiagnosisSurgery => "진단/수술비/기타"
  }

  /** 보험 종류: non-life (손해보험), life (생명보험) or the empty selection. */
  datatype InsuranceCategory = NoCategory | NonLife | Life

  /** `treatmentOptions[type] || []`: the treatment tags offered for a type. */
  function TreatmentOptions(t: InsuranceType): seq<string>
  {
    match t
    case Unchosen => []
    case Indemnity => ["백내장", "신경성형술", "도수/체외충격파", "남성질환", "여성질환", "어린이", "무릎치료", "고지의무", "기타"]
    case LiabilityProperty => ["대인배상", "대물배상", "누수", "화재/기타"]
    case TrafficAccident => ["교통사고"]
    case PermanentDisability => ["질병후유장해", "상해후유장해"]
    case DiagnosisSurgery => ["암진단", "사망진단", "뇌혈관 진단", "심장질환", "수술비/기타"]
  }

  const ClaimStatusOptions: seq<string> := ["보험금 청구 전", "보험금 접수", "현장조사 안내", "심사 중", "보험금 거절"]

  const PersonTypeOptions: seq<string> := ["피해자", "피보험자(보험 가입자)"]

  /** The insurers offered for a category; none before a category is chosen. */
  function CompaniesFor(c: InsuranceCategory): seq<string>
  {
    match c
    case NoCategory => []
    case NonLife => ["현대해상", "흥국화재", "삼성화재", "DB손해보험", "롯데손해보험", "메리츠화재", "KB손해보험", "한화손해보험", "기타"]
    case Life => ["교보생명", "한화생명", "삼성생명", "NH농협생명", "흥국생명", "ABL생명", "기타"]
  }

  /** The insurers of the policy-document select. */
  const AllInsuranceCompanies: seq<string> :=
    ["삼성생명", "한화생명", "DB손해보험", "현대해상", "KB손해보험", "삼성화재",
     "교보생명", "NH농협생명", "흥국화재", "메리츠화재", "롯데손해보험", "한화손해보험",
     "흥국생명", "ABL생명", "기타"]

  /** Every chosen type offers tags, and no type offers a tag twice. */
  lemma TreatmentOptionsWellFormed(t: InsuranceType)
    ensures t != Unchosen <==> |TreatmentOptions(t)| > 0
    ensures NoDup(TreatmentOptions(t))
  {
  }

  // ---------------------------------------------------------------------------
  // The draft
  // ---------------------------------------------------------------------------

  /** A staged policy document: a browser `File` reduced to what the wizard reads. */
  datatype PolicyFile = PolicyFile(name: string, size: nat, mime: string)

  /** 1단계: the incident section. */
  datatype Step1Data = Step1Data(
    insuranceType: InsuranceType,
    treatmentTypes: seq<string>,
    hospitalName: string,
    claimStatus: string,
    personType: string,
    region: string)

  /** 2단계: the insurer section with the policy sub-record. */
  datatype Step2Data = Step2Data(
    insuranceAmount: string,
    insuranceAmountUnknown: bool,
    insuranceCategory: InsuranceCategory,
    insuranceCompanies: seq<string>,
    insuranceCompany: string,
    policyNumber: string,
    policyFiles: seq<PolicyFile>,
    policyUnknown: bool)

  /** 3단계: the contact section. */
  datatype Step3Data = Step3Data(
    name: string,
    contact: string,
    consultationContent: string,
    availableTime: string)

  datatype FormData = FormData(step1: Step1Data, step2: Step2Data, step3: Step3Data)

  /** The draft the wizard mounts with: every field empty, both flags off. */
  const EmptyForm: FormData := FormData(
    Step1Data(Unchosen, [], "", "", "", ""),
    Step2Data("", false, NoCategory, [], "", "", [], false),
    Step3Data("", "", "", ""))

  const MaxPolicyFiles: nat := 3
  const MaxPolicyFileSize: nat := 10 * 1024 * 1024
  const MaxConsultationLength: nat := 500

  // ---------------------------------------------------------------------------
  // Step validators
  // ---------------------------------------------------------------------------

  /** A step-0 field that some insurance type demands. */
  datatype Field = HospitalName | ClaimStatus | PersonType | Region

  /** The per-type requirement table: which fields step 0 needs besides the type and a tag. */
  function RequiredFields(t: InsuranceType): set<Field>
  {
    match t
    case Unchosen => {}
    case Indemnity => {HospitalName, ClaimStatus}
    case LiabilityProperty => {PersonType, Region}
    case TrafficAccident => {HospitalName}
    case PermanentDisability => {HospitalName}
    case DiagnosisSurgery => {HospitalName, ClaimStatus}
  }

  predicate Filled(s: Step1Data, f: Field)
  {
    match f
    case HospitalName => s.hospitalName != ""
    case ClaimStatus => s.claimStatus != ""
    case PersonType => s.personType != ""
    case Region => s.region != ""
  }

  /** The requirement table read field by field. */
  lemma RequiredFieldsMeaning(s: Step1Data)
    ensures (forall f :: f in RequiredFields(s.insuranceType) ==> Filled(s, f)) <==>
            (HospitalName in RequiredFields(s.insuranceType) ==> s.hospitalName != "") &&
            (ClaimStatus in RequiredFields(s.insuranceType) ==> s.claimStatus != "") &&
            (PersonType in RequiredFields(s.insuranceType) ==> s.personType != "") &&
            (Region in RequiredFields(s.insuranceType) ==> s.region != "")
  {
    if (HospitalName in RequiredFields(s.insuranceType) ==> s.hospitalName != "") &&
       (ClaimStatus in RequiredFields(s.insuranceType) ==> s.claimStatus != "") &&
       (PersonType in RequiredFields(s.insuranceType) ==> s.personType != "") &&
       (Region in RequiredFields(s.insuranceType) ==> s.region != "") {
      forall f | f in RequiredFields(s.insuranceType) ensures Filled(s, f) {
        match f
        case HospitalName =>
        case ClaimStatus =>
        case PersonType =>
        case Region =>
      }
    }
  }

  /**
   * isStep1Valid, the step-0 rule, written as the source's chain of early
   * returns; its contract states it against the requirement table.
   */
  function IsStep1Valid(d: FormData): (r: bool)
    ensures r <==> d.step1.insuranceType != Unchosen && |d.step1.treatmentTypes| > 0 &&
                   forall f :: f in RequiredFields(d.step1.insuranceType) ==> Filled(d.step1, f)
  {
    var s := d.step1;
    RequiredFieldsMeaning(s);
    if s.insuranceType == Unchosen then false
    else if s.insuranceType == Indemnity then |s.treatmentTypes| > 0 && s.hospitalName != "" && s.claimStatus != ""
    else if s.insuranceType == LiabilityProperty then |s.treatmentTypes| > 0 && s.personType != "" && s.region != ""
    else if s.insuranceType == TrafficAccident then |s.treatmentTypes| > 0 && s.hospitalName != ""
    else if s.insuranceType == PermanentDisability then |s.treatmentTypes| > 0 && s.hospitalName != ""
    else |s.treatmentTypes| > 0 && s.hospitalName != "" && s.claimStatus != ""
  }

  /** The types whose step 1 asks for the policy sub-record (실손 and 교통사고). */
  predicate NeedsPolicy(t: InsuranceType)
  {
    t == Indemnity || t == TrafficAccident
  }

  /** The policy is evidenced by an attached document or by both the insurer and the number. */
  predicate HasPolicyEvidence(s: Step2Data)
  {
    |s.policyFiles| > 0 || (s.insuranceCompany != "" && s.policyNumber != "")
  }

  /** isStep2Valid: the basic insurer rule, plus the policy rule for 실손 and 교통사고. */
  function IsStep2Valid(d: FormData): (r: bool)
    ensures r ==> d.step2.insuranceCategory != NoCategory && |d.step2.insuranceCompanies| > 0
    ensures r ==> d.step2.insuranceAmountUnknown || d.step2.insuranceAmount != ""
    ensures r && NeedsPolicy(d.step1.insuranceType) && !d.step2.policyUnknown ==> HasPolicyEvidence(d.step2)
    ensures !r ==> d.step2.insuranceCategory == NoCategory || |d.step2.insuranceCompanies| == 0 ||
                   (!d.step2.insuranceAmountUnknown && d.step2.insuranceAmount == "") ||
                   (NeedsPolicy(d.step1.insuranceType) && !d.step2.policyUnknown && !HasPolicyEvidence(d.step2))
  {
    var s := d.step2;
    var basicValid := s.insuranceCategory != NoCategory && |s.insuranceCompanies| > 0 &&
                      (s.insuranceAmountUnknown || s.insuranceAmount != "");
    var needsPolicy := d.step1.insuranceType == Indemnity || d.step1.insuranceType == TrafficAccident;
    if needsPolicy && !s.policyUnknown then
      basicValid && (|s.policyFiles| > 0 || (s.insuranceCompany != "" && s.policyNumber != ""))
    else basicValid
  }

  /** isStep3Valid: name, contact and consultation text are all non-empty. */
  function IsStep3Valid(d: FormData): (r: bool)
    ensures r <==> d.step3.name != "" && d.step3.contact != "" && d.step3.consultationContent != ""
  {
    d.step3.name != "" && d.step3.contact != "" && d.step3.consultationContent != ""
  }

  /** The contact step is judged on the contact section alone: the other steps' answers never matter. */
  lemma ContactStepReadsOnlyContact(d: FormData, e: FormData)
    requires d.step3 == e.step3
    ensures IsStep3Valid(d) == IsStep3Valid(e)
  {
  }

  /** The preferred contact time is optional: whatever it holds, the contact step passes or fails alike. */
  lemma AvailableTimeIsOptional(d: FormData, time: string)
    ensures IsStep3Valid(d.(step3 := d.step3.(availableTime := time))) == IsStep3Valid(d)
  {
  }

  /** The validator of the step with index `step`. */
  predicate StepValid(step: nat, d: FormData)
  {
    if step == 0 then IsStep1Valid(d)
    else if step == 1 then IsStep2Valid(d)
    else step == 2 && IsStep3Valid(d)
  }

  /** The `disabled` expression of the next button. */
  function NextDisabled(step: nat, d: FormData): (r: bool)
    ensures step <= 2 ==> (r <==> !StepValid(step, d))
  {
    (step == 0 && !IsStep1Valid(d)) || (step == 1 && !IsStep2Valid(d)) || (step == 2 && !IsStep3Valid(d))
  }

  // ---------------------------------------------------------------------------
  // Field-level rules
  // ---------------------------------------------------------------------------

  datatype StageError = SizeExceeded | CountExceeded

  datatype StageResult = Staged(files: seq<PolicyFile>) | Rejected(error: StageError)

  /** handlePolicyFileUpload: the size check first, then the count check, then append. */
  function StagePolicyFile(files: seq<PolicyFile>, f: PolicyFile): (r: StageResult)
    ensures f.size > MaxPolicyFileSize ==> r == Rejected(SizeExceeded)
    ensures f.size <= MaxPolicyFileSize && |files| >= MaxPolicyFiles ==> r == Rejected(CountExceeded)
    ensures r.Staged? <==> f.size <= MaxPolicyFileSize && |files| < MaxPolicyFiles
    ensures r.Staged? ==> r.files == files + [f]
  {
    if f.size > 10 * 1024 * 1024 then Rejected(SizeExceeded)
    else if |files| >= 3 then Rejected(CountExceeded)
    else Staged(files + [f])
  }

  /** Staging never takes the list past three files, nor admits an oversized one. */
  lemma StagingKeepsBounds(files: seq<PolicyFile>, f: PolicyFile)
    requires |files| <= MaxPolicyFiles
    requires forall g :: g in files ==> g.size <= MaxPolicyFileSize
    ensures match StagePolicyFile(files, f)
            case Staged(fs) => |fs| <= MaxPolicyFiles && forall g :: g in fs ==> g.size <= MaxPolicyFileSize
            case Rejected(_) => true
  {
  }

  /** The characters the policy-number input keeps: `/[^0-9-]/g` removes the rest. */
  predicate IsPolicyChar(c: char)
  {
    IsDigit(c) || c == '-'
  }

  /** `value.split("-").length - 1`: the number of hyphens. */
  function HyphenCount(s: string): nat
  {
    multiset(s)['-']
  }

  /**
   * The policy-number onChange formatter: strip everything but digits and
   * hyphens, then place the hyphens.
   */
  function FormatPolicyNumber(raw: string): string
  {
    SecondHyphen(FirstHyphen(Filter(raw, IsPolicyChar)))
  }

  /** A hyphen-free value longer than 3 gets a hyphen at index 3. */
  function FirstHyphen(v: string): string
  {
    if |v| > 3 && '-' !in v then InsertHyphen(v, 3) else v
  }

  /** A value longer than 7 with exactly one hyphen gets another at index 7. */
  function SecondHyphen(v: string): string
  {
    if |v| > 7 && HyphenCount(v) == 1 then InsertHyphen(v, 7) else v
  }

  /** Digits and hyphens only. */
  predicate AllPolicyChars(v: string)
  {
    forall i :: 0 <= i < |v| ==> IsPolicyChar(v[i])
  }

  /** Each hyphen step keeps the value's characters, keeps its digits, and adds at most one hyphen. */
  lemma HyphenStepFacts(v: string)
    ensures AllPolicyChars(v) ==> AllPolicyChars(FirstHyphen(v)) && AllPolicyChars(SecondHyphen(v))
    ensures Filter(FirstHyphen(v), IsDigit) == Filter(v, IsDigit)
    ensures Filter(SecondHyphen(v), IsDigit) == Filter(v, IsDigit)
    ensures |v| <= |FirstHyphen(v)| <= |v| + 1 && |v| <= |SecondHyphen(v)| <= |v| + 1
  {
    if |v| > 3 && '-' !in v {
      InsertHyphenFacts(v, 3);
    }
    if |v| > 7 && HyphenCount(v) == 1 {
      InsertHyphenFacts(v, 7);
    }
  }

  /** The second step never moves the first three characters nor the hyphen at index 3. */
  lemma SecondHyphenKeepsPrefix(v: string)
    requires |v| > 3
    ensures |SecondHyphen(v)| > 3 && SecondHyphen(v)[..4] == v[..4]
  {
    if |v| > 7 && HyphenCount(v) == 1 {
      var w := InsertHyphen(v, 7);
      assert w[..7] == v[..7];
      assert w[..4] == w[..7][..4];
      assert v[..4] == v[..7][..4];
    }
  }

  /**
   * What the formatter guarantees: only digits and hyphens remain, the digits
   * of the input are kept in order (only hyphens are added, at most two), and a
   * hyphen-free value longer than three characters gets its hyphen at index 3.
   */
  lemma FormatPolicyNumberSpec(raw: string)
    ensures AllPolicyChars(FormatPolicyNumber(raw))
    ensures Filter(FormatPolicyNumber(raw), IsDigit) == Filter(raw, IsDigit)
    ensures |Filter(raw, IsPolicyChar)| <= |FormatPolicyNumber(raw)| <= |Filter(raw, IsPolicyChar)| + 2
    ensures var v := Filter(raw, IsPolicyChar);
            |v| > 3 && '-' !in v ==>
              |FormatPolicyNumber(raw)| > 3 && FormatPolicyNumber(raw)[3] == '-' &&
              FormatPolicyNumber(raw)[..3] == v[..3]
  {
    var v0 := Filter(raw, IsPolicyChar);
    FilterAllSatisfy(raw, IsPolicyChar);
    assert AllPolicyChars(v0);
    KeepPolicyCharsKeepsDigits(raw);
    var v1 := FirstHyphen(v0);
    HyphenStepFacts(v0);
    HyphenStepFacts(v1);
    if |v0| > 3 && '-' !in v0 {
      var r := SecondHyphen(v1);
      SecondHyphenKeepsPrefix(v1);
      assert v1[..3] == v0[..3] && v1[3] == '-';
      assert r[..3] == r[..4][..3];
      assert r[3] == r[..4][3];
    }
  }

  /** A value holding a hyphen counts at least one. */
  lemma HyphenCountPositive(v: string)
    ensures '-' in v <==> HyphenCount(v) > 0
  {
    assert '-' in v <==> '-' in multiset(v);
  }

  /** Formatting an already formatted number changes nothing. */
  lemma FormatPolicyNumberIdempotent(raw: string)
    ensures FormatPolicyNumber(FormatPolicyNumber(raw)) == FormatPolicyNumber(raw)
  {
    var v0 := Filter(raw, IsPolicyChar);
    var v1 := FirstHyphen(v0);
    var r := SecondHyphen(v1);
    FormatPolicyNumberSpec(raw);
    assert r == FormatPolicyNumber(raw);
    FilterAllSatisfy(r, IsPolicyChar);
    assert Filter(r, IsPolicyChar) == r by {
      forall x | x in r ensures IsPolicyChar(x) {
        var i :| 0 <= i < |r| && r[i] == x;
      }
      FilterAll(r, IsPolicyChar);
    }
    HyphenCountPositive(v0);
    HyphenCountPositive(v1);
    HyphenCountPositive(r);
    if |v1| > 7 && HyphenCount(v1) == 1 {
      // the second hyphen went in: two hyphens now, neither step fires again
      InsertHyphenCount(v1, 7);
      assert HyphenCount(r) == 2;
    } else {
      assert r == v1;
      if |v0| > 3 && '-' !in v0 {
        // the first hyphen went in, and the second step already declined v1
        InsertHyphenCount(v0, 3);
        assert '-' in v1;
      } else {
        // neither step fired: v1 is v0, short or already hyphenated
        assert v1 == v0;
      }
    }
  }

  /** `value.slice(0, k) + "-" + value.slice(k)`. */
  function InsertHyphen(v: string, k: nat): (r: string)
    requires k <= |v|
    ensures |r| == |v| + 1 && r[k] == '-' && r[..k] == v[..k] && r[k + 1..] == v[k..]
  {
    v[..k] + "-" + v[k..]
  }

  /** A hyphen between two strings contributes no digit. */
  lemma HyphenAddsNoDigit(a: string, b: string)
    ensures Filter(a + "-" + b, IsDigit) == Filter(a + b, IsDigit)
  {
    FilterConcat(a + "-", b, IsDigit);
    FilterConcat(a, "-", IsDigit);
    assert Filter("-", IsDigit) == [] by {
      assert !IsDigit("-"[0]);
      assert "-"[1..] == [];
    }
    FilterConcat(a, b, IsDigit);
  }

  /** Inserting a hyphen keeps the digits in order. */
  lemma InsertHyphenKeepsDigits(v: string, k: nat)
    requires k <= |v|
    ensures Filter(InsertHyphen(v, k), IsDigit) == Filter(v, IsDigit)
  {
    var a, b := v[..k], v[k..];
    assert InsertHyphen(v, k) == a + "-" + b;
    assert a + b == v;
    HyphenAddsNoDigit(a, b);
  }

  /** Inserting a hyphen adds exactly one hyphen. */
  lemma InsertHyphenCount(v: string, k: nat)
    requires k <= |v|
    ensures HyphenCount(InsertHyphen(v, k)) == HyphenCount(v) + 1
  {
    var a, b := v[..k], v[k..];
    assert v == a + b;
    assert InsertHyphen(v, k) == a + ['-'] + b;
    assert multiset(a + ['-'] + b) == multiset(a) + multiset{'-'} + multiset(b);
    assert multiset(v) == multiset(a) + multiset(b);
  }

  /** Inserting a hyphen into digits and hyphens yields digits and hyphens. */
  lemma InsertHyphenPolicyChars(v: string, k: nat)
    requires k <= |v|
    requires forall i :: 0 <= i < |v| ==> IsPolicyChar(v[i])
    ensures forall i :: 0 <= i < |v| + 1 ==> IsPolicyChar(InsertHyphen(v, k)[i])
  {
    var r := InsertHyphen(v, k);
    forall i | 0 <= i < |v| + 1 ensures IsPolicyChar(r[i]) {
      if i < k {
        assert r[i] == r[..k][i] == v[..k][i] == v[i];
      } else if i > k {
        assert r[i] == r[k + 1..][i - k - 1] == v[k..][i - k - 1] == v[i - 1];
      }
    }
  }

  lemma InsertHyphenFacts(v: string, k: nat)
    requires k <= |v|
    ensures Filter(InsertHyphen(v, k), IsDigit) == Filter(v, IsDigit)
    ensures HyphenCount(InsertHyphen(v, k)) == HyphenCount(v) + 1
    ensures (forall i :: 0 <= i < |v| ==> IsPolicyChar(v[i])) ==>
            forall i :: 0 <= i < |v| + 1 ==> IsPolicyChar(InsertHyphen(v, k)[i])
  {
    InsertHyphenKeepsDigits(v, k);
    InsertHyphenCount(v, k);
    if forall i :: 0 <= i < |v| ==> IsPolicyChar(v[i]) {
      InsertHyphenPolicyChars(v, k);
    }
  }

  lemma KeepPolicyCharsKeepsDigits(raw: string)
    ensures Filter(Filter(raw, IsPolicyChar), IsDigit) == Filter(raw, IsDigit)
  {
    FilterCompose(raw, IsPolicyChar, IsDigit, IsDigit);
  }

  /** The example of the source's comment: 123456789 is shown as 123-456-789. */
  lemma FormatPolicyNumberExample()
    ensures FormatPolicyNumber("123456789") == "123-456-789"
  {
    var v0 := "123456789";
    assert Filter(v0, IsPolicyChar) == v0 by {
      assert forall x :: x in v0 ==> IsPolicyChar(x) by {
        forall x | x in v0 ensures IsPolicyChar(x) {
          assert x in "123456789";
        }
      }
      FilterAll(v0, IsPolicyChar);
    }
    FirstHyphenExample();
    SecondHyphenExample();
  }

  lemma FirstHyphenExample()
    ensures FirstHyphen("123456789") == "123-456789"
  {
    var v0 := "123456789";
    assert v0[..3] == "123" && v0[3..] == "456789";
    assert "123" + "-" + "456789" == "123-456789";
  }

  lemma ExampleHyphenCount()
    ensures HyphenCount("123-456789") == 1
  {
    var v0 := "123456789";
    FirstHyphenExample();
    assert '-' !in v0;
    assert InsertHyphen(v0, 3) == "123-456789";
    InsertHyphenCount(v0, 3);
    assert '-' !in multiset(v0);
  }

  lemma SecondHyphenExample()
    ensures SecondHyphen("123-456789") == "123-456-789"
  {
    ExampleHyphenCount();
    SecondInsertExample();
  }

  lemma SecondInsertExample()
    ensures InsertHyphen("123-456789", 7) == "123-456-789"
  {
    var v1 := "123-456789";
    assert v1[..7] == "123-456" && v1[7..] == "789";
    assert "123-456" + "-" + "789" == "123-456-789";
  }

  /** `text.slice(0, n)`: at most `n` characters, a prefix of the text, the text itself when short enough. */
  function Truncate(text: string, n: nat): (r: string)
    ensures |r| <= n && |r| <= |text| && r == text[..|r|]
    ensures |text| <= n ==> r == text
    ensures |text| > n ==> |r| == n
  {
    if |text| <= n then text else text[..n]
  }

  /** Truncating the consultation text at entry never changes whether the contact step passes. */
  lemma TruncationKeepsStep3Validity(d: FormData, text: string)
    ensures IsStep3Valid(d.(step3 := d.step3.(consultationContent := Truncate(text, MaxConsultationLength))))
        == IsStep3Valid(d.(step3 := d.step3.(consultationContent := text)))
  {
  }

  // ---------------------------------------------------------------------------
  // The draft invariant
  // ---------------------------------------------------------------------------

  /** What every reachable draft satisfies (the cascades and the staging rules keep it). */
  predicate DraftInvariant(d: FormData)
  {
    var s1, s2, s3 := d.step1, d.step2, d.step3;
    && (forall t :: t in s1.treatmentTypes ==> t in TreatmentOptions(s1.insuranceType))
    && NoDup(s1.treatmentTypes)
    && (s1.claimStatus == "" || s1.claimStatus in ClaimStatusOptions)
    && (s1.personType == "" || s1.personType in PersonTypeOptions)
    && (forall c :: c in s2.insuranceCompanies ==> c in CompaniesFor(s2.insuranceCategory))
    && NoDup(s2.insuranceCompanies)
    && (s2.insuranceAmountUnknown ==> s2.insuranceAmount == "")
    && (s2.policyUnknown ==> s2.policyFiles == [] && s2.insuranceCompany == "" && s2.policyNumber == "")
    && (s2.insuranceCompany == "" || s2.insuranceCompany in AllInsuranceCompanies)
    && AllPolicyChars(s2.policyNumber)
    && |s2.policyFiles| <= MaxPolicyFiles
    && (forall f :: f in s2.policyFiles ==> f.size <= MaxPolicyFileSize)
    && |s3.consultationContent| <= MaxConsultationLength
  }

  /** A freshly mounted draft is well formed and can pass no step. */
  lemma EmptyFormBlocksEveryStep()
    ensures DraftInvariant(EmptyForm)
    ensures !IsStep1Valid(EmptyForm) && !IsStep2Valid(EmptyForm) && !IsStep3Valid(EmptyForm)
  {
  }

  /** For every insurance type there is a well-formed draft that passes all three steps. */
  lemma SubmittableDraftExists(t: InsuranceType)
    requires t != Unchosen
    ensures exists d :: DraftInvariant(d) && d.step1.insuranceType == t &&
                        IsStep1Valid(d) && IsStep2Valid(d) && IsStep3Valid(d)
  {
    TreatmentOptionsWellFormed(t);
    var tag := TreatmentOptions(t)[0];
    var d := FormData(
      Step1Data(t, [tag], "서울병원", ClaimStatusOptions[0], PersonTypeOptions[0], "서울"),
      Step2Data("", true, NonLife, [CompaniesFor(NonLife)[0]], "", "", [], true),
      Step3Data("홍길동", "010", "상담", ""));
    assert IsPolicyChar('-') && AllPolicyChars(d.step2.policyNumber);
    assert DraftInvariant(d);
    assert IsStep1Valid(d) && IsStep2Valid(d) && IsStep3Valid(d);
  }

  /** Choosing another insurance type empties the tags, so step 0 fails until a tag is picked again. */
  lemma TypeChangeReopensStep1(d: FormData, t: InsuranceType)
    ensures !IsStep1Valid(d.(step1 := d.step1.(insuranceType := t, treatmentTypes := [])))
  {
  }

  /** With the policy-unknown box checked, step 1 passes on the insurer fields alone. */
  lemma PolicyUnknownWaivesEvidence(d: FormData)
    requires d.step2.policyUnknown
    ensures IsStep2Valid(d) <==> d.step2.insuranceCategory != NoCategory && |d.step2.insuranceCompanies| > 0 &&
                                 (d.step2.insuranceAmountUnknown || d.step2.insuranceAmount != "")
  {
  }

  /** Only 실손 and 교통사고 drafts are held back by missing policy evidence. */
  lemma PolicyRuleOnlyForIndemnityAndTraffic(d: FormData)
    requires !NeedsPolicy(d.step1.insuranceType)
    ensures IsStep2Valid(d) == IsStep2Valid(d.(step2 := d.step2.(policyFiles := [], insuranceCompany := "", policyNumber := "")))
  {
  }

  // ---------------------------------------------------------------------------
  // The wizard component
  // ---------------------------------------------------------------------------

  /** What the header and footer buttons hand to the router. */
  datatype Nav = Moved | Submitted(payload: FormData) | Exited

  /** The NewRequestPage component: the step index and the draft. */
  class Wizard {
    var currentStep: nat
    var formData: FormData

    ghost predicate Valid()
      reads this
    {
      currentStep <= 2 && DraftInvariant(formData)
    }

    constructor ()
      ensures Valid() && currentStep == 0 && formData == EmptyForm
    {
      currentStep := 0;
      formData := EmptyForm;
    }

    /** handleNext, reachable only while the next button is enabled. */
    method Next() returns (nav: Nav)
      requires Valid() && !NextDisabled(currentStep, formData)
      modifies this
      ensures Valid() && formData == old(formData)
      ensures old(currentStep) < 2 ==> currentStep == old(currentStep) + 1 && nav == Moved
      ensures old(currentStep) == 2 ==> currentStep == 2 && nav == Submitted(formData)
    {
      if currentStep < 2 {
        currentStep := currentStep + 1;
        nav := Moved;
      } else {
        nav := Submitted(formData);
      }
    }

    /** handleBack: one step back, or leave the wizard from the first step. */
    method Back() returns (nav: Nav)
      requires Valid()
      modifies this
      ensures Valid() && formData == old(formData)
      ensures old(currentStep) > 0 ==> currentStep == old(currentStep) - 1 && nav == Moved
      ensures old(currentStep) == 0 ==> currentStep == 0 && nav == Exited
    {
      if currentStep > 0 {
        currentStep := currentStep - 1;
        nav := Moved;
      } else {
        nav := Exited;
      }
    }

    /** The insurance-type select: the tag selection belongs to the old type and is cleared. */
    method SetInsuranceType(t: InsuranceType)
      requires Valid()
      modifies this
      ensures Valid() && currentStep == old(currentStep)
      ensures formData == old(formData).(step1 := old(formData).step1.(insuranceType := t, treatmentTypes := []))
    {
      formData := formData.(step1 := formData.step1.(insuranceType := t, treatmentTypes := []));
    }

    /** toggleTreatmentType, fired by a button drawn from `treatmentOptions[type]`. */
    method ToggleTreatmentType(tag: string)
      requires Valid() && tag in TreatmentOptions(formData.step1.insuranceType)
      modifies this
      ensures Valid() && currentStep == old(currentStep)
      ensures formData == old(formData).(step1 := old(formData).step1.(
                treatmentTypes := Toggle(old(formData).step1.treatmentTypes, tag)))
    {
      ToggleNoDup(formData.step1.treatmentTypes, tag);
      formData := formData.(step1 := formData.step1.(treatmentTypes := Toggle(formData.step1.treatmentTypes, tag)));
    }

    method SetHospitalName(value: string)
      requires Valid()
      modifies this
      ensures Valid() && currentStep == old(currentStep)
      ensures formData == old(formData).(step1 := old(formData).step1.(hospitalName := value))
    {
      formData := formData.(step1 := formData.step1.(hospitalName := value));
    }

    method SetRegion(value: string)
      requires Valid()
      modifies this
      ensures Valid() && currentStep == old(currentStep)
      ensures formData == old(formData).(step1 := old(formData).step1.(region := value))
    {
      formData := formData.(step1 := formData.step1.(region := value));
    }

    /** A claim-status button. */
    method SetClaimStatus(status: string)
      requires Valid() && status in ClaimStatusOptions
      modifies this
      ensures Valid() && currentStep == old(currentStep)
      ensures formData == old(formData).(step1 := old(formData).step1.(claimStatus := status))
    {
      formData := formData.(step1 := formData.step1.(claimStatus := status));
    }

    /** A person-type button. */
    method SetPersonType(person: string)
      requires Valid() && person in PersonTypeOptions
      modifies this
      ensures Valid() && currentStep == old(currentStep)
      ensures formData == old(formData).(step1 := old(formData).step1.(personType := person))
    {
      formData := formData.(step1 := formData.step1.(personType := person));
    }

    /** The amount input, disabled while the amount-unknown box is checked. */
    method SetInsuranceAmount(amount: string)
      requires Valid() && !formData.step2.insuranceAmountUnknown
      modifies this
      ensures Valid() && currentStep == old(currentStep)
      ensures formData == old(formData).(step2 := old(formData).step2.(insuranceAmount := amount))
    {
      formData := formData.(step2 := formData.step2.(insuranceAmount := amount));
    }

    /** The amount-unknown box: checking it clears the amount, unchecking keeps it. */
    method SetAmountUnknown(checked: bool)
      requires Valid()
      modifies this
      ensures Valid() && currentStep == old(currentStep)
      ensures formData == old(formData).(step2 := old(formData).step2.(
                insuranceAmountUnknown := checked,
                insuranceAmount := if checked then "" else old(formData).step2.insuranceAmount))
    {
      formData := formData.(step2 := formData.step2.(
        insuranceAmountUnknown := checked,
        insuranceAmount := if checked then "" else formData.step2.insuranceAmount));
    }

    /** The category select: the insurer selection belongs to the old category and is cleared. */
    method SetInsuranceCategory(c: InsuranceCategory)
      requires Valid()
      modifies this
      ensures Valid() && currentStep == old(currentStep)
      ensures formData == old(formData).(step2 := old(formData).step2.(insuranceCategory := c, insuranceCompanies := []))
    {
      formData := formData.(step2 := formData.step2.(insuranceCategory := c, insuranceCompanies := []));
    }

    /** toggleInsuranceCompany, fired by a button drawn from the category's insurers. */
    method ToggleInsuranceCompany(company: string)
      requires Valid() && company in CompaniesFor(formData.step2.insuranceCategory)
      modifies this
      ensures Valid() && currentStep == old(currentStep)
      ensures formData == old(formData).(step2 := old(formData).step2.(
                insuranceCompanies := Toggle(old(formData).step2.insuranceCompanies, company)))
    {
      ToggleNoDup(formData.step2.insuranceCompanies, company);
      formData := formData.(step2 := formData.step2.(
        insuranceCompanies := Toggle(formData.step2.insuranceCompanies, company)));
    }

    /** The policy-insurer select, disabled while the policy-unknown box is checked. */
    method SetPolicyCompany(company: string)
      requires Valid() && !formData.step2.policyUnknown
      requires company == "" || company in AllInsuranceCompanies
      modifies this
      ensures Valid() && currentStep == old(currentStep)
      ensures formData == old(formData).(step2 := old(formData).step2.(insuranceCompany := company))
    {
      formData := formData.(step2 := formData.step2.(insuranceCompany := company));
    }

    /** The policy-number input, disabled while the policy-unknown box is checked. */
    method SetPolicyNumber(raw: string)
      requires Valid() && !formData.step2.policyUnknown
      modifies this
      ensures Valid() && currentStep == old(currentStep)
      ensures formData == old(formData).(step2 := old(formData).step2.(policyNumber := FormatPolicyNumber(raw)))
    {
      FormatPolicyNumberSpec(raw);
      formData := formData.(step2 := formData.step2.(policyNumber := FormatPolicyNumber(raw)));
    }

    /**
     * handlePolicyFileUpload, reachable while the upload controls are shown
     * (they are hidden when the policy is marked unknown). A rejection leaves
     * the draft unchanged and reports why.
     */
    method AddPolicyFile(f: PolicyFile) returns (error: Option<StageError>)
      requires Valid() && !formData.step2.policyUnknown
      modifies this
      ensures Valid() && currentStep == old(currentStep)
      ensures f.size > MaxPolicyFileSize ==> error == Some(SizeExceeded) && formData == old(formData)
      ensures f.size <= MaxPolicyFileSize && |old(formData).step2.policyFiles| >= MaxPolicyFiles ==>
                error == Some(CountExceeded) && formData == old(formData)
      ensures error == None <==> f.size <= MaxPolicyFileSize && |old(formData).step2.policyFiles| < MaxPolicyFiles
      ensures error != None ==> formData == old(formData)
      ensures error == None ==>
                formData == old(formData).(step2 := old(formData).step2.(policyFiles := old(formData).step2.policyFiles + [f]))
    {
      match StagePolicyFile(formData.step2.policyFiles, f)
      case Rejected(e) =>
        error := Some(e);
      case Staged(files) =>
        formData := formData.(step2 := formData.step2.(policyFiles := files));
        error := None;
    }

    /** The remove button of staged file `index`: `splice(index, 1)` on a copy. */
    method RemovePolicyFile(index: nat)
      requires Valid()
      modifies this
      ensures Valid() && currentStep == old(currentStep)
      ensures formData == old(formData).(step2 := old(formData).step2.(
                policyFiles := RemoveAt(old(formData).step2.policyFiles, index)))
    {
      var files := RemoveAt(formData.step2.policyFiles, index);
      assert forall g :: g in files ==> g in formData.step2.policyFiles by {
        forall g | g in files ensures g in formData.step2.policyFiles {
          var j :| 0 <= j < |files| && files[j] == g;
          if index < |formData.step2.policyFiles| && j >= index {
            assert g == formData.step2.policyFiles[j + 1];
          } else {
            assert g == formData.step2.policyFiles[j];
          }
        }
      }
      formData := formData.(step2 := formData.step2.(policyFiles := files));
    }

    /** The policy-unknown box: checking it clears files, insurer and number; unchecking keeps them. */
    method SetPolicyUnknown(checked: bool)
      requires Valid()
      modifies this
      ensures Valid() && currentStep == old(currentStep)
      ensures var s := old(formData).step2;
              formData == old(formData).(step2 := s.(
                policyUnknown := checked,
                policyFiles := if checked then [] else s.policyFiles,
                insuranceCompany := if checked then "" else s.insuranceCompany,
                policyNumber := if checked then "" else s.policyNumber))
    {
      var s := formData.step2;
      formData := formData.(step2 := s.(
        policyUnknown := checked,
        policyFiles := if checked then [] else s.policyFiles,
        insuranceCompany := if checked then "" else s.insuranceCompany,
        policyNumber := if checked then "" else s.policyNumber));
    }

    method SetName(value: string)
      requires Valid()
      modifies this
      ensures Valid() && currentStep == old(currentStep)
      ensures formData == old(formData).(step3 := old(formData).step3.(name := value))
    {
      formData := formData.(step3 := formData.step3.(name := value));
    }

    method SetContact(value: string)
      requires Valid()
      modifies this
      ensures Valid() && currentStep == old(currentStep)
      ensures formData == old(formData).(step3 := old(formData).step3.(contact := value))
    {
      formData := formData.(step3 := formData.step3.(contact := value));
    }

    /** The consultation textarea: the entered text is cut to its first 500 characters. */
    method SetConsultationContent(text: string)
      requires Valid()
      modifies this
      ensures Valid() && currentStep == old(currentStep)
      ensures formData == old(formData).(step3 := old(formData).step3.(
                consultationContent := Truncate(text, MaxConsultationLength)))
    {
      formData := formData.(step3 := formData.step3.(consultationContent := Truncate(text, 500)));
    }

    method SetAvailableTime(value: string)
      requires Valid()
      modifies this
      ensures Valid() && currentStep == old(currentStep)
      ensures formData == old(formData).(step3 := old(formData).step3.(availableTime := value))
    {
      formData := formData.(step3 := formData.step3.(availableTime := value));
    }
  }
}
