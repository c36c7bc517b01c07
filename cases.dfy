/**
 * The precedent browser: a fixed list of court decisions filtered by case
 * type, a recent-five-years window, any-of keyword selection and a
 * case-insensitive text search, together with the keyword toggle, the
 * single-open FAQ list and the badge colour of each case type.
 *
 * The current year is a parameter; lower-casing is ASCII-only.
 */
module Cases {
  import opened Wrappers
  import opened Seqs
  import opened Strings

  /** 사고 유형. */
  datatype CaseType =
    | TrafficAccident     // 교통사고
    | IndemnityMedical    // 실손의료
    | LiabilityProperty   // 배상책임·재물
    | PermanentDisability // 후유장해
    | DiagnosisSurgery    // 진단·수술비
    | OtherType           // 기타

  datatype Precedent = Precedent(
    id: string,
    caseNumber: string,
    date: string,
    caseType: CaseType,
    title: string,
    keyPoint: string,
    expertComment: string,
    keywords: seq<string>,
    year: int,
    link: Option<string>)

  /** The sample decisions the screen lists. */
  const Precedents: seq<Precedent> := [
    Precedent("1", "2024다288861", "2024.12.24", TrafficAccident,
      "대법원 2024다288861 [구상금] – 조치의무 위반 시 청구 가능",
      "사고 후 조치의무 위반 시 보험사 구상금 청구 가능",
      "가해자가 도주하거나 구호 안 하면 보험사가 피해자 대신 지급한 금액 일부를 가해자에게 돌려받을 수 있어요. 과실비율 협상 시 강력한 근거!",
      ["과실비율", "조치의무", "구상금"], 2024, Some("https://casenote.kr/cases/2024다288861")),
    Precedent("2", "2022다246146", "2025.5.15", TrafficAccident,
      "대법원 2022다246146 – 진료비 기준 책임보험금 산정",
      "진료비가 손해액 미달 시에도 진료비 기준으로 책임보험금 산정",
      "병원비가 보험 기준보다 적게 나와도 실제 손해액만큼 인정받을 수 있어요. 치료비 과소평가 케이스에 유리합니다.",
      ["진료비", "책임보험금", "증액 인정"], 2025, None),
    Precedent("3", "2025.1.9", "2025.1.9", IndemnityMedical,
      "대법원 2025.1.9 – 고지의무 인과관계 관련",
      "고지의무 위반과 사고 간 인과관계 없음 입증 시 보험금 지급",
      "과거 병원 방문 사실 숨겼어도 사고와 무관함 증명하면 보험금 받을 수 있어요. 최근 혈액검사 이상 케이스 주의!",
      ["고지의무 위반", "보험금 거절", "인과관계"], 2025, None),
    Precedent("4", "2025년 다수", "2025", IndemnityMedical,
      "대법원 (2025년 다수) – 설명의무 미이행 시 고지의무 주장 무효",
      "보험 설계사 설명의무 미이행 시 고지의무 위반 주장 무효",
      "보험 설계사가 제대로 설명 안 해줬다면 거절·해지 못 해요. 계약서·통화 기록 꼭 확인하세요.",
      ["고지의무 위반", "설명의무", "보험금 거절"], 2025, None),
    Precedent("5", "2026.1.15", "2026.1.15", LiabilityProperty,
      "대법원 2026.1.15 – 근로복지공단 대위 관련",
      "산재 + 민사 배상 중복 시 공제 기준 명확",
      "누수·화재 배상 시 산재 중복 여부 확인 필수. 최근 판례 덕에 공제 기준이 명확해졌어요.",
      ["누수·화재", "산재", "배상책임"], 2026, None)]

  /** 쟁점 키워드: the keywords offered as toggles. */
  const KeywordOptions: seq<string> := ["과실비율", "고지의무 위반", "보험금 거절", "증액 인정", "누수·화재", "조치의무", "설명의무"]

  /** The type select: "전체" or one case type. */
  datatype TypeFilter = AllTypes | OnlyType(t: CaseType)

  /** The year buttons: "최근 5년" or "전체". */
  datatype YearFilter = RecentFiveYears | AllYears

  /** The four filter controls of the screen. */
  datatype Criteria = Criteria(
    selectedType: TypeFilter,
    selectedKeywords: seq<string>,
    selectedYear: YearFilter,
    searchQuery: string)

  /** The controls as the screen mounts: every type, no keyword, the last five years, no query. */
  const InitialCriteria := Criteria(AllTypes, [], RecentFiveYears, "")

  /** `${title} ${keyPoint} ${expertComment}`: the text the search looks in. */
  function SearchableText(p: Precedent): string
  {
    p.title + " " + p.keyPoint + " " + p.expertComment
  }

  /** `selectedKeywords.some(k => precedent.keywords.includes(k))`. */
  predicate SharesKeyword(selected: seq<string>, p: Precedent)
  {
    exists k :: k in selected && k in p.keywords
  }

  /** The filter callback with its early returns. */
  predicate Matches(c: Criteria, currentYear: int, p: Precedent)
  {
    if c.selectedType.OnlyType? && p.caseType != c.selectedType.t then false
    else if c.selectedYear == RecentFiveYears && p.year < currentYear - 5 then false
    else if |c.selectedKeywords| > 0 && !SharesKeyword(c.selectedKeywords, p) then false
    else if c.searchQuery != "" && !Contains(AsciiLower(SearchableText(p)), AsciiLower(c.searchQuery)) then false
    else true
  }

  /** The filter callback as a predicate value. */
  function MatchesFn(c: Criteria, currentYear: int): Precedent -> bool
  {
    p => Matches(c, currentYear, p)
  }

  /** `precedents.filter(...)`, over any list of decisions. */
  function FilterPrecedents(list: seq<Precedent>, c: Criteria, currentYear: int): seq<Precedent>
  {
    Filter(list, MatchesFn(c, currentYear))
  }

  /** `filteredPrecedents`: the filter over the sample list. */
  function FilteredPrecedents(c: Criteria, currentYear: int): seq<Precedent>
  {
    FilterPrecedents(Precedents, c, currentYear)
  }

  /** Every result passes every active criterion. */
  lemma FilterSound(list: seq<Precedent>, c: Criteria, currentYear: int, p: Precedent)
    requires p in FilterPrecedents(list, c, currentYear)
    ensures p in list
    ensures c.selectedType.OnlyType? ==> p.caseType == c.selectedType.t
    ensures c.selectedYear == RecentFiveYears ==> p.year >= currentYear - 5
    ensures |c.selectedKeywords| > 0 ==> exists k :: k in c.selectedKeywords && k in p.keywords
    ensures c.searchQuery != "" ==> Contains(AsciiLower(SearchableText(p)), AsciiLower(c.searchQuery))
  {
    FilterMembers(list, MatchesFn(c, currentYear));
  }

  /** Every listed decision that passes every active criterion is a result. */
  lemma FilterComplete(list: seq<Precedent>, c: Criteria, currentYear: int, p: Precedent)
    requires p in list
    requires c.selectedType.OnlyType? ==> p.caseType == c.selectedType.t
    requires c.selectedYear == RecentFiveYears ==> p.year >= currentYear - 5
    requires |c.selectedKeywords| > 0 ==> exists k :: k in c.selectedKeywords && k in p.keywords
    requires c.searchQuery != "" ==> Contains(AsciiLower(SearchableText(p)), AsciiLower(c.searchQuery))
    ensures p in FilterPrecedents(list, c, currentYear)
  {
    FilterMembers(list, MatchesFn(c, currentYear));
  }

  /** The results keep the order of the list. */
  lemma FilterKeepsOrder(list: seq<Precedent>, c: Criteria, currentYear: int)
    ensures IsSubsequence(FilterPrecedents(list, c, currentYear), list)
  {
    FilterIsSubsequence(list, MatchesFn(c, currentYear));
  }

  /** With every control at "everything", the whole list is shown. */
  lemma NoCriteriaKeepsAll(list: seq<Precedent>, currentYear: int)
    ensures FilterPrecedents(list, Criteria(AllTypes, [], AllYears, ""), currentYear) == list
  {
    FilterAll(list, MatchesFn(Criteria(AllTypes, [], AllYears, ""), currentYear));
  }

  /** The five-year window hides none of the samples until 2029, so the screen opens on the full list. */
  lemma InitialScreenShowsAll(currentYear: int)
    requires currentYear <= 2029
    ensures FilteredPrecedents(InitialCriteria, currentYear) == Precedents
  {
    forall p | p in Precedents ensures Matches(InitialCriteria, currentYear, p) {
      assert p.year >= 2024;
    }
    FilterAll(Precedents, MatchesFn(InitialCriteria, currentYear));
  }

  /** The 실손의료 type keeps exactly the third and fourth decisions. */
  lemma IndemnityTypeExample(currentYear: int)
    ensures FilteredPrecedents(Criteria(OnlyType(IndemnityMedical), [], AllYears, ""), currentYear)
            == [Precedents[2], Precedents[3]]
  {
    var c := Criteria(OnlyType(IndemnityMedical), [], AllYears, "");
    var ps := Precedents;
    TypeOnlyMatches(c, currentYear, ps[0]);
    TypeOnlyMatches(c, currentYear, ps[1]);
    TypeOnlyMatches(c, currentYear, ps[2]);
    TypeOnlyMatches(c, currentYear, ps[3]);
    TypeOnlyMatches(c, currentYear, ps[4]);
    FilterMiddleTwo(ps, MatchesFn(c, currentYear));
  }

  /** With only a type chosen, a decision matches exactly when it has that type. */
  lemma TypeOnlyMatches(c: Criteria, currentYear: int, p: Precedent)
    requires c.selectedType.OnlyType? && c.selectedKeywords == [] && c.selectedYear == AllYears && c.searchQuery == ""
    ensures MatchesFn(c, currentYear)(p) <==> p.caseType == c.selectedType.t
  {
  }

  /** A five-element list of which only the third and fourth pass. */
  lemma FilterMiddleTwo<T>(s: seq<T>, f: T -> bool)
    requires |s| == 5 && !f(s[0]) && !f(s[1]) && f(s[2]) && f(s[3]) && !f(s[4])
    ensures Filter(s, f) == [s[2], s[3]]
  {
    assert s[4..][1..] == [];
    assert Filter(s[4..], f) == [];
    assert s[3..][1..] == s[4..];
    assert Filter(s[3..], f) == [s[3]];
    assert s[2..][1..] == s[3..];
    assert Filter(s[2..], f) == [s[2], s[3]];
    assert s[1..][1..] == s[2..];
    assert Filter(s[1..], f) == [s[2], s[3]];
  }

  /** No sample is a 후유장해 decision, so that type shows the empty state. */
  lemma PermanentDisabilityTypeIsEmpty(currentYear: int)
    ensures FilteredPrecedents(Criteria(OnlyType(PermanentDisability), [], AllYears, ""), currentYear) == []
  {
    var c := Criteria(OnlyType(PermanentDisability), [], AllYears, "");
    forall p | p in Precedents ensures !MatchesFn(c, currentYear)(p) {
      TypeOnlyMatches(c, currentYear, p);
    }
    FilterNone(Precedents, MatchesFn(c, currentYear));
  }

  /**
   * toggleKeyword is `Toggle` on the selection. Toggling a keyword twice
   * brings back the same keyword set, and so the same results.
   */
  lemma ToggleKeywordTwiceSameResults(list: seq<Precedent>, c: Criteria, currentYear: int, keyword: string)
    ensures var c2 := c.(selectedKeywords := Toggle(Toggle(c.selectedKeywords, keyword), keyword));
            FilterPrecedents(list, c2, currentYear) == FilterPrecedents(list, c, currentYear)
  {
    var sel := c.selectedKeywords;
    var sel2 := Toggle(Toggle(sel, keyword), keyword);
    if keyword in sel {
      ToggleTwicePresent(sel, keyword);
    } else {
      ToggleTwiceAbsent(sel, keyword);
    }
    assert forall k :: k in sel2 <==> k in sel;
    assert |sel2| > 0 <==> |sel| > 0 by {
      if |sel| > 0 { assert sel[0] in sel2; }
      if |sel2| > 0 { assert sel2[0] in sel; }
    }
    var c2 := c.(selectedKeywords := sel2);
    forall p | p in list ensures MatchesFn(c2, currentYear)(p) == MatchesFn(c, currentYear)(p) {
      assert SharesKeyword(sel2, p) == SharesKeyword(sel, p);
    }
    FilterCongruent(list, MatchesFn(c2, currentYear), MatchesFn(c, currentYear));
  }

  // ---------------------------------------------------------------------------
  // FAQ and badges
  // ---------------------------------------------------------------------------

  /** The FAQ button: clicking the open entry closes it, clicking any other opens only that one. */
  function ToggleFaq(expanded: Option<nat>, index: nat): (r: Option<nat>)
    ensures r == None <==> expanded == Some(index)
    ensures r != None ==> r == Some(index)
  {
    if expanded == Some(index) then None else Some(index)
  }

  /** Two clicks on an open entry leave it open; two clicks from any other state leave every entry closed. */
  lemma ToggleFaqTwice(expanded: Option<nat>, index: nat)
    ensures expanded == Some(index) ==> ToggleFaq(ToggleFaq(expanded, index), index) == Some(index)
    ensures expanded != Some(index) ==> ToggleFaq(ToggleFaq(expanded, index), index) == None
  {
  }

  /** The badge variants of the component library. */
  datatype Variant = Destructive | DefaultVariant | Warning | Success | Outline | Secondary

  /** getTypeColor: the record covers every type, so the `|| "outline"` fallback is never taken. */
  function TypeColor(t: CaseType): Variant
  {
    match t
    case TrafficAccident => Destructive
    case IndemnityMedical => DefaultVariant
    case LiabilityProperty => Warning
    case PermanentDisability => Success
    case DiagnosisSurgery => Outline
    case OtherType => Secondary
  }

  /** Different case types get different badges. */
  lemma TypeColorInjective(a: CaseType, b: CaseType)
    ensures TypeColor(a) == TypeColor(b) ==> a == b
  {
  }
}
