/**
 * The request-management list: the sample requests filtered by a status tab,
 * the badge variant of each status and the progress bar of open requests.
 */
module RequestsList {
  import opened Seqs

  datatype Request = Request(id: nat, kind: string, typeLabel: string, location: string, status: string, progress: nat)

  /** The status tabs. */
  const StatusTabs: seq<string> := ["전체", "진행중", "완료", "보류"]

  /** The sample requests. */
  const Requests: seq<Request> := [
    Request(1, "car", "자동차", "서울시 강남구", "진행중", 60),
    Request(2, "medical", "실손", "경기도 성남시", "진행중", 30),
    Request(3, "fire", "화재", "인천시 남동구", "완료", 100)]

  /** The predicate `req => req.status === tab`. */
  function HasStatus(tab: string): Request -> bool
  {
    (r: Request) => r.status == tab
  }

  /** `filteredRequests`: the whole list for "전체", otherwise the requests with that status. */
  function FilterRequests(list: seq<Request>, tab: string): seq<Request>
  {
    if tab == "전체" then list else Filter(list, HasStatus(tab))
  }

  /** "전체" shows every request in order. */
  lemma AllTabShowsAll(list: seq<Request>)
    ensures FilterRequests(list, "전체") == list
  {
  }

  /** Any other tab shows exactly the requests with that status, in their order. */
  lemma StatusTabShowsExactly(list: seq<Request>, tab: string)
    requires tab != "전체"
    ensures forall r :: r in FilterRequests(list, tab) <==> r in list && r.status == tab
    ensures IsSubsequence(FilterRequests(list, tab), list)
  {
    FilterMembers(list, HasStatus(tab));
    FilterIsSubsequence(list, HasStatus(tab));
  }

  /** No sample request is on hold, so the 보류 tab shows the empty state. */
  lemma OnHoldTabIsEmpty()
    ensures FilterRequests(Requests, "보류") == []
  {
    assert "진행중"[0] != "보류"[0] && "완료"[0] != "보류"[0];
    FilterNone(Requests, HasStatus("보류"));
  }

  /** The 진행중 tab shows the first two samples. */
  lemma InProgressTabExample()
    ensures FilterRequests(Requests, "진행중") == Requests[..2]
  {
    var rs := Requests;
    assert "완료"[0] != "진행중"[0];
    assert rs == rs[..2] + [rs[2]];
    FilterConcat(rs[..2], [rs[2]], HasStatus("진행중"));
    FilterAll(rs[..2], HasStatus("진행중"));
    FilterNone([rs[2]], HasStatus("진행중"));
  }

  datatype Variant = Success | Warning | DefaultVariant

  /** The status badge: 완료 is green, 보류 amber, anything else the default. */
  function StatusVariant(status: string): Variant
  {
    if status == "완료" then Success else if status == "보류" then Warning else DefaultVariant
  }

  /** Each variant belongs to exactly the statuses the badge rule gives it. */
  lemma StatusVariantCases(status: string)
    ensures StatusVariant(status) == Success <==> status == "완료"
    ensures StatusVariant(status) == Warning <==> status == "보류"
    ensures StatusVariant(status) == DefaultVariant <==> status != "완료" && status != "보류"
  {
    assert "완료"[0] != "보류"[0];
  }

  /** The progress bar is drawn for open requests only. */
  predicate ShowsProgress(r: Request)
  {
    r.status == "진행중"
  }

  /** The samples: two open requests with their bars, one completed one with a green badge. */
  lemma SampleBadges()
    ensures ShowsProgress(Requests[0]) && ShowsProgress(Requests[1]) && !ShowsProgress(Requests[2])
    ensures StatusVariant(Requests[0].status) == DefaultVariant && StatusVariant(Requests[2].status) == Success
  {
    assert "완료"[0] != "진행중"[0];
    assert "진행중"[0] != "보류"[0];
  }
}
