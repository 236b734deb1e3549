/**
 * The project list page: the search parameters it holds, the filter that
 * drops empty parameters before a request, the handlers that search,
 * reset and change page, and the pagination controls' arithmetic.
 */
module ProjectSearch {
  import opened Wrappers
  import opened Messages
  import opened Api

  /** The query parameters, in the order the page's state object declares them. */
  datatype ParamKey = Page | Size | Keyword | StartDate | EndDate | VersionId | Sort

  datatype ParamValue = Num(n: int) | Text(s: string)

  /** The page's search state; `None` is `undefined`. */
  datatype SearchParams = SearchParams(
    page: Option<int>,
    size: Option<int>,
    keyword: Option<string>,
    startDate: Option<string>,
    endDate: Option<string>,
    versionId: Option<int>,
    sort: Option<string>)

  /** Page 0, ten per page, no keyword, sorted by start date, no dates and no version. */
  const InitialSearchParams: SearchParams :=
    SearchParams(Some(0), Some(10), Some(""), None, None, None, Some("START_DATE"))

  function Num?(v: Option<int>): Option<ParamValue> {
    if v.Some? then Some(Num(v.value)) else None
  }

  function Text?(v: Option<string>): Option<ParamValue> {
    if v.Some? then Some(Text(v.value)) else None
  }

  /** `Object.entries(params)`, with the value of a missing key as `undefined`. */
  function Entries(p: SearchParams): (es: seq<(ParamKey, Option<ParamValue>)>)
    ensures |es| == 7
  {
    [(Page, Num?(p.page)), (Size, Num?(p.size)), (Keyword, Text?(p.keyword)),
     (StartDate, Text?(p.startDate)), (EndDate, Text?(p.endDate)),
     (VersionId, Num?(p.versionId)), (Sort, Text?(p.sort))]
  }

  /** The filter's test: not `undefined`, not `null`, not `''` (a number 0 passes). */
  predicate Kept(v: Option<ParamValue>) {
    v.Some? && v.value != Text("")
  }

  /** The entries the filter keeps, in their original order. */
  function FilterEntries(es: seq<(ParamKey, Option<ParamValue>)>): (r: seq<(ParamKey, ParamValue)>)
    ensures |r| <= |es|
  {
    if es == [] then []
    else if Kept(es[0].1) then [(es[0].0, es[0].1.value)] + FilterEntries(es[1..])
    else FilterEntries(es[1..])
  }

  /** The filter keeps an entry exactly when its value is set and not the empty string. */
  lemma {:induction false} FilterEntriesExact(es: seq<(ParamKey, Option<ParamValue>)>, k: ParamKey, v: ParamValue)
    ensures (k, v) in FilterEntries(es) <==> (k, Some(v)) in es && v != Text("")
  {
    if es != [] {
      FilterEntriesExact(es[1..], k, v);
      assert es == [es[0]] + es[1..];
    }
  }

  /** The parameters a search sends. */
  function FilteredParams(p: SearchParams): seq<(ParamKey, ParamValue)> {
    FilterEntries(Entries(p))
  }

  /** The value `p` holds under key `k`. */
  function ValueOf(p: SearchParams, k: ParamKey): Option<ParamValue> {
    match k
    case Page => Num?(p.page)
    case Size => Num?(p.size)
    case Keyword => Text?(p.keyword)
    case StartDate => Text?(p.startDate)
    case EndDate => Text?(p.endDate)
    case VersionId => Num?(p.versionId)
    case Sort => Text?(p.sort)
  }

  /** A search sends exactly the parameters that are set and not the empty string. */
  lemma FilteredParamsExact(p: SearchParams, k: ParamKey, v: ParamValue)
    ensures (k, v) in FilteredParams(p) <==> ValueOf(p, k) == Some(v) && v != Text("")
  {
    var es := Entries(p);
    FilterEntriesExact(es, k, v);
    assert (k, Some(v)) in es <==> ValueOf(p, k) == Some(v) by {
      assert es[0] == (Page, ValueOf(p, Page)) && es[1] == (Size, ValueOf(p, Size));
      assert es[2] == (Keyword, ValueOf(p, Keyword)) && es[3] == (StartDate, ValueOf(p, StartDate));
      assert es[4] == (EndDate, ValueOf(p, EndDate)) && es[5] == (VersionId, ValueOf(p, VersionId));
      assert es[6] == (Sort, ValueOf(p, Sort));
    }
  }

  /** The first search from the initial state drops the empty keyword but keeps page 0. */
  lemma InitialRequest()
    ensures FilteredParams(InitialSearchParams) == [(Page, Num(0)), (Size, Num(10)), (Sort, Text("START_DATE"))]
  {
    var es := Entries(InitialSearchParams);
    var sort := [(Sort, Text("START_DATE"))];
    assert FilterEntries(es[6..]) == sort;
    assert FilterEntries(es[3..]) == sort by {
      assert FilterEntries(es[5..]) == sort;
      assert FilterEntries(es[4..]) == sort;
    }
    assert FilterEntries(es[2..]) == sort;
    assert FilterEntries(es[1..]) == [(Size, Num(10))] + sort;
  }

  /** A page of results as the backend returns it. */
  datatype ProjectInfo = ProjectInfo(version: string, region: string, name: string, startDate: string, endDate: string)

  datatype Paging = Paging(
    content: seq<ProjectInfo>, pageNo: int, totalPages: int, totalElements: int, first: bool, last: bool)

  /** The paging fields agree with one another (the backend's promise, not checked by the page). */
  predicate WellFormed(d: Paging) {
    0 <= d.pageNo < d.totalPages && (d.first <==> d.pageNo == 0) && (d.last <==> d.pageNo == d.totalPages - 1)
  }

  /** The pagination controls are shown only for more than one page. */
  predicate PaginationShown(d: Option<Paging>) {
    d.Some? && d.value.totalPages > 1
  }

  /** The page "Previous" moves to, if it moves at all. */
  function PreviousTarget(d: Paging): (t: Option<int>)
    ensures t.Some? <==> !d.first
    ensures WellFormed(d) && t.Some? ==> 0 <= t.value < d.pageNo
  {
    if d.first then None else Some(d.pageNo - 1)
  }

  /** The page "Next" moves to, if it moves at all. */
  function NextTarget(d: Paging): (t: Option<int>)
    ensures t.Some? <==> !d.last
    ensures WellFormed(d) && t.Some? ==> d.pageNo < t.value < d.totalPages
  {
    if d.last then None else Some(d.pageNo + 1)
  }

  datatype PageLink = PageLink(pageNumber: nat, isActive: bool)

  /** One link per page `0 .. totalPages - 1`; the current page's is active. */
  function PageLinks(d: Paging): (links: seq<PageLink>)
    ensures |links| == if d.totalPages > 0 then d.totalPages else 0
    ensures forall i :: 0 <= i < |links| ==> links[i].pageNumber == i
    ensures forall i :: 0 <= i < |links| ==> (links[i].isActive <==> i == d.pageNo)
  {
    seq(if d.totalPages > 0 then d.totalPages else 0, i requires 0 <= i => PageLink(i, i == d.pageNo))
  }

  /** Exactly one active link on a well-formed page. */
  lemma OneActiveLink(d: Paging, i: nat, j: nat)
    requires WellFormed(d)
    ensures d.pageNo < |PageLinks(d)| && PageLinks(d)[d.pageNo].isActive
    ensures i < |PageLinks(d)| && j < |PageLinks(d)| && PageLinks(d)[i].isActive && PageLinks(d)[j].isActive ==> i == j
  {
    var links := PageLinks(d);
    assert links[d.pageNo].isActive;
  }

  /** `response.isSuccess && response.data`: the page shown after a search that returned. */
  function ShownAfter(response: Envelope<Paging>): Option<Paging>
  {
    if response.isSuccess && response.data.Some? then response.data else None
  }

  /** The list page's state and handlers. */
  class ProjectPage {
    var searchParams: SearchParams
    var projectData: Option<Paging>
    var isLoading: bool

    constructor ()
      ensures searchParams == InitialSearchParams && projectData == None && !isLoading
    {
      searchParams := InitialSearchParams;
      projectData := None;
      isLoading := false;
    }

    /** `handleSearch` up to the request: loading starts and the filtered parameters go out. */
    method BeginSearch(params: SearchParams) returns (sent: seq<(ParamKey, ParamValue)>)
      modifies this`isLoading
      ensures isLoading
      ensures sent == FilteredParams(params)
    {
      isLoading := true;
      sent := FilterEntries(Entries(params));
    }

    /**
     * `handleSearch` after the request: a successful answer with data is
     * shown, anything else clears the list; a thrown error also raises a
     * toast; loading ends in every case.
     */
    method CompleteSearch(o: Outcome<Envelope<Paging>>) returns (toast: Option<Message>)
      modifies this`projectData, this`isLoading
      ensures !isLoading
      ensures projectData == (if o.Returned? then ShownAfter(o.response) else None)
      ensures toast == (if o.Returned? then None else Some(ThrownMessage(o, ProjectListFallback)))
    {
      toast := None;
      match o {
      case Returned(response) =>
        if response.isSuccess && response.data.Some? {
          projectData := response.data;
        } else {
          projectData := None;
        }
      case ThrewApiError(m) =>
        projectData := None;
        toast := Some(Server(m));
      case ThrewOther =>
        projectData := None;
        toast := Some(ProjectListFallback);
      }
      isLoading := false;
    }

    method HandleSearch(params: SearchParams, o: Outcome<Envelope<Paging>>)
      returns (sent: seq<(ParamKey, ParamValue)>, toast: Option<Message>)
      modifies this`projectData, this`isLoading
      ensures sent == FilteredParams(params)
      ensures !isLoading
      ensures projectData == (if o.Returned? then ShownAfter(o.response) else None)
      ensures toast == (if o.Returned? then None else Some(ThrownMessage(o, ProjectListFallback)))
    {
      sent := BeginSearch(params);
      toast := CompleteSearch(o);
    }

    /** The search button: page 0 with the other parameters as they are; the state's page is not touched. */
    method OnSearchClick(o: Outcome<Envelope<Paging>>) returns (sent: seq<(ParamKey, ParamValue)>, toast: Option<Message>)
      modifies this`projectData, this`isLoading
      ensures searchParams == old(searchParams)
      ensures sent == FilteredParams(old(searchParams).(page := Some(0)))
      ensures projectData == (if o.Returned? then ShownAfter(o.response) else None) && !isLoading
      ensures toast == (if o.Returned? then None else Some(ThrownMessage(o, ProjectListFallback)))
    {
      sent, toast := HandleSearch(searchParams.(page := Some(0)), o);
    }

    /** The reset button: initial parameters, no results, no request. */
    method OnResetClick()
      modifies this`searchParams, this`projectData
      ensures searchParams == InitialSearchParams && projectData == None
      ensures isLoading == old(isLoading)
    {
      searchParams := InitialSearchParams;
      projectData := None;
    }

    /** A page change: only `page` changes, and the updated parameters are searched. */
    method HandlePageChange(newPage: int, o: Outcome<Envelope<Paging>>)
      returns (sent: seq<(ParamKey, ParamValue)>, toast: Option<Message>)
      modifies this
      ensures searchParams == old(searchParams).(page := Some(newPage))
      ensures sent == FilteredParams(searchParams)
      ensures projectData == (if o.Returned? then ShownAfter(o.response) else None) && !isLoading
      ensures toast == (if o.Returned? then None else Some(ThrownMessage(o, ProjectListFallback)))
    {
      searchParams := searchParams.(page := Some(newPage));
      sent, toast := HandleSearch(searchParams, o);
    }

    /** "Previous", shown only with the pagination: moves back unless on the first page. */
    method OnPreviousClick(o: Outcome<Envelope<Paging>>)
      returns (sent: Option<seq<(ParamKey, ParamValue)>>, toast: Option<Message>)
      requires PaginationShown(projectData)
      modifies this
      ensures sent.Some? <==> !old(projectData).value.first
      ensures sent.None? ==>
        searchParams == old(searchParams) && projectData == old(projectData) && isLoading == old(isLoading)
        && toast == None
      ensures sent.Some? ==>
        searchParams == old(searchParams).(page := PreviousTarget(old(projectData).value)) && sent.value == FilteredParams(searchParams)
      ensures sent.Some? ==>
        projectData == (if o.Returned? then ShownAfter(o.response) else None) && !isLoading
        && toast == (if o.Returned? then None else Some(ThrownMessage(o, ProjectListFallback)))
    {
      var d := projectData.value;
      sent, toast := None, None;
      if !d.first {
        var request;
        request, toast := HandlePageChange(d.pageNo - 1, o);
        sent := Some(request);
      }
    }

    /** "Next", shown only with the pagination: moves on unless on the last page. */
    method OnNextClick(o: Outcome<Envelope<Paging>>)
      returns (sent: Option<seq<(ParamKey, ParamValue)>>, toast: Option<Message>)
      requires PaginationShown(projectData)
      modifies this
      ensures sent.Some? <==> !old(projectData).value.last
      ensures sent.None? ==>
        searchParams == old(searchParams) && projectData == old(projectData) && isLoading == old(isLoading)
        && toast == None
      ensures sent.Some? ==>
        searchParams == old(searchParams).(page := NextTarget(old(projectData).value)) && sent.value == FilteredParams(searchParams)
      ensures sent.Some? ==>
        projectData == (if o.Returned? then ShownAfter(o.response) else None) && !isLoading
        && toast == (if o.Returned? then None else Some(ThrownMessage(o, ProjectListFallback)))
    {
      var d := projectData.value;
      sent, toast := None, None;
      if !d.last {
        var request;
        request, toast := HandlePageChange(d.pageNo + 1, o);
        sent := Some(request);
      }
    }
  }

  /** After a search click every parameter but `page` goes out as the state holds it. */
  lemma SearchClickKeepsOtherParams(p: SearchParams, k: ParamKey, v: ParamValue)
    requires k != Page
    ensures (k, v) in FilteredParams(p.(page := Some(0))) <==> (k, v) in FilteredParams(p)
    ensures (Page, Num(0)) in FilteredParams(p.(page := Some(0)))
  {
    FilteredParamsExact(p.(page := Some(0)), k, v);
    FilteredParamsExact(p, k, v);
    FilteredParamsExact(p.(page := Some(0)), Page, Num(0));
  }
}
