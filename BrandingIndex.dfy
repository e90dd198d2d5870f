/** The branding listing route (`/branding`): its loader builds one listing
    page from the branding service, clamping the page to the pages that
    exist and falling back to an empty error page when the service throws;
    its page re-requests the listing through a fetcher with the URL's
    parameters overlaid by new ones, and reacts to the results of the
    delete, create and edit actions. */
module BrandingIndex {
  import opened Common
  import opened ListingData
  import opened ToastMessage

  /** A branding record; the listing passes it through untouched. */
  datatype Branding = Branding(id: string, code: string, name: string)

  // ---------------------------------------------------------------------
  // Search parameters

  /** A value in a search-params object. */
  datatype ParamValue = Undefined | Num(n: int) | Text(s: string)

  /** `ListingSearchParams` as a JavaScript object, key by key: a key that
      is present with the value `undefined` differs from an absent key, as
      it does for object spread. */
  type SearchRecord = map<string, ParamValue>

  predicate NumberOrUndefined(m: SearchRecord, key: string) {
    key !in m || m[key].Num? || m[key].Undefined?
  }

  predicate TextOrUndefined(m: SearchRecord, key: string) {
    key !in m || m[key].Text? || m[key].Undefined?
  }

  /** The declared types of the listing parameters: `page` and `pageSize`
      are numbers, `search`, `status` and `brandingCode` are strings. */
  predicate WellTyped(m: SearchRecord) {
    && NumberOrUndefined(m, "page") && NumberOrUndefined(m, "pageSize")
    && TextOrUndefined(m, "search") && TextOrUndefined(m, "status") && TextOrUndefined(m, "brandingCode")
  }

  /** A destructured number with a default: the default replaces `undefined`. */
  function NumberOr(m: SearchRecord, key: string, default: int): (r: int)
    requires NumberOrUndefined(m, key)
    ensures key in m && m[key].Num? ==> r == m[key].n
    ensures key !in m || m[key] == Undefined ==> r == default
  {
    if key in m && m[key].Num? then m[key].n else default
  }

  function TextOf(m: SearchRecord, key: string): Option<string> {
    if key in m && m[key].Text? then Some(m[key].s) else None
  }

  /** `{ ...inUrl, ...params }`: every key of either, the new value winning. */
  function Merge(inUrl: SearchRecord, params: SearchRecord): (m: SearchRecord)
    ensures m.Keys == inUrl.Keys + params.Keys
    ensures forall k :: k in params ==> m[k] == params[k]
    ensures forall k :: k in inUrl && k !in params ==> m[k] == inUrl[k]
  {
    inUrl + params
  }

  /** `values.key` read off an object: `undefined` when the key is absent. */
  function Lookup(values: SearchRecord, key: string): ParamValue {
    if key in values then values[key] else Undefined
  }

  /** The parameters of a filter change:
      `{ ...values, status: values.status, search: values.search, page: 1 }`. */
  function FilterChangeParams(values: SearchRecord): (p: SearchRecord)
    ensures p.Keys == values.Keys + {"status", "search", "page"}
    ensures p["page"] == Num(1)
    ensures p["status"] == Lookup(values, "status") && p["search"] == Lookup(values, "search")
    ensures forall k :: k in values && k !in {"status", "search", "page"} ==> p[k] == values[k]
  {
    values["status" := Lookup(values, "status")]["search" := Lookup(values, "search")]["page" := Num(1)]
  }

  /** The parameters of a page-drift correction: `{ page }`. */
  function PageParams(page: int): (p: SearchRecord)
    ensures p.Keys == {"page"} && p["page"] == Num(page)
  {
    map["page" := Num(page)]
  }

  /** A filter change always asks for the first page, whatever the URL says. */
  lemma FilterChangeRequestsFirstPage(inUrl: SearchRecord, values: SearchRecord)
    ensures Merge(inUrl, FilterChangeParams(values))["page"] == Num(1)
  {
  }

  /** A drift correction asks for exactly the given page and keeps the rest
      of the URL's parameters. */
  lemma DriftCorrectionRequestsPage(inUrl: SearchRecord, page: int)
    ensures var m := Merge(inUrl, PageParams(page));
            m["page"] == Num(page) && forall k :: k in inUrl && k != "page" ==> k in m && m[k] == inUrl[k]
  {
  }

  // ---------------------------------------------------------------------
  // The loader

  /** One condition of the service's `searcher`. */
  datatype Criterion = Criterion(field: string, operator: string, value: Option<string>)

  /** The request the loader sends to `getBrandings`; `sortBrandingCode` is
      the service-side sort order of the branding code. */
  datatype ServiceQuery = ServiceQuery(page: int, pageSize: int, searcher: seq<Criterion>, sortBrandingCode: Option<string>)

  /** What `getBrandings` answers: `data.hits` and `data.pagination`. */
  datatype BrandingsData = BrandingsData(hits: seq<Branding>, totalPages: int, totalRows: int)

  /** The service query for decrypted listing parameters. `recordsPerPage` is
      the `RecordsPerPage` constant and `sortMapping` stands for
      `getTableSortOrderMappingToServiceSort`. */
  function Query(params: SearchRecord, recordsPerPage: int,
                 sortMapping: Option<string> -> Option<string>): (q: ServiceQuery)
    requires WellTyped(params)
    ensures ("page" !in params || params["page"] == Undefined) ==> q.page == 1
    ensures "page" in params && params["page"].Num? ==> q.page == params["page"].n
    ensures ("pageSize" !in params || params["pageSize"] == Undefined) ==> q.pageSize == recordsPerPage
    ensures "pageSize" in params && params["pageSize"].Num? ==> q.pageSize == params["pageSize"].n
    ensures forall c :: c in q.searcher ==>
              c.value == if c.field == "status" then TextOf(params, "status") else TextOf(params, "search")
    // always the four criteria, the status matched exactly and the search text contained
    ensures q.searcher == [ Criterion("status", "eq", TextOf(params, "status")),
                            Criterion("BrandingCode", "contains", TextOf(params, "search")),
                            Criterion("BrandingName", "contains", TextOf(params, "search")),
                            Criterion("updatedBy", "contains", TextOf(params, "search")) ]
    // always sorted by the service order mapped from the branding-code order
    ensures q.sortBrandingCode == sortMapping(TextOf(params, "brandingCode"))
  {
    var search := TextOf(params, "search");
    ServiceQuery(
      NumberOr(params, "page", 1),
      NumberOr(params, "pageSize", recordsPerPage),
      [ Criterion("status", "eq", TextOf(params, "status")),
        Criterion("BrandingCode", "contains", search),
        Criterion("BrandingName", "contains", search),
        Criterion("updatedBy", "contains", search) ],
      sortMapping(TextOf(params, "brandingCode")))
  }

  /** `Math.min(page, totalPages || 1)`: a total of 0 counts as one page;
      any other total, even a negative one, is taken as it is. */
  function ClampPage(page: int, totalPages: int): (r: int)
    ensures r <= page
    ensures r <= if totalPages == 0 then 1 else totalPages
    ensures r == page || r == (if totalPages == 0 then 1 else totalPages)
    ensures 1 <= page && 0 <= totalPages ==> 1 <= r
    ensures page <= totalPages ==> r == page
  {
    var available := if totalPages == 0 then 1 else totalPages;
    if page < available then page else available
  }

  /** Clamping twice against the same total is clamping once. */
  lemma ClampIdempotent(page: int, totalPages: int)
    ensures ClampPage(ClampPage(page, totalPages), totalPages) == ClampPage(page, totalPages)
  {
  }

  /** The loader's response. `getBrandings` is the service call and
      `catchMessage` stands for `handleCatchClauseAsMessage`. */
  function Loader(params: SearchRecord, recordsPerPage: int, sortMapping: Option<string> -> Option<string>,
                  getBrandings: ServiceQuery -> Result<BrandingsData>,
                  catchMessage: Thrown -> string): (r: ListingResponse<Branding>)
    requires WellTyped(params)
    // success: hits and totals passed through, the page clamped
    ensures var q := Query(params, recordsPerPage, sortMapping);
            getBrandings(q).Ok? ==>
              var d := getBrandings(q).value;
              && r.hits == d.hits
              && r.pagination == Pagination(d.totalPages, d.totalRows, None)
              && r.page == ClampPage(q.page, d.totalPages)
              && r.toastMessageError.None?
    // failure: the requested page unclamped, nothing listed, a toast
    ensures var q := Query(params, recordsPerPage, sortMapping);
            getBrandings(q).Threw? ==>
              && r.page == q.page
              && r.hits == []
              && r.pagination == Pagination(1, 0, Some(0))
              && r.toastMessageError == Some(catchMessage(getBrandings(q).thrown))
  {
    var q := Query(params, recordsPerPage, sortMapping);
    match getBrandings(q)
    case Ok(d) =>
      ListingResponse(d.hits, Pagination(d.totalPages, d.totalRows, None), ClampPage(q.page, d.totalPages), None)
    case Threw(e) =>
      ListingResponse([], Pagination(1, 0, Some(0)), q.page, Some(catchMessage(e)))
  }

  /** The page a successful response reports never exceeds the pages that
      exist (at least one), and is at least 1 for a sensible request. */
  lemma LoaderPageInRange(params: SearchRecord, recordsPerPage: int, sortMapping: Option<string> -> Option<string>,
                          getBrandings: ServiceQuery -> Result<BrandingsData>, catchMessage: Thrown -> string)
    requires WellTyped(params)
    requires getBrandings(Query(params, recordsPerPage, sortMapping)).Ok?
    ensures var r := Loader(params, recordsPerPage, sortMapping, getBrandings, catchMessage);
            var d := getBrandings(Query(params, recordsPerPage, sortMapping)).value;
            && r.page <= (if d.totalPages < 1 then 1 else d.totalPages)
            && (1 <= Query(params, recordsPerPage, sortMapping).page && 0 <= d.totalPages ==> 1 <= r.page)
  {
  }

  /** Page-drift correction settles: re-requesting the page a successful
      response reported, while the service's total is unchanged, reports
      that same page again, so once the URL carries it the reconciler adopts
      the answer instead of correcting again. */
  lemma DriftCorrectionSettles(params: SearchRecord, recordsPerPage: int, sortMapping: Option<string> -> Option<string>,
                               getBrandings: ServiceQuery -> Result<BrandingsData>, catchMessage: Thrown -> string)
    requires WellTyped(params)
    requires var q := Query(params, recordsPerPage, sortMapping);
             var r := Loader(params, recordsPerPage, sortMapping, getBrandings, catchMessage);
             var q' := Query(Merge(params, PageParams(r.page)), recordsPerPage, sortMapping);
             getBrandings(q).Ok? && getBrandings(q').Ok? &&
             getBrandings(q').value.totalPages == getBrandings(q).value.totalPages
    ensures var r := Loader(params, recordsPerPage, sortMapping, getBrandings, catchMessage);
            var r' := Loader(Merge(params, PageParams(r.page)), recordsPerPage, sortMapping, getBrandings, catchMessage);
            r'.page == r.page && !IsPageDrift(r', Some(IntToString(r.page)))
  {
    var q := Query(params, recordsPerPage, sortMapping);
    var r := Loader(params, recordsPerPage, sortMapping, getBrandings, catchMessage);
    var params' := Merge(params, PageParams(r.page));
    assert params'["page"] == Num(r.page);
    ClampIdempotent(q.page, getBrandings(q).value.totalPages);
  }

  // ---------------------------------------------------------------------
  // The delete, create and edit results

  datatype Mutation = Delete | Create | Edit

  function MutationName(kind: Mutation): string {
    match kind
    case Delete => "delete"
    case Create => "create"
    case Edit => "edit"
  }

  /** The translation key `branding:<kind>_<outcome>`. */
  function MutationKey(kind: Mutation, outcome: string): string {
    "branding:" + MutationName(kind) + "_" + outcome
  }

  /** What one run of a mutation-result effect does. */
  datatype MutationOutcome = Ignored | Failed(notice: Notice) | Succeeded(notice: Notice)

  /** The mutation-result effect of `kind` for the fetcher's data and state. */
  function MutationResult(kind: Mutation, data: Option<ActionResponse>, state: FetchState,
                          t: string -> string, statusNames: map<int, string>): (o: MutationOutcome)
    // handled only once the fetcher has data and is idle again
    ensures o.Ignored? <==> data.None? || state != Idle
    ensures o.Failed? <==> data.Some? && state == Idle && data.value.hasError
    ensures o.Failed? ==> o.notice == Notice(ErrorNotice, t(MutationKey(kind, "error")),
                                             GetMessageToToast(t, statusNames, data.value))
    ensures o.Failed? ==> o.notice.description.Some?
    ensures o.Succeeded? ==> o.notice == Notice(SuccessNotice, t(MutationKey(kind, "success")), Some(""))
  {
    if data.Some? && state == Idle then
      if data.value.hasError then
        Failed(Notice(ErrorNotice, t(MutationKey(kind, "error")), GetMessageToToast(t, statusNames, data.value)))
      else
        Succeeded(Notice(SuccessNotice, t(MutationKey(kind, "success")), Some("")))
    else Ignored
  }

  /** The three modals' states: the record being deleted, whether the
      create modal is open, the record being edited. */
  datatype Modals = Modals(deleting: Option<Branding>, creating: bool, editing: Option<Branding>)

  function CloseModal(m: Modals, kind: Mutation): (m': Modals)
    ensures kind == Delete ==> m' == m.(deleting := None)
    ensures kind == Create ==> m' == m.(creating := false)
    ensures kind == Edit ==> m' == m.(editing := None)
  {
    match kind
    case Delete => m.(deleting := None)
    case Create => m.(creating := false)
    case Edit => m.(editing := None)
  }

  /** A mutation fetcher's current state and the state its effect last ran
      for (absent before mount). */
  datatype Tracked = Tracked(state: FetchState, seen: Option<FetchState>)

  // ---------------------------------------------------------------------
  // The page

  /** The listing page's own state. `t` is the translation function,
      `statusNames` is `StatusCodeMappingToString` and `encrypt` stands for
      the URL-parameter encryption; `paramsInUrl`, passed to each event, is
      the decrypted browser URL at the time of the render. */
  class BrandingPage {
    const t: string -> string
    const statusNames: map<int, string>
    const encrypt: SearchRecord -> string
    var fetchers: map<Mutation, Tracked>
    var modals: Modals
    /** Paths loaded through the listing fetcher. */
    ghost var loads: seq<string>
    /** Query strings written to the browser URL without navigation. */
    ghost var urlUpdates: seq<string>
    ghost var notices: seq<Notice>

    ghost predicate Valid()
      reads this
    {
      forall kind: Mutation :: kind in fetchers
    }

    constructor (t: string -> string, statusNames: map<int, string>, encrypt: SearchRecord -> string)
      ensures Valid()
      ensures this.t == t && this.statusNames == statusNames && this.encrypt == encrypt
      ensures fetchers == map[Delete := Tracked(Idle, None), Create := Tracked(Idle, None), Edit := Tracked(Idle, None)]
      ensures modals == Modals(None, false, None)
      ensures loads == [] && urlUpdates == [] && notices == []
    {
      this.t, this.statusNames, this.encrypt := t, statusNames, encrypt;
      fetchers := map[Delete := Tracked(Idle, None), Create := Tracked(Idle, None), Edit := Tracked(Idle, None)];
      modals := Modals(None, false, None);
      loads, urlUpdates, notices := [], [], [];
      new;
      forall kind: Mutation
        ensures kind in fetchers
      {
        match kind
        case Delete =>
        case Create =>
        case Edit =>
      }
    }

    /** `isDeleting`, `isCreating`, `isEdting`: that mutation's fetcher is busy. */
    function IsBusy(kind: Mutation): (r: bool)
      requires Valid()
      reads this
      ensures r <==> fetchers[kind].state != Idle
    {
      IsInFlight(fetchers[kind].state)
    }

    /** `handleRequest`: the URL's parameters overlaid by `params`, encrypted
        once; the same query string is loaded and written to the URL. */
    method HandleRequest(paramsInUrl: SearchRecord, params: SearchRecord)
      modifies this`loads, this`urlUpdates
      ensures var query := encrypt(Merge(paramsInUrl, params));
              loads == old(loads) + ["/branding" + query] && urlUpdates == old(urlUpdates) + [query]
    {
      var query := encrypt(paramsInUrl + params);
      loads := loads + ["/branding" + query];
      urlUpdates := urlUpdates + [query];
    }

    /** The `getNearestPageAvailable` given to the listing reconciler. */
    method GetNearestPageAvailable(paramsInUrl: SearchRecord, page: int)
      modifies this`loads, this`urlUpdates
      ensures var query := encrypt(Merge(paramsInUrl, PageParams(page)));
              loads == old(loads) + ["/branding" + query] && urlUpdates == old(urlUpdates) + [query]
    {
      HandleRequest(paramsInUrl, map["page" := Num(page)]);
    }

    /** The filter form's `onChange`. */
    method OnFilterChange(paramsInUrl: SearchRecord, values: SearchRecord)
      modifies this`loads, this`urlUpdates
      ensures var query := encrypt(Merge(paramsInUrl, FilterChangeParams(values)));
              loads == old(loads) + ["/branding" + query] && urlUpdates == old(urlUpdates) + [query]
    {
      HandleRequest(paramsInUrl, FilterChangeParams(values));
    }

    /** The table's `onDelete`, `onCreate` and `onEdit`: the modal of
        `kind` opens, on `record` where the modal holds one. */
    method OpenModal(kind: Mutation, record: Branding)
      modifies this`modals
      ensures kind == Delete ==> modals == old(modals).(deleting := Some(record))
      ensures kind == Create ==> modals == old(modals).(creating := true)
      ensures kind == Edit ==> modals == old(modals).(editing := Some(record))
    {
      match kind {
        case Delete => modals := modals.(deleting := Some(record));
        case Create => modals := modals.(creating := true);
        case Edit => modals := modals.(editing := Some(record));
      }
    }

    /** A render in which the `kind` fetcher has `state` and `data`. Its
        effect is keyed on the state alone: it runs on mount and whenever the
        state changed. A failure raises an error notice with the toast
        description; a success raises a success notice, re-requests the
        listing with the URL's parameters and closes that modal. */
    method OnMutationFetcher(kind: Mutation, state: FetchState, data: Option<ActionResponse>,
                             paramsInUrl: SearchRecord)
      requires Valid()
      modifies this
      ensures Valid()
      ensures fetchers == old(fetchers)[kind := Tracked(state, Some(state))]
      ensures var o := if old(fetchers[kind].seen) != Some(state)
                       then MutationResult(kind, data, state, t, statusNames) else Ignored;
              var query := encrypt(Merge(paramsInUrl, map[]));
              && notices == old(notices) + (if o.Ignored? then [] else [o.notice])
              && loads == old(loads) + (if o.Succeeded? then ["/branding" + query] else [])
              && urlUpdates == old(urlUpdates) + (if o.Succeeded? then [query] else [])
              && modals == if o.Succeeded? then CloseModal(old(modals), kind) else old(modals)
    {
      var runs := fetchers[kind].seen != Some(state);
      fetchers := fetchers[kind := Tracked(state, Some(state))];
      if runs && data.Some? && state == Idle {
        var response := data.value;
        if response.hasError {
          notices := notices + [Notice(ErrorNotice, t(MutationKey(kind, "error")),
                                       GetMessageToToast(t, statusNames, response))];
        } else {
          notices := notices + [Notice(SuccessNotice, t(MutationKey(kind, "success")), Some(""))];
          HandleRequest(paramsInUrl, map[]);
          modals := CloseModal(modals, kind);
        }
      }
    }
  }
}
