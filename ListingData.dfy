/** The listing reconciler (`useListingData`): one current listing page,
    fed by two arrival channels, the loader payload and the fetcher payload.
    An arrival either adopts the payload wholesale or, when the requested
    page has drifted out of range, asks the caller for the nearest available
    page and keeps the current data; independently it may raise an error
    toast. */
module ListingData {
  import opened Common

  datatype Pagination = Pagination(totalPages: int, totalRecords: int, pageSize: Option<int>)

  /** `SimpleListingResponse<Model>`: `{ info: { hits, pagination }, page, toastMessageError? }`. */
  datatype ListingResponse<M> = ListingResponse(
    hits: seq<M>,
    pagination: Pagination,
    page: int,
    toastMessageError: Option<string>)

  datatype Channel = FetcherChannel | LoaderChannel

  /** Page drift: no hits, the URL carries a non-empty `page`, and its text
      is not the payload's page written in decimal. */
  predicate IsPageDrift<M>(p: ListingResponse<M>, urlPage: Option<string>)
    ensures IsPageDrift(p, urlPage) ==> urlPage.Some? && urlPage.value != ""
    ensures |p.hits| > 0 ==> !IsPageDrift(p, urlPage)
  {
    |p.hits| == 0 && IsTruthy(urlPage) && urlPage.value != IntToString(p.page)
  }

  /** The toast message an arrival raises: the fetcher channel tests
      `typeof toastMessageError === 'string'`, the loader channel tests its
      truthiness, so only the fetcher channel toasts an empty message. */
  function ToastOf<M>(channel: Channel, p: ListingResponse<M>): (r: Option<string>)
    ensures r.Some? ==> r == p.toastMessageError
    ensures channel == FetcherChannel ==> (r.Some? <==> p.toastMessageError.Some?)
    ensures channel == LoaderChannel ==> (r.Some? <==> IsTruthy(p.toastMessageError))
  {
    match channel
    case FetcherChannel => p.toastMessageError
    case LoaderChannel => if IsTruthy(p.toastMessageError) then p.toastMessageError else None
  }

  /** What one arrival does: the new `data`, the argument of the
      `getNearestPageAvailable` call if one is made, and the toast message if
      one is raised. */
  datatype Effect<M> = Effect(data: Option<ListingResponse<M>>, nearestPage: Option<int>, toast: Option<string>)

  /** One arrival on `channel` of `payload` (absent when `undefined`) while
      the URL's `page` parameter is `urlPage`. */
  function Arrive<M>(channel: Channel, data: Option<ListingResponse<M>>,
                     payload: Option<ListingResponse<M>>, urlPage: Option<string>): (e: Effect<M>)
    // an absent payload changes nothing and calls nothing
    ensures payload.None? ==> e == Effect(data, None, None)
    // drift: the callback gets the payload's page, the data stays
    ensures payload.Some? && IsPageDrift(payload.value, urlPage) ==>
              e.data == data && e.nearestPage == Some(payload.value.page)
    // otherwise: the payload is adopted wholesale, no callback
    ensures payload.Some? && !IsPageDrift(payload.value, urlPage) ==>
              e.data == payload && e.nearestPage.None?
    // the toast does not depend on the drift decision, nor on the data
    ensures payload.Some? ==> e.toast == ToastOf(channel, payload.value)
  {
    match payload
    case None => Effect(data, None, None)
    case Some(p) =>
      var toast := ToastOf(channel, p);
      if IsPageDrift(p, urlPage) then Effect(data, Some(p.page), toast)
      else Effect(payload, None, toast)
  }

  // ---------------------------------------------------------------------
  // Sequences of arrivals

  datatype Arrival<M> = Arrival(channel: Channel, payload: Option<ListingResponse<M>>, urlPage: Option<string>)

  /** The data and the logs of callback calls and toasts after a sequence of
      arrivals processed in order. */
  datatype Trace<M> = Trace(data: Option<ListingResponse<M>>, nearestPages: seq<int>, toasts: seq<string>)

  function Step<M>(t: Trace<M>, a: Arrival<M>): Trace<M> {
    var e := Arrive(a.channel, t.data, a.payload, a.urlPage);
    Trace(e.data, t.nearestPages + OptionToSeq(e.nearestPage), t.toasts + OptionToSeq(e.toast))
  }

  /** The reconciler's behaviour over `arrivals`, the first one first. */
  function Replay<M>(t: Trace<M>, arrivals: seq<Arrival<M>>): Trace<M>
    decreases |arrivals|
  {
    if arrivals == [] then t else Replay(Step(t, arrivals[0]), arrivals[1..])
  }

  /** An arrival that replaces the data. */
  predicate Adopts<M>(a: Arrival<M>) {
    a.payload.Some? && !IsPageDrift(a.payload.value, a.urlPage)
  }

  /** The reference for "last arrival wins": the payload of the latest
      adopting arrival, or `data` when none adopts. */
  function LastAdopted<M>(data: Option<ListingResponse<M>>, arrivals: seq<Arrival<M>>): Option<ListingResponse<M>>
    decreases |arrivals|
  {
    if arrivals == [] then data
    else
      var last := arrivals[|arrivals| - 1];
      if Adopts(last) then last.payload else LastAdopted(data, arrivals[..|arrivals| - 1])
  }

  /** The page one arrival passes to `getNearestPageAvailable`, if it drifts. */
  function DriftHere<M>(a: Arrival<M>): seq<int> {
    if a.payload.Some? && IsPageDrift(a.payload.value, a.urlPage) then [a.payload.value.page] else []
  }

  /** The pages passed to `getNearestPageAvailable`, drifting arrival by
      drifting arrival. */
  function DriftPages<M>(arrivals: seq<Arrival<M>>): seq<int>
    decreases |arrivals|
  {
    if arrivals == [] then []
    else
      DriftHere(arrivals[0]) + DriftPages(arrivals[1..])
  }

  /** The toast messages raised, arrival by arrival. */
  function Toasts<M>(arrivals: seq<Arrival<M>>): seq<string>
    decreases |arrivals|
  {
    if arrivals == [] then []
    else
      var a := arrivals[0];
      var here := if a.payload.Some? then OptionToSeq(ToastOf(a.channel, a.payload.value)) else [];
      here + Toasts(arrivals[1..])
  }

  lemma {:induction false} ReplaySnoc<M>(t: Trace<M>, arrivals: seq<Arrival<M>>, a: Arrival<M>)
    ensures Replay(t, arrivals + [a]) == Step(Replay(t, arrivals), a)
    decreases |arrivals|
  {
    if arrivals != [] {
      assert (arrivals + [a])[1..] == arrivals[1..] + [a];
      ReplaySnoc(Step(t, arrivals[0]), arrivals[1..], a);
    }
  }

  /** One step logs the arrival's page exactly when it drifts. */
  lemma StepPages<M>(t: Trace<M>, a: Arrival<M>)
    ensures Step(t, a).nearestPages == t.nearestPages + DriftHere(a)
  {
  }

  lemma {:induction false} ReplayPages<M>(t: Trace<M>, arrivals: seq<Arrival<M>>)
    ensures Replay(t, arrivals).nearestPages == t.nearestPages + DriftPages(arrivals)
    decreases |arrivals|
  {
    if arrivals != [] {
      var a := arrivals[0];
      var here := DriftHere(a);
      var t' := Step(t, a);
      StepPages(t, a);
      assert Replay(t, arrivals) == Replay(t', arrivals[1..]);
      ReplayPages(t', arrivals[1..]);
      var rest := DriftPages(arrivals[1..]);
      assert DriftPages(arrivals) == here + rest;
      assert (t.nearestPages + here) + rest == t.nearestPages + (here + rest);
    }
  }

  lemma {:induction false} ReplayToasts<M>(t: Trace<M>, arrivals: seq<Arrival<M>>)
    ensures Replay(t, arrivals).toasts == t.toasts + Toasts(arrivals)
    decreases |arrivals|
  {
    if arrivals != [] {
      var a := arrivals[0];
      var here := if a.payload.Some? then OptionToSeq(ToastOf(a.channel, a.payload.value)) else [];
      var t' := Step(t, a);
      assert t'.toasts == t.toasts + here;
      ReplayToasts(t', arrivals[1..]);
      var rest := Toasts(arrivals[1..]);
      assert Toasts(arrivals) == here + rest;
      assert (t.toasts + here) + rest == t.toasts + (here + rest);
    }
  }

  lemma {:induction false} ReplayData<M>(t: Trace<M>, arrivals: seq<Arrival<M>>)
    ensures Replay(t, arrivals).data == LastAdopted(t.data, arrivals)
    decreases |arrivals|
  {
    if arrivals != [] {
      var init := arrivals[..|arrivals| - 1];
      var last := arrivals[|arrivals| - 1];
      assert arrivals == init + [last];
      ReplaySnoc(t, init, last);
      ReplayData(t, init);
    }
  }

  /** Last arrival wins: whichever channel delivered it, the data after a
      sequence of arrivals is the payload of the latest one that adopts; the
      callback log is the drifting arrivals' pages in order, and the toast
      log is every arrival's toast in order. */
  lemma LastArrivalWins<M>(t: Trace<M>, arrivals: seq<Arrival<M>>)
    ensures Replay(t, arrivals) ==
            Trace(LastAdopted(t.data, arrivals), t.nearestPages + DriftPages(arrivals), t.toasts + Toasts(arrivals))
  {
    ReplayData(t, arrivals);
    ReplayPages(t, arrivals);
    ReplayToasts(t, arrivals);
  }

  /** A loader payload followed by a fetcher payload that adopts leaves the
      fetcher's payload as the data, whatever the loader payload was. */
  lemma FetcherAfterLoader<M>(t: Trace<M>, p1: ListingResponse<M>, p2: ListingResponse<M>, urlPage: Option<string>)
    requires !IsPageDrift(p2, urlPage)
    ensures Replay(t, [Arrival(LoaderChannel, Some(p1), urlPage), Arrival(FetcherChannel, Some(p2), urlPage)]).data == Some(p2)
  {
    ReplayData(t, [Arrival(LoaderChannel, Some(p1), urlPage), Arrival(FetcherChannel, Some(p2), urlPage)]);
  }

  /** Without a `page` in the URL (or with an empty one) nothing is drift:
      an empty result is adopted as "no results". */
  lemma NoPageParameterNoDrift<M>(p: ListingResponse<M>, urlPage: Option<string>)
    requires urlPage.None? || urlPage == Some("")
    ensures !IsPageDrift(p, urlPage)
  {
  }

  /** Drift is decided on text: when the URL's page reads as a number other
      than the payload's page, empty hits are drift. */
  lemma DriftOnOtherPage<M>(p: ListingResponse<M>, url: string, requested: int)
    requires |p.hits| == 0 && ParseInt(url) == Some(requested) && requested != p.page
    ensures IsPageDrift(p, Some(url))
  {
    if url == IntToString(p.page) {
      ParseIntToString(p.page);
    }
  }

  /** ... and when empty hits are not drift under a non-empty URL page, that
      page reads exactly as the payload's page. */
  lemma NoDriftMeansSamePage<M>(p: ListingResponse<M>, url: string)
    requires |p.hits| == 0 && url != "" && !IsPageDrift(p, Some(url))
    ensures ParseInt(url) == Some(p.page)
  {
    ParseIntToString(p.page);
  }

  /** Being textual, the comparison treats a page written with a leading
      zero (`03`) as a different page from the payload's (3). */
  lemma LeadingZeroIsDrift<M>(p: ListingResponse<M>)
    requires |p.hits| == 0
    ensures IsPageDrift(p, Some("0" + IntToString(p.page)))
  {
    assert |"0" + IntToString(p.page)| != |IntToString(p.page)|;
  }

  /** One render's effect of the listing hook: the fetcher handler (when
      it runs) and then the loader handler (when it runs). */
  function RenderTrace<M>(t: Trace<M>,
                          runFetcher: bool, fetcherPayload: Option<ListingResponse<M>>,
                          runLoader: bool, loaderPayload: Option<ListingResponse<M>>,
                          urlPage: Option<string>): Trace<M>
  {
    var t1 := if runFetcher then Step(t, Arrival(FetcherChannel, fetcherPayload, urlPage)) else t;
    if runLoader then Step(t1, Arrival(LoaderChannel, loaderPayload, urlPage)) else t1
  }

  /** A render replays the arrivals of the handlers that run, fetcher first. */
  lemma RenderIsReplay<M>(t: Trace<M>,
                          runFetcher: bool, fetcherPayload: Option<ListingResponse<M>>,
                          runLoader: bool, loaderPayload: Option<ListingResponse<M>>,
                          urlPage: Option<string>)
    ensures RenderTrace(t, runFetcher, fetcherPayload, runLoader, loaderPayload, urlPage) ==
            Replay(t,
                   (if runFetcher then [Arrival(FetcherChannel, fetcherPayload, urlPage)] else []) +
                   (if runLoader then [Arrival(LoaderChannel, loaderPayload, urlPage)] else []))
  {
    var f := if runFetcher then [Arrival(FetcherChannel, fetcherPayload, urlPage)] else [];
    ReplaySnoc(t, [], Arrival(FetcherChannel, fetcherPayload, urlPage));
    assert [] + [Arrival(FetcherChannel, fetcherPayload, urlPage)] == [Arrival(FetcherChannel, fetcherPayload, urlPage)];
    if runLoader {
      ReplaySnoc(t, f, Arrival(LoaderChannel, loaderPayload, urlPage));
    } else {
      assert f + [] == f;
    }
  }

  // ---------------------------------------------------------------------
  // The hook's state

  /** The state of one `useListingData` instance. Each render supplies both
      channels' current payload references; an arrival handler runs on mount
      and whenever its own channel's reference changes. */
  class ListingReconciler<M> {
    var data: Option<ListingResponse<M>>
    var fetcherState: FetchState
    var mounted: bool
    var lastFetcherData: Ref?<ListingResponse<M>>
    var lastLoaderData: Ref?<ListingResponse<M>>
    /** Arguments of the `getNearestPageAvailable` calls so far. */
    ghost var nearestPageCalls: seq<int>
    /** Messages of the `notification.error` calls so far; each is made
        with an empty description. */
    ghost var toasts: seq<string>
    /** The loader payload `useState` was created with; the mount render
        sees the same one. */
    ghost var initialLoader: Ref?<ListingResponse<M>>

    /** The data with both logs. */
    ghost function Log(): Trace<M>
      reads this
    {
      Trace(data, nearestPageCalls, toasts)
    }

    /** `useState(loaderData)`: the data starts as the first loader payload. */
    constructor (loaderData: Ref?<ListingResponse<M>>, fetcherState: FetchState)
      ensures Log() == Trace(Deref(loaderData), [], [])
      ensures this.fetcherState == fetcherState && !mounted && initialLoader == loaderData
    {
      data := Deref(loaderData);
      this.fetcherState := fetcherState;
      mounted := false;
      lastFetcherData, lastLoaderData := null, null;
      nearestPageCalls, toasts := [], [];
      initialLoader := loaderData;
    }

    /** `isFetchingList`: no data yet, or the fetcher is busy. */
    function IsFetchingList(): (r: bool)
      reads this
      ensures r <==> data.None? || fetcherState != Idle
    {
      data.None? || IsInFlight(fetcherState)
    }

    /** The fetcher-channel arrival handler. */
    method OnFetcherData(payload: Option<ListingResponse<M>>, urlPage: Option<string>)
      modifies this`data, this`nearestPageCalls, this`toasts
      ensures Log() == Step(old(Log()), Arrival(FetcherChannel, payload, urlPage))
    {
      if payload.Some? {
        var p := payload.value;
        if |p.hits| == 0 && IsTruthy(urlPage) && urlPage.value != IntToString(p.page) {
          nearestPageCalls := nearestPageCalls + [p.page];
        } else {
          data := payload;
        }
        if p.toastMessageError.Some? {
          toasts := toasts + [p.toastMessageError.value];
        }
      }
    }

    /** The loader-channel arrival handler; its toast test sits outside the
      presence test and checks truthiness. */
    method OnLoaderData(payload: Option<ListingResponse<M>>, urlPage: Option<string>)
      modifies this`data, this`nearestPageCalls, this`toasts
      ensures Log() == Step(old(Log()), Arrival(LoaderChannel, payload, urlPage))
    {
      if payload.Some? {
        var p := payload.value;
        if |p.hits| == 0 && IsTruthy(urlPage) && urlPage.value != IntToString(p.page) {
          nearestPageCalls := nearestPageCalls + [p.page];
        } else {
          data := payload;
        }
      }
      if payload.Some? && IsTruthy(payload.value.toastMessageError) {
        toasts := toasts + [payload.value.toastMessageError.value];
      }
    }

    /** One render with the channels' current references, the fetcher's
      state and the URL's `page` parameter. The effects run in declaration
      order: the fetcher's first, then the loader's. */
    method Render(fetcherData: Ref?<ListingResponse<M>>, state: FetchState,
                  loaderData: Ref?<ListingResponse<M>>, urlPage: Option<string>)
      requires mounted || loaderData == initialLoader
      modifies this
      ensures initialLoader == old(initialLoader)
      ensures mounted && fetcherState == state
      ensures lastFetcherData == fetcherData && lastLoaderData == loaderData
      ensures Log() == RenderTrace(old(Log()),
                                   !old(mounted) || fetcherData != old(lastFetcherData), Deref(fetcherData),
                                   !old(mounted) || loaderData != old(lastLoaderData), Deref(loaderData), urlPage)
      // a re-render with the same references fires nothing twice
      ensures old(mounted) && fetcherData == old(lastFetcherData) && loaderData == old(lastLoaderData) ==>
              Log() == old(Log())
    {
      fetcherState := state;
      if !mounted || fetcherData != lastFetcherData {
        OnFetcherData(Deref(fetcherData), urlPage);
      }
      if !mounted || loaderData != lastLoaderData {
        OnLoaderData(Deref(loaderData), urlPage);
      }
      mounted := true;
      lastFetcherData, lastLoaderData := fetcherData, loaderData;
    }
  }
}
