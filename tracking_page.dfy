/** The tracking screen (src/components/TrackingPage.tsx): the search state
    machine over `status`, `data` and `errorMsg`, and the search started by a
    waybill in the address. The shape of the tracking answer is left open:
    the page model is generic in it. */
module TrackingPage {
  import opened Wrappers

  const NotFound := "Nie znaleziono przesyłki o takim numerze."
  const TrackingPathPrefix := "/tracking?waybill="

  datatype SearchStatus = Idle | Loading | Success | Error

  /** `navigate(`/tracking?waybill=${inputWaybill}`)`. */
  function TrackingPath(waybill: string): (r: string)
    ensures |r| == |TrackingPathPrefix| + |waybill|
    ensures r[..|TrackingPathPrefix|] == TrackingPathPrefix && r[|TrackingPathPrefix|..] == waybill
  {
    TrackingPathPrefix + waybill
  }

  class TrackingPageModel<R> {
    /** `searchParams.get('waybill') || ''`: the waybill in the address. */
    var urlWaybill: string
    var inputWaybill: string
    var data: Option<R>
    var status: SearchStatus
    var errorMsg: string
    /** The waybills passed to `getPackageTracking`, oldest first. */
    var searches: seq<string>
    /** The paths navigated to. */
    var navigations: seq<string>

    /** What each status shows: a running search has cleared the old result
        and message, a success holds the result it renders, an error the
        message it renders. (With two searches in flight a late answer leaves
        the other field as the earlier answer set it; the screen renders by
        `status` alone, so that field is not shown.) */
    predicate Valid()
      reads this
    {
      (forall w <- searches :: w != "")
      && (status == Loading ==> searches != [] && data.None? && errorMsg == "")
      && (status == Success ==> data.Some?)
      && (status == Error ==> errorMsg == NotFound)
      && (status == Idle ==> searches == [] && data.None? && errorMsg == "")
    }

    /** The search button is disabled while a search runs. */
    predicate SearchDisabled()
      reads this
    {
      status == Loading
    }

    /** The first render with `?waybill=` read from the address ("" when
        absent): the input shows it and, when it is not empty, the effect
        searches for it at once. */
    constructor(urlWaybill: string)
      ensures Valid()
      ensures this.urlWaybill == urlWaybill && inputWaybill == urlWaybill
      ensures data == None && errorMsg == "" && navigations == []
      ensures urlWaybill == "" ==> status == Idle && searches == []
      ensures urlWaybill != "" ==> status == Loading && searches == [urlWaybill]
    {
      this.urlWaybill := urlWaybill;
      inputWaybill := urlWaybill;
      data := None;
      status := Idle;
      errorMsg := "";
      searches := [];
      navigations := [];
      new;
      HandleSearch(urlWaybill);
    }

    /** `handleSearch` up to its `await`: nothing happens for an empty
        waybill; otherwise the old result and message are cleared and the
        search starts. */
    method HandleSearch(waybill: string)
      requires Valid()
      modifies this
      ensures Valid()
      ensures waybill == "" ==>
                status == old(status) && data == old(data) && errorMsg == old(errorMsg) && searches == old(searches)
      ensures waybill != "" ==>
                status == Loading && data == None && errorMsg == "" && searches == old(searches) + [waybill]
      ensures urlWaybill == old(urlWaybill) && inputWaybill == old(inputWaybill) && navigations == old(navigations)
    {
      if waybill == "" {
        return;
      }
      status := Loading;
      errorMsg := "";
      data := None;
      searches := searches + [waybill];
    }

    /** `handleSearch` after `getPackageTracking` settled: the result and
        success, or the fixed not-found message and error; neither clears the
        other field, which the search start already did. Several searches
        can be in flight at once, so an answer may arrive after another one
        has already settled the page; each overwrites what the last left. */
    method ReceiveTracking(result: Outcome<R>)
      requires Valid() && searches != []
      modifies this
      ensures Valid()
      ensures result.Resolved? ==> status == Success && data == Some(result.value) && errorMsg == old(errorMsg)
      ensures result.Rejected? ==> status == Error && data == old(data) && errorMsg == NotFound
      ensures old(status) == Loading ==> data.Some? == result.Resolved? && (errorMsg == "") == result.Resolved?
      ensures searches == old(searches) && urlWaybill == old(urlWaybill)
      ensures inputWaybill == old(inputWaybill) && navigations == old(navigations)
    {
      match result
      case Resolved(r) =>
        data := Some(r);
        status := Success;
      case Rejected(_) =>
        errorMsg := NotFound;
        status := Error;
    }

    /** Typing into the search box. */
    method SetInput(value: string)
      modifies this
      ensures inputWaybill == value
      ensures status == old(status) && data == old(data) && errorMsg == old(errorMsg)
      ensures searches == old(searches) && navigations == old(navigations) && urlWaybill == old(urlWaybill)
    {
      inputWaybill := value;
    }

    /** The address now carries `?waybill=` `waybill` (a navigation, or the
        browser's back and forward): the `[urlWaybill]` effect searches again
        when the value changed and is not empty. The input keeps its text. */
    method UrlChanged(waybill: string)
      requires Valid()
      modifies this
      ensures Valid()
      ensures urlWaybill == waybill
      ensures waybill != old(urlWaybill) && waybill != "" ==>
                status == Loading && data == None && errorMsg == "" && searches == old(searches) + [waybill]
      ensures waybill == old(urlWaybill) || waybill == "" ==>
                status == old(status) && data == old(data) && errorMsg == old(errorMsg) && searches == old(searches)
      ensures inputWaybill == old(inputWaybill) && navigations == old(navigations)
    {
      var changed := waybill != urlWaybill;
      urlWaybill := waybill;
      if changed {
        HandleSearch(waybill);
      }
    }

    /** `onSubmit`: the address is updated to carry the typed waybill, even an
        empty one, and the search runs for it; when that changed the address,
        the effect then searches for the same waybill a second time. */
    method Submit()
      requires Valid() && !SearchDisabled()
      modifies this
      ensures Valid()
      ensures navigations == old(navigations) + [TrackingPath(inputWaybill)]
      ensures urlWaybill == inputWaybill
      ensures inputWaybill == "" ==>
                status == old(status) && data == old(data) && errorMsg == old(errorMsg) && searches == old(searches)
      ensures inputWaybill != "" ==> status == Loading && data == None && errorMsg == ""
      ensures inputWaybill != "" && inputWaybill == old(urlWaybill) ==>
                searches == old(searches) + [inputWaybill]
      ensures inputWaybill != "" && inputWaybill != old(urlWaybill) ==>
                searches == old(searches) + [inputWaybill, inputWaybill]
      ensures inputWaybill == old(inputWaybill)
    {
      navigations := navigations + [TrackingPath(inputWaybill)];
      HandleSearch(inputWaybill);
      UrlChanged(inputWaybill);
    }
  }
}
