/** The order history screen (src/components/OrdersHistoryPage.tsx): pages of
    ten orders fetched by page number, the label download with its demo guard
    and error messages, the status badge and the sender/receiver names. */
module OrdersHistory {
  import opened Wrappers
  import opened Text
  import FileHelpers

  const PageSize := 10

  const HistoryError := "Nie udało się pobrać historii zamówień. Sprawdź połączenie."
  const DemoNotice := "To jest zamówienie testowe (demo). Nie posiada prawdziwej etykiety na serwerze kuriera."
  const LabelNotFound := "Błąd 404: " + "Nie znaleziono etykiety dla tego zamówienia."
  const LabelBadRequest := "Błąd 400: " + "Nieprawidłowe żądanie (sprawdź dane zamówienia)."
  const LabelServerErrorPrefix := "Wystąpił błąd serwera: "
  const LabelFallback := "Nie udało się pobrać etykiety."

  /** A sender or receiver of a past order; every field may be missing. */
  datatype HistoryParty = HistoryParty(
    companyName: Option<string>, name: Option<string>, surname: Option<string>, city: Option<string>)

  /** The fields of an `OrderHistoryItem` the screen decides on. */
  datatype OrderHistoryItem = OrderHistoryItem(
    waybill: Option<string>, status: Option<string>,
    sender: Option<HistoryParty>, receiver: Option<HistoryParty>)

  /** The JSON `getOrdersHistory` resolved to: a list, or anything else. */
  datatype HistoryResponse = OrderList(items: seq<OrderHistoryItem>) | NotAList

  function Str(x: Option<string>): string {
    x.GetOr("")
  }

  // =============================================================== paging

  /** `isLastPage`: a page shorter than ten orders is the last one. */
  predicate IsLastPage(orders: seq<OrderHistoryItem>) {
    |orders| < PageSize
  }

  /** The orders a history response leaves on screen. */
  function OrdersOf(data: HistoryResponse): (r: seq<OrderHistoryItem>)
    ensures data.OrderList? ==> r == data.items
    ensures data.NotAList? ==> r == [] && IsLastPage(r)
  {
    if data.OrderList? then data.items else []
  }

  // =========================================================== party name

  /** The name shown for a sender or receiver: the company name, else
      "name surname" trimmed, else "-". */
  function PartyDisplayName(p: Option<HistoryParty>): (r: string)
    ensures r != ""
    ensures p.Some? && Str(p.value.companyName) != "" ==> r == p.value.companyName.value
  {
    var company := if p.Some? then Str(p.value.companyName) else "";
    var name := if p.Some? then Str(p.value.name) else "";
    var surname := if p.Some? then Str(p.value.surname) else "";
    Or(company, Or(Trim(name + " " + surname), "-"))
  }

  /** No word at the edges: the string neither starts nor ends with white space. */
  predicate Tidy(s: string) {
    s == [] || (!IsWhitespace(s[0]) && !IsWhitespace(s[|s| - 1]))
  }

  /** Without a company name, a party with a first name and a surname is
      shown as "name surname", one with only one of them as that one, and one
      with neither as "-". */
  lemma PartyDisplayNameOfPerson(p: HistoryParty)
    requires Str(p.companyName) == ""
    requires Tidy(Str(p.name)) && Tidy(Str(p.surname))
    ensures var name, surname := Str(p.name), Str(p.surname);
            var r := PartyDisplayName(Some(p));
            (name != "" && surname != "" ==> r == name + " " + surname)
            && (name != "" && surname == "" ==> r == name)
            && (name == "" && surname != "" ==> r == surname)
            && (name == "" && surname == "" ==> r == "-")
  {
    var name, surname := Str(p.name), Str(p.surname);
    var full := name + " " + surname;
    if name != "" && surname != "" {
      assert full == [] + (name + " " + surname) + [];
      TrimAround([], name + " " + surname, []);
    } else if name != "" {
      assert full == [] + name + " ";
      TrimAround([], name, " ");
    } else if surname != "" {
      assert full == " " + surname + [];
      TrimAround(" ", surname, []);
    } else {
      assert full == " " + [] + [];
      TrimAround(" ", [], []);
    }
  }

  /** An order without a party shows "-". */
  lemma PartyDisplayNameMissing()
    ensures PartyDisplayName(None) == "-"
  {
    assert "" + " " + "" == " " + [] + [];
    TrimAround(" ", [], []);
  }

  // ========================================================= status badge

  /** The four styled statuses, the yellow default, and the value of an
      `Object.prototype` member that an object-literal lookup finds through the
      prototype chain (rendered as that member's string form). */
  datatype BadgeStyle =
    | CreatedStyle | SentStyle | CancelledStyle | DeliveredStyle | DefaultStyle
    | InheritedStyle(key: string)

  /** `statusMap`. */
  function StatusMap(): map<string, BadgeStyle> {
    map["created" := CreatedStyle, "sent" := SentStyle,
        "cancelled" := CancelledStyle, "delivered" := DeliveredStyle]
  }

  /** The lower-case names of the members every object literal inherits from
      `Object.prototype`; their values are truthy. */
  function InheritedKeys(): set<string> {
    {"constructor", "__proto__"}
  }

  /** `getStatusBadge(order.status || 'unknown')`: the style looked up by the
      lower-cased status (an inherited member counts as found, any other miss
      falls back to the default), and the upper-cased status as the label. */
  function StatusBadge(status: Option<string>): (r: (BadgeStyle, string))
    ensures var s := Or(Str(status), "unknown");
            r.1 == ToUpper(s)
            && (ToLower(s) in StatusMap() ==> r.0 == StatusMap()[ToLower(s)])
            && (ToLower(s) in InheritedKeys() ==> r.0 == InheritedStyle(ToLower(s)))
            && (ToLower(s) !in StatusMap() && ToLower(s) !in InheritedKeys() ==> r.0 == DefaultStyle)
  {
    var s := Or(Str(status), "unknown");
    var key := ToLower(s);
    var style :=
      if key in StatusMap() then StatusMap()[key]
      else if key in InheritedKeys() then InheritedStyle(key)
      else DefaultStyle;
    (style, ToUpper(s))
  }

  /** The colour is determined by the label: two badges that read the same
      have the same style. */
  lemma SameLabelSameStyle(a: Option<string>, b: Option<string>)
    requires StatusBadge(a).1 == StatusBadge(b).1
    ensures StatusBadge(a).0 == StatusBadge(b).0
  {
    var sa, sb := Or(Str(a), "unknown"), Or(Str(b), "unknown");
    ToLowerOfUpper(sa);
    ToLowerOfUpper(sb);
    assert ToLower(sa) == ToLower(ToUpper(sa)) == ToLower(ToUpper(sb)) == ToLower(sb);
  }

  /** The style does not depend on the case the server wrote the status in. */
  lemma StatusStyleIgnoresCase(s: string)
    requires s != ""
    ensures StatusBadge(Some(ToUpper(s))).0 == StatusBadge(Some(s)).0
  {
    ToLowerOfUpper(s);
    assert ToUpper(s) != "";
  }

  /** A missing status is shown as "UNKNOWN" in the default style. */
  lemma StatusBadgeMissing()
    ensures StatusBadge(None) == (DefaultStyle, "UNKNOWN")
  {
    assert ToLower("unknown") == "unknown";
    assert ToUpper("unknown") == "UNKNOWN";
  }

  // ======================================================= label download

  /** Demo orders carry waybills starting with "WAW-" or "GDN-". */
  predicate IsDemoWaybill(w: string) {
    StartsWith(w, "WAW-") || StartsWith(w, "GDN-")
  }

  datatype DownloadStep = Ignore | ShowDemoNotice | RequestLabel(waybill: string)

  /** The guards at the top of `handleDownloadLabel`. */
  function DownloadDecision(waybill: Option<string>): (d: DownloadStep)
    ensures (waybill.None? || waybill.value == "") <==> d == Ignore
    ensures d == ShowDemoNotice <==> waybill.Some? && IsDemoWaybill(waybill.value)
    ensures d.RequestLabel? ==> waybill == Some(d.waybill) && d.waybill != "" && !IsDemoWaybill(d.waybill)
  {
    if waybill.None? || waybill.value == "" then Ignore
    else if IsDemoWaybill(waybill.value) then ShowDemoNotice
    else RequestLabel(waybill.value)
  }

  /** The alert of a failed label download: 404 and 400 have their own texts,
      any other status is quoted, and without a response the error's own
      message is shown, or a fixed text when it has none. */
  function LabelErrorMessage(e: CallError): (m: string)
    ensures m != ""
    ensures e.response.Some? && e.response.value.status == 404 ==> m == LabelNotFound
    ensures e.response.Some? && e.response.value.status == 400 ==> m == LabelBadRequest
    ensures e.response.Some? && e.response.value.status != 404 && e.response.value.status != 400 ==>
              m == LabelServerErrorPrefix + IntString(e.response.value.status)
              && StartsWith(m, LabelServerErrorPrefix)
    ensures e.response.None? ==> m == Or(e.message, LabelFallback)
  {
    match e.response
    case Some(r) =>
      if r.status == 404 then LabelNotFound
      else if r.status == 400 then LabelBadRequest
      else
        var m := LabelServerErrorPrefix + IntString(r.status);
        assert m[..|LabelServerErrorPrefix|] == LabelServerErrorPrefix;
        m
    case None => Or(e.message, LabelFallback)
  }

  /** The four kinds of failure are told apart by their messages. */
  lemma LabelErrorsDistinct(status: int, message: string)
    requires status != 404 && status != 400
    ensures var notFound := LabelErrorMessage(CallError(Some(ErrorResponse(404, "")), message));
            var bad := LabelErrorMessage(CallError(Some(ErrorResponse(400, "")), message));
            var other := LabelErrorMessage(CallError(Some(ErrorResponse(status, "")), message));
            notFound != bad && notFound != other && bad != other
  {
    var other := LabelErrorMessage(CallError(Some(ErrorResponse(status, "")), message));
    assert other[..|LabelServerErrorPrefix|] == LabelServerErrorPrefix;
    assert LabelNotFound[0] == 'B' && LabelBadRequest[0] == 'B' && LabelServerErrorPrefix[0] == 'W';
    assert LabelNotFound[7] == '4' && LabelBadRequest[7] == '0';
  }

  /** `etykieta-${waybillId}.pdf` */
  function LabelFileName(waybill: string): string {
    "etykieta-" + waybill + ".pdf"
  }

  // ================================================================== page

  class OrdersHistoryModel {
    var orders: seq<OrderHistoryItem>
    var loading: bool
    var error: Option<string>
    var page: nat
    var downloadingId: Option<string>
    /** The page numbers passed to `getOrdersHistory`, oldest first. */
    var historyRequests: seq<nat>
    /** The waybills passed to `getLabel`, oldest first. */
    var labelRequests: seq<string>
    /** The waybills of the `getLabel` calls that have not settled yet; a
        second row's button can start a call while an earlier one runs. */
    var pendingLabels: multiset<string>
    /** The files handed to the browser: name and content. */
    var downloads: seq<(string, FileHelpers.Blob)>
    var alerts: seq<string>

    /** Every reachable state: a label is only ever requested for a real,
        non-demo waybill, the one being downloaded is one of them, and only
        calls that were made can be pending. */
    predicate Valid()
      reads this
    {
      (forall w <- labelRequests :: w != "" && !IsDemoWaybill(w))
      && (downloadingId.Some? ==> downloadingId.value in labelRequests)
      && pendingLabels <= multiset(labelRequests)
      && (loading ==> historyRequests != [])
    }

    /** The first render: loading, and the effect fetches page 0. */
    constructor()
      ensures Valid()
      ensures orders == [] && loading && error == None && page == 0 && downloadingId == None
      ensures historyRequests == [0] && labelRequests == [] && pendingLabels == multiset{}
      ensures downloads == [] && alerts == []
    {
      orders := [];
      loading := true;
      error := None;
      page := 0;
      downloadingId := None;
      historyRequests := [0];
      labelRequests := [];
      pendingLabels := multiset{};
      downloads := [];
      alerts := [];
    }

    /** The list, its page and its fetch state are as they were. */
    twostate predicate HistoryKept()
      reads this
    {
      orders == old(orders) && loading == old(loading) && error == old(error) && page == old(page)
      && historyRequests == old(historyRequests)
    }

    /** The label downloads are as they were. */
    twostate predicate LabelsKept()
      reads this
    {
      downloadingId == old(downloadingId) && labelRequests == old(labelRequests)
      && pendingLabels == old(pendingLabels) && downloads == old(downloads)
    }

    /** `fetchHistory` up to its `await`, for the current page: run by the
        effect after a page change and by the retry button of the error view,
        both reached only while nothing is loading. */
    method FetchHistory()
      requires Valid() && !loading
      modifies this
      ensures Valid()
      ensures loading && error == None && historyRequests == old(historyRequests) + [page]
      ensures orders == old(orders) && page == old(page)
      ensures LabelsKept() && alerts == old(alerts)
    {
      loading := true;
      error := None;
      historyRequests := historyRequests + [page];
    }

    /** `fetchHistory` after `getOrdersHistory` settled: a list replaces the
        orders, anything else empties them, a failure keeps them and shows the
        error; loading ends either way. One fetch is in flight at a time. */
    method ReceiveHistory(result: Outcome<HistoryResponse>)
      requires Valid() && loading
      modifies this
      ensures Valid()
      ensures !loading
      ensures result.Resolved? ==> orders == OrdersOf(result.value) && error == old(error)
      ensures result.Rejected? ==> orders == old(orders) && error == Some(HistoryError)
      ensures page == old(page) && historyRequests == old(historyRequests)
      ensures LabelsKept() && alerts == old(alerts)
    {
      loading := false;
      match result
      case Resolved(data) =>
        orders := OrdersOf(data);
      case Rejected(_) =>
        error := Some(HistoryError);
    }

    /** "Previous", drawn with the table once the list loaded without error:
        disabled on page 0; otherwise one page back, which re-runs the fetch
        effect. */
    method ClickPrevious()
      requires Valid() && !loading && error == None
      modifies this
      ensures Valid()
      ensures old(page) == 0 ==> HistoryKept()
      ensures old(page) > 0 ==>
                page == old(page) - 1 && loading && error == None && historyRequests == old(historyRequests) + [page]
      ensures orders == old(orders) && LabelsKept() && alerts == old(alerts)
    {
      if page == 0 {
        return;
      }
      page := Max0(page - 1);
      FetchHistory();
    }

    /** "Next", drawn with the table once the list loaded without error:
        disabled on the last page; otherwise one page on, which re-runs the
        fetch effect. */
    method ClickNext()
      requires Valid() && !loading && error == None
      modifies this
      ensures Valid()
      ensures IsLastPage(old(orders)) ==> HistoryKept()
      ensures !IsLastPage(old(orders)) ==>
                page == old(page) + 1 && loading && error == None && historyRequests == old(historyRequests) + [page]
      ensures orders == old(orders) && LabelsKept() && alerts == old(alerts)
    {
      if IsLastPage(orders) {
        return;
      }
      page := page + 1;
      FetchHistory();
    }

    /** `handleDownloadLabel` up to its `await`, from a row of the table, which
        is drawn once the list loaded without error. The button is disabled for
        an order without a waybill and for the one already downloading. */
    method DownloadLabel(waybill: Option<string>)
      requires Valid() && !loading && error == None
      modifies this
      ensures Valid()
      ensures var d := DownloadDecision(waybill);
              var disabled := waybill.None? || waybill.value == "" || old(downloadingId) == waybill;
              (disabled || d == Ignore ==>
                 labelRequests == old(labelRequests) && pendingLabels == old(pendingLabels)
                 && alerts == old(alerts) && downloadingId == old(downloadingId))
              && (!disabled && d == ShowDemoNotice ==>
                    alerts == old(alerts) + [DemoNotice] && labelRequests == old(labelRequests)
                    && pendingLabels == old(pendingLabels) && downloadingId == old(downloadingId))
              && (!disabled && d.RequestLabel? ==>
                    labelRequests == old(labelRequests) + [d.waybill] && downloadingId == Some(d.waybill)
                    && pendingLabels == old(pendingLabels) + multiset{d.waybill}
                    && alerts == old(alerts))
      ensures HistoryKept() && downloads == old(downloads)
    {
      if waybill.None? || waybill.value == "" || downloadingId == waybill {
        return;
      }
      match DownloadDecision(waybill)
      case Ignore =>
      case ShowDemoNotice =>
        alerts := alerts + [DemoNotice];
      case RequestLabel(w) =>
        downloadingId := Some(w);
        labelRequests := labelRequests + [w];
        pendingLabels := pendingLabels + multiset{w};
    }

    /** The `finally` of `handleDownloadLabel`: the spinner stops and the call
        for `waybill` is no longer pending. */
    method SettleLabel(waybill: string)
      requires Valid() && waybill in pendingLabels
      modifies this
      ensures Valid()
      ensures downloadingId == None && waybill in labelRequests
      ensures pendingLabels == old(pendingLabels) - multiset{waybill}
      ensures HistoryKept() && labelRequests == old(labelRequests)
      ensures downloads == old(downloads) && alerts == old(alerts)
    {
      assert waybill in multiset(labelRequests);
      downloadingId := None;
      pendingLabels := pendingLabels - multiset{waybill};
    }

    /** `handleDownloadLabel` after `getLabel(waybill, 'PDF')` settled: the
        base64 text becomes a PDF file named after the waybill; text `atob`
        refuses fails with the browser's message `decodeError`; a rejected call
        alerts its mapped message. The spinner stops either way, even while
        another row's call is still pending. Each call settles once. */
    method ReceiveLabel(waybill: string, result: Outcome<string>, decodeError: string)
      requires Valid() && waybill in pendingLabels
      modifies this
      ensures Valid()
      ensures downloadingId == None && waybill in labelRequests
      ensures pendingLabels == old(pendingLabels) - multiset{waybill}
      ensures result.Resolved? && FileHelpers.Base64Decode(result.value).Some? ==>
                downloads == old(downloads)
                             + [(LabelFileName(waybill),
                                 FileHelpers.Blob(FileHelpers.Base64Decode(result.value).value,
                                                  FileHelpers.PdfMime))]
                && alerts == old(alerts)
      ensures result.Resolved? && FileHelpers.Base64Decode(result.value).None? ==>
                downloads == old(downloads) && alerts == old(alerts) + [Or(decodeError, LabelFallback)]
      ensures result.Rejected? ==>
                downloads == old(downloads) && alerts == old(alerts) + [LabelErrorMessage(result.error)]
      ensures HistoryKept() && labelRequests == old(labelRequests)
    {
      var blob: Option<FileHelpers.Blob> := None;
      if result.Resolved? {
        blob := FileHelpers.Base64ToBlob(result.value, Some(FileHelpers.PdfMime));
      }
      SettleLabel(waybill);
      match result
      case Resolved(_) =>
        if blob.Some? {
          downloads := downloads + [(LabelFileName(waybill), blob.value)];
        } else {
          alerts := alerts + [LabelErrorMessage(CallError(None, decodeError))];
        }
      case Rejected(e) =>
        alerts := alerts + [LabelErrorMessage(e)];
    }
  }

  function Max0(n: int): nat {
    if n < 0 then 0 else n
  }
}
