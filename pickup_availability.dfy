/** The pickup-availability dialog (src/components/PickupAvailabilityModal.tsx):
    when it fetches, how it resets, the dates it lists in order, and the
    earliest end of a pickup window it suggests. */
module PickupAvailability {
  import opened Wrappers
  import opened Text

  const FetchError := "Nie udało się pobrać dostępnych terminów dla tego kuriera."

  /** The courier's hours on one day. */
  datatype PickupSlot = PickupSlot(timefrom: string, timeto: string, interval: int)

  /** A `PickupResponse` object: its date keys, in the order `Object.keys`
      lists them, each with its slot. */
  type PickupResponse = seq<(string, PickupSlot)>

  /** `Object.keys(pickups)`. */
  function Keys(resp: PickupResponse): (r: seq<string>)
    ensures |r| == |resp|
    ensures forall i :: 0 <= i < |resp| ==> r[i] == resp[i].0
  {
    seq(|resp|, i requires 0 <= i < |resp| => resp[i].0)
  }

  /** `pickups[date]`, `None` when the date is not a key. */
  function Lookup(resp: PickupResponse, date: string): (r: Option<PickupSlot>)
    ensures r.Some? <==> date in Keys(resp)
    ensures r.Some? ==> (date, r.value) in resp
  {
    if resp == [] then None
    else if resp[0].0 == date then Some(resp[0].1)
    else
      assert Keys(resp) == [resp[0].0] + Keys(resp[1..]);
      Lookup(resp[1..], date)
  }

  // ================================================================ sorting

  /** Each date is at most the next one, by JavaScript's string order. */
  predicate Sorted(s: seq<string>) {
    forall i :: 0 <= i < |s| - 1 ==> !LexLess(s[i + 1], s[i])
  }

  /** `x` placed into a sorted list before the first element not below it. */
  function Insert(x: string, s: seq<string>): (r: seq<string>)
    requires Sorted(s)
    ensures Sorted(r)
    ensures multiset(r) == multiset(s) + multiset{x}
    ensures r[0] == x || (s != [] && r[0] == s[0])
  {
    if s == [] then [x]
    else if !LexLess(s[0], x) then [x] + s
    else
      LexLessAsymmetric(s[0], x);
      var rest := Insert(x, s[1..]);
      assert s == [s[0]] + s[1..];
      [s[0]] + rest
  }

  /** `.sort()` with no comparator. */
  function Sort(s: seq<string>): (r: seq<string>)
    ensures Sorted(r)
    ensures multiset(r) == multiset(s)
  {
    if s == [] then []
    else
      assert s == [s[0]] + s[1..];
      Insert(s[0], Sort(s[1..]))
  }

  /** A sorted list ascends from any place to any later place, not only from
      one place to the next. */
  lemma {:induction false} SortedAscends(s: seq<string>)
    requires Sorted(s)
    ensures forall i, j :: 0 <= i < j < |s| ==> s[i] == s[j] || LexLess(s[i], s[j])
  {
    if s != [] {
      SortedAscends(s[1..]);
      forall j | 0 < j < |s| ensures s[0] == s[j] || LexLess(s[0], s[j]) {
        assert s[1..][j - 1] == s[j];
        LexLessTotal(s[0], s[1]);
        if j > 1 && s[1] != s[j] && s[0] != s[1] {
          assert s[1..][0] == s[1];
          LexLessTransitive(s[0], s[1], s[j]);
        }
      }
      forall i, j | 0 < i < j < |s| ensures s[i] == s[j] || LexLess(s[i], s[j]) {
        assert s[1..][i - 1] == s[i] && s[1..][j - 1] == s[j];
      }
    }
  }

  /** `pickups ? Object.keys(pickups).sort() : []`. */
  function SortedDates(pickups: Option<PickupResponse>): (r: seq<string>)
    ensures pickups.None? ==> r == []
    ensures pickups.Some? ==> Sorted(r) && multiset(r) == multiset(Keys(pickups.value))
  {
    if pickups.None? then [] else Sort(Keys(pickups.value))
  }

  /** The listed dates are exactly the response's keys, and when the keys are
      distinct, as the keys of a JSON object are, each comes once and they
      strictly ascend. */
  lemma SortedDatesAreKeys(resp: PickupResponse)
    ensures forall d :: d in SortedDates(Some(resp)) <==> d in Keys(resp)
    ensures |SortedDates(Some(resp))| == |resp|
    ensures (forall i, j :: 0 <= i < j < |resp| ==> resp[i].0 != resp[j].0) ==>
              forall i, j :: 0 <= i < j < |resp| ==>
                LexLess(SortedDates(Some(resp))[i], SortedDates(Some(resp))[j])
  {
    var r := SortedDates(Some(resp));
    var k := Keys(resp);
    forall d ensures d in r <==> d in k {
      assert d in r <==> d in multiset(r);
      assert d in k <==> d in multiset(k);
    }
    assert |r| == |multiset(r)| == |multiset(k)| == |k|;
    if forall i, j :: 0 <= i < j < |resp| ==> resp[i].0 != resp[j].0 {
      SortedAscends(r);
      forall i, j | 0 <= i < j < |resp| ensures LexLess(r[i], r[j]) {
        if r[i] == r[j] {
          RepeatCount(r, i, j);
          DistinctCount(k, r[i]);
        }
      }
    }
  }

  /** A list without repeats holds each value at most once. */
  lemma {:induction false} DistinctCount(k: seq<string>, x: string)
    requires forall a, b :: 0 <= a < b < |k| ==> k[a] != k[b]
    ensures multiset(k)[x] <= 1
  {
    if k != [] {
      DistinctCount(k[1..], x);
      assert k == [k[0]] + k[1..];
      if k[0] == x {
        assert x !in k[1..];
      }
    }
  }

  /** A value found at two places of a list is counted at least twice. */
  lemma RepeatCount(r: seq<string>, i: int, j: int)
    requires 0 <= i < j < |r| && r[i] == r[j]
    ensures multiset(r)[r[i]] >= 2
  {
    var x := r[i];
    assert r == r[..i] + [x] + r[i + 1..j] + [x] + r[j + 1..];
  }

  // =========================================================== earliest end

  /** `parseInt(timefrom.split(':')[0]) + interval`: the hour of `timefrom`
      plus the slot's interval; `None` where the page would show `NaN`. */
  function EarliestEndHour(slot: PickupSlot): Option<int> {
    var hour := ParseInt(Split(slot.timefrom, ':')[0]);
    if hour.Some? then Some(hour.value + slot.interval) else None
  }

  /** The earliest end reads only the text before the first colon of
      `timefrom` (all of it when there is none): `parseInt` of that text plus
      the interval, or NaN when `parseInt` gives NaN. */
  lemma EarliestEndBeforeColon(before: string, after: Option<string>, timeto: string, interval: int)
    requires ':' !in before
    ensures var timefrom := if after.Some? then before + ":" + after.value else before;
            var hour := ParseInt(before);
            EarliestEndHour(PickupSlot(timefrom, timeto, interval))
              == (if hour.Some? then Some(hour.value + interval) else None)
  {
    if after.Some? {
      assert before + ":" + after.value == before + [':'] + after.value;
      SplitFirstPiece(before, ':', after.value);
    } else {
      SplitAtFirst(before, ':');
    }
  }

  /** For a start time written as digits, a colon and anything, the earliest
      end is the value of those digits plus the interval. */
  lemma {:induction false} EarliestEndOfClock(hour: string, minutes: string, timeto: string, interval: int)
    requires hour != [] && forall i :: 0 <= i < |hour| ==> IsDigit(hour[i])
    ensures EarliestEndHour(PickupSlot(hour + ":" + minutes, timeto, interval)) ==
            Some(DigitsValue(hour) + interval)
  {
    var slot := PickupSlot(hour + ":" + minutes, timeto, interval);
    HourPiece(hour, minutes);
    assert Split(slot.timefrom, ':')[0] == hour;
    HourValue(hour);
    assert ParseInt(Split(slot.timefrom, ':')[0]) == Some(DigitsValue(hour));
  }

  lemma {:induction false} HourValue(hour: string)
    requires hour != [] && forall i :: 0 <= i < |hour| ==> IsDigit(hour[i])
    ensures ParseInt(hour) == Some(DigitsValue(hour))
  {
    assert hour + "" == hour;
    DigitsNotHexPrefixed(hour);
    ParseIntDigits(hour, "");
  }

  /** The text before the colon of digits, a colon and anything is the digits. */
  lemma {:induction false} HourPiece(hour: string, minutes: string)
    requires forall i :: 0 <= i < |hour| ==> IsDigit(hour[i])
    ensures Split(hour + ":" + minutes, ':')[0] == hour
  {
    assert ':' !in hour by {
      assert !IsDigit(':');
    }
    assert hour + ":" + minutes == hour + [':'] + minutes;
    SplitFirstPiece(hour, ':', minutes);
  }

  /** A start time that does not begin with a number gives `NaN`. */
  lemma EarliestEndNaN(slot: PickupSlot)
    requires slot.timefrom != [] && slot.timefrom[0] == ':'
    ensures EarliestEndHour(slot).None?
  {
    SplitFirstPiece("", ':', slot.timefrom[1..]);
    assert "" + [':'] + slot.timefrom[1..] == slot.timefrom;
  }

  // ================================================================== view

  /** The details box of the selected date. */
  datatype Details = Details(date: string, slot: PickupSlot, earliestEnd: Option<int>)

  /** What the dialog draws. */
  datatype Screen =
    | Nothing
    | Dialog(spinner: bool, error: Option<string>, noDatesNotice: bool, dates: seq<string>,
             details: Option<Details>)

  /** The render: nothing when closed; otherwise the spinner while loading,
      the error, the notice when there is nothing to list, the sorted dates
      once loaded, and the details of the selected date. */
  function Render(isOpen: bool, loading: bool, error: Option<string>, pickups: Option<PickupResponse>,
                  selectedDate: Option<string>): (s: Screen)
    ensures !isOpen <==> s == Nothing
    ensures isOpen ==> s.spinner == loading && s.error == error
    ensures isOpen ==> (s.noDatesNotice <==> !loading && error.None? && SortedDates(pickups) == [])
    ensures isOpen && !loading ==> forall d :: d in s.dates <==> pickups.Some? && d in Keys(pickups.value)
    ensures isOpen && !loading ==> Sorted(s.dates)
    ensures isOpen && loading ==> s.dates == []
    ensures isOpen && s.details.Some? ==>
              var d := s.details.value;
              selectedDate == Some(d.date) && d.date != ""
              && pickups.Some? && Lookup(pickups.value, d.date) == Some(d.slot)
              && d.earliestEnd == EarliestEndHour(d.slot)
    ensures isOpen && selectedDate.Some? && selectedDate.value != ""
            && pickups.Some? && selectedDate.value in Keys(pickups.value) ==>
              s.details.Some?
    ensures isOpen && selectedDate == Some("") ==> s.details.None?
  {
    if !isOpen then Nothing
    else
      var dates := SortedDates(pickups);
      assert pickups.Some? ==> forall d :: d in dates <==> d in Keys(pickups.value) by {
        if pickups.Some? { SortedDatesAreKeys(pickups.value); }
      }
      var details :=
        if selectedDate.Some? && selectedDate.value != "" && pickups.Some?
           && Lookup(pickups.value, selectedDate.value).Some?
        then
          var slot := Lookup(pickups.value, selectedDate.value).value;
          Some(Details(selectedDate.value, slot, EarliestEndHour(slot)))
        else None;
      Dialog(loading, error, !loading && error.None? && dates == [], if loading then [] else dates, details)
  }

  /** Once a listed date is selected, the details box shows that date's slot;
      a listed empty key is a falsy selection and shows no details. */
  lemma SelectedDateDetailed(loading: bool, error: Option<string>, pickups: Option<PickupResponse>, date: string)
    requires date in Render(true, loading, error, pickups, None).dates
    ensures var s := Render(true, loading, error, pickups, Some(date));
            (date != "" ==>
               s.details.Some? && s.details.value.date == date
               && s.details.value.slot == Lookup(pickups.value, date).value)
            && (date == "" ==> s.details.None?)
  {
    assert !loading;
  }

  // ================================================================ dialog

  class PickupAvailabilityModel {
    var isOpen: bool
    var courier: string
    var zipCode: string
    var pickups: Option<PickupResponse>
    var loading: bool
    var error: Option<string>
    var selectedDate: Option<string>
    /** The courier and postal code of each `getAvailablePickups` call. */
    var fetches: seq<(string, string)>
    /** How many of those calls have settled; they may settle in any order,
        and an earlier call may still be pending when a later one starts. */
    var settled: nat

    /** Only an open dialog with a courier and a postal code ever fetches; no
        more calls settle than were made, and while loading the latest one
        is still pending. */
    predicate Valid()
      reads this
    {
      (forall f <- fetches :: f.0 != "" && f.1 != "")
      && settled <= |fetches|
      && (loading ==> settled < |fetches|)
    }

    function View(): Screen
      reads this
    {
      Render(isOpen, loading, error, pickups, selectedDate)
    }

    /** The first render: the effect fetches when the dialog is open with a
        courier and a postal code. */
    constructor(isOpen: bool, courier: string, zipCode: string)
      ensures Valid()
      ensures this.isOpen == isOpen && this.courier == courier && this.zipCode == zipCode
      ensures pickups == None && error == None && selectedDate == None && settled == 0
      ensures isOpen && courier != "" && zipCode != "" ==> loading && fetches == [(courier, zipCode)]
      ensures !(isOpen && courier != "" && zipCode != "") ==> !loading && fetches == []
    {
      this.isOpen := isOpen;
      this.courier := courier;
      this.zipCode := zipCode;
      pickups := None;
      loading := false;
      error := None;
      selectedDate := None;
      fetches := [];
      settled := 0;
      new;
      if isOpen && courier != "" && zipCode != "" {
        FetchPickups();
      }
    }

    /** `fetchPickups` up to its `await`. */
    method FetchPickups()
      requires courier != "" && zipCode != ""
      requires Valid()
      modifies this
      ensures Valid()
      ensures loading && error == None && fetches == old(fetches) + [(courier, zipCode)]
      ensures pickups == old(pickups) && selectedDate == old(selectedDate) && settled == old(settled)
      ensures isOpen == old(isOpen) && courier == old(courier) && zipCode == old(zipCode)
    {
      loading := true;
      error := None;
      fetches := fetches + [(courier, zipCode)];
    }

    /** New props. When `isOpen`, `courier` or `zipCode` changed, the previous
        effect's cleanup clears the dates, the error and the selection, and the
        effect fetches again if the dialog is open with both values. */
    method SetProps(open: bool, newCourier: string, newZipCode: string)
      requires Valid()
      modifies this
      ensures Valid()
      ensures isOpen == open && courier == newCourier && zipCode == newZipCode && settled == old(settled)
      ensures (open, newCourier, newZipCode) == old((isOpen, courier, zipCode)) ==>
                pickups == old(pickups) && error == old(error) && selectedDate == old(selectedDate)
                && loading == old(loading) && fetches == old(fetches)
      ensures (open, newCourier, newZipCode) != old((isOpen, courier, zipCode)) ==>
                pickups == None && selectedDate == None
                && (open && newCourier != "" && newZipCode != "" ==>
                      loading && error == None && fetches == old(fetches) + [(newCourier, newZipCode)])
                && (!(open && newCourier != "" && newZipCode != "") ==>
                      error == None && loading == old(loading) && fetches == old(fetches))
    {
      if (open, newCourier, newZipCode) == (isOpen, courier, zipCode) {
        return;
      }
      pickups := None;
      error := None;
      selectedDate := None;
      isOpen := open;
      courier := newCourier;
      zipCode := newZipCode;
      if open && newCourier != "" && newZipCode != "" {
        FetchPickups();
      }
    }

    /** `fetchPickups` after one of the pending `getAvailablePickups` calls
        settled: the response is kept, or the fixed error is shown; loading
        ends either way, even while a later call is still pending. */
    method ReceivePickups(result: Outcome<PickupResponse>)
      requires Valid() && settled < |fetches|
      modifies this
      ensures Valid()
      ensures !loading && settled == old(settled) + 1
      ensures result.Resolved? ==> pickups == Some(result.value) && error == old(error)
      ensures result.Rejected? ==> pickups == old(pickups) && error == Some(FetchError)
      ensures selectedDate == old(selectedDate) && fetches == old(fetches)
      ensures isOpen == old(isOpen) && courier == old(courier) && zipCode == old(zipCode)
    {
      loading := false;
      settled := settled + 1;
      match result
      case Resolved(data) =>
        pickups := Some(data);
      case Rejected(_) =>
        error := Some(FetchError);
    }

    /** A click on a listed date: the dates are listed once the dialog is open
        and loaded (see `SelectedDateDetailed` for what is then shown). */
    method SelectDate(date: string)
      requires Valid() && isOpen && !loading && date in SortedDates(pickups)
      modifies this
      ensures Valid()
      ensures selectedDate == Some(date)
      ensures pickups == old(pickups) && error == old(error) && loading == old(loading)
      ensures fetches == old(fetches) && settled == old(settled) && isOpen == old(isOpen)
      ensures courier == old(courier) && zipCode == old(zipCode)
    {
      selectedDate := Some(date);
    }
  }
}
