/** Order finalisation and courier pickup (src/components/OrderPage.tsx): the
    address forms, the guards in front of `sendPackage`, the clean-up of the
    addresses it sends, the placeholder waybill, and the pickup request with
    its idle/loading/success/error states. */
module OrderPage {
  import opened Wrappers
  import opened Seqs
  import opened Text
  import opened Api

  /** `initialAddress`: every field empty, country "PL", not a company. */
  function InitialAddress(): AddressData {
    AddressData("", "", "", "", "", "", "", "", "", "", "PL", "", false)
  }

  // ============================================================ address form

  /** The inputs `AddressForm` renders, by their `name` attribute. It has no
      checkbox and no input for the company name, surname, country or NIP:
      those fields only change through `getSender`. */
  datatype AddressField =
    | Name | Email | Phone | Street | HouseNumber | ApartmentNumber | PostalCode | City

  function FieldOf(a: AddressData, f: AddressField): string {
    match f
    case Name => a.name
    case Email => a.email
    case Phone => a.phone
    case Street => a.street
    case HouseNumber => a.houseNumber
    case ApartmentNumber => a.apartmentNumber
    case PostalCode => a.postalCode
    case City => a.city
  }

  /** `{ ...address, [name]: value }` for one of the rendered inputs. */
  function WithField(a: AddressData, f: AddressField, value: string): (r: AddressData)
    ensures FieldOf(r, f) == value
    ensures forall g :: g != f ==> FieldOf(r, g) == FieldOf(a, g)
    ensures r.isCompany == a.isCompany && r.nip == a.nip && r.companyName == a.companyName
    ensures r.surname == a.surname && r.countryCode == a.countryCode
  {
    match f
    case Name => a.(name := value)
    case Email => a.(email := value)
    case Phone => a.(phone := value)
    case Street => a.(street := value)
    case HouseNumber => a.(houseNumber := value)
    case ApartmentNumber => a.(apartmentNumber := value)
    case PostalCode => a.(postalCode := value)
    case City => a.(city := value)
  }

  /** The default sender `getSender` returns, laid over the form: the nested
      city is flattened, the formatted postal code preferred, the country set to
      "PL" and a missing NIP read as "". */
  function SenderFromProfile(prev: AddressData, data: SenderProfile): (r: AddressData)
    ensures r.houseNumber == data.houseNr && r.apartmentNumber == data.placeNr
    ensures r.city == data.city.cityName
    ensures r.postalCode == Or(data.city.formatStringZipCode, data.city.stringZipCode)
    ensures r.countryCode == "PL" && r.nip == data.nip && r.isCompany == data.isCompany
    ensures r.name == data.name && r.surname == data.surname && r.companyName == data.companyName
    ensures r.email == data.email && r.phone == data.phone && r.street == data.street
  {
    prev.(
      name := data.name,
      surname := data.surname,
      companyName := data.companyName,
      email := data.email,
      phone := data.phone,
      street := data.street,
      houseNumber := data.houseNr,
      apartmentNumber := data.placeNr,
      city := data.city.cityName,
      postalCode := Or(data.city.formatStringZipCode, data.city.stringZipCode),
      countryCode := "PL",
      isCompany := data.isCompany,
      nip := Or(data.nip, ""))
  }

  // ====================================================== prepareAddressData

  /** The name rule of `prepareAddressData`: the trimmed name split at spaces,
      the first part the first name and the rest, joined by spaces, the
      surname, or "-" when there is no rest. */
  function SplitName(name: string): (r: (string, string))
    ensures ' ' !in r.0 && r.1 != ""
  {
    var nameParts := Split(Trim(name), ' ');
    (nameParts[0], Or(Join(nameParts[1..], ' '), "-"))
  }

  /** The first name is the trimmed name up to its first space and the surname
      is everything after it; a name without a space has surname "-". */
  lemma SplitNameRejoins(name: string)
    ensures var t := Trim(name);
            var (first, last) := SplitName(name);
            (' ' in t ==> t == first + " " + last)
            && (' ' !in t ==> first == t && last == "-")
  {
    var t := Trim(name);
    var nameParts := Split(t, ' ');
    SplitAtFirst(t, ' ');
    assert ' ' in t ==> Join(nameParts[1..], ' ') != "";
  }

  /** `prepareAddressData(data)`: the name split by `SplitName`, the postal
      code reduced to its digits, an empty house number replaced by "1";
      every other field as it was. */
  function PrepareAddressData(data: AddressData): (r: AddressData)
    ensures (r.name, r.surname) == SplitName(data.name)
    ensures r.postalCode == DigitsOnly(data.postalCode)
    ensures r.houseNumber == (if data.houseNumber == "" then "1" else data.houseNumber)
    ensures r.(name := data.name, surname := data.surname, postalCode := data.postalCode,
               houseNumber := data.houseNumber) == data
  {
    var (firstName, lastName) := SplitName(data.name);
    data.(
      name := firstName,
      surname := lastName,
      postalCode := DigitsOnly(data.postalCode),
      houseNumber := Or(data.houseNumber, "1"))
  }

  /** Preparing twice is preparing once for the postal code and the house
      number: both rules are idempotent. */
  lemma PrepareAddressPostalIdempotent(data: AddressData)
    ensures PrepareAddressData(PrepareAddressData(data)).postalCode == PrepareAddressData(data).postalCode
    ensures PrepareAddressData(PrepareAddressData(data)).houseNumber == PrepareAddressData(data).houseNumber
  {
    var d := DigitsOnly(data.postalCode);
    FilterAllPass(IsDigit, d);
  }

  // ========================================================= order guards

  /** Why `handleOrderSubmit` refused to send, with the alert it showed. */
  datatype BlockReason = MissingAddress | MissingNip | MissingPricing

  function AlertText(b: BlockReason): string {
    match b
    case MissingAddress => "Proszę uzupełnić dane adresowe!"
    case MissingNip => "Dla kont firmowych numer NIP jest wymagany!"
    case MissingPricing => "Błąd oferty: Brak ID wyceny."
  }

  /** A pricing id is truthy unless it is null or 0. */
  predicate PricingTruthy(p: Option<int>) {
    p.Some? && p.value != 0
  }

  predicate AddressesFilled(sender: AddressData, receiver: AddressData) {
    sender.name != "" && sender.email != "" && receiver.name != "" && receiver.city != ""
  }

  /** The three checks of `handleOrderSubmit`, in order. */
  function OrderGuard(sender: AddressData, receiver: AddressData, pricingId: Option<int>): (r: Option<BlockReason>)
    ensures r == None <==>
              AddressesFilled(sender, receiver) && !(sender.isCompany && sender.nip == "")
              && PricingTruthy(pricingId)
    ensures r == Some(MissingAddress) <==> !AddressesFilled(sender, receiver)
    ensures r == Some(MissingNip) <==>
              AddressesFilled(sender, receiver) && sender.isCompany && sender.nip == ""
  {
    if !AddressesFilled(sender, receiver) then Some(MissingAddress)
    else if sender.isCompany && sender.nip == "" then Some(MissingNip)
    else if !PricingTruthy(pricingId) then Some(MissingPricing)
    else None
  }

  /** The receiver's company flag and NIP are never checked. */
  lemma ReceiverCompanyIgnored(sender: AddressData, receiver: AddressData, pricingId: Option<int>,
                               isCompany: bool, nip: string)
    ensures OrderGuard(sender, receiver.(isCompany := isCompany, nip := nip), pricingId)
            == OrderGuard(sender, receiver, pricingId)
  {
  }

  /** A pricing id of 0 blocks the order like a missing one. */
  lemma ZeroPricingBlocks(sender: AddressData, receiver: AddressData)
    ensures OrderGuard(sender, receiver, Some(0)) == OrderGuard(sender, receiver, None)
    ensures OrderGuard(sender, receiver, Some(0)).Some?
  {
  }

  /** The sender form after typing `edits` into it, in order. */
  function ApplyEdits(a: AddressData, edits: seq<(AddressField, string)>): (r: AddressData)
    decreases |edits|
  {
    if edits == [] then a
    else ApplyEdits(WithField(a, edits[0].0, edits[0].1), edits[1..])
  }

  /** A company profile from `getSender` without a NIP can never be sent: no
      rendered input reaches the company flag or the NIP, so whatever is typed
      afterwards the check refuses the order. */
  lemma {:induction false} CompanyWithoutNipStaysBlocked(sender: AddressData, receiver: AddressData,
                                                         pricingId: Option<int>,
                                                         edits: seq<(AddressField, string)>)
    requires sender.isCompany && sender.nip == ""
    ensures var s := ApplyEdits(sender, edits);
            s.isCompany && s.nip == "" && OrderGuard(s, receiver, pricingId).Some?
    decreases |edits|
  {
    if edits != [] {
      CompanyWithoutNipStaysBlocked(WithField(sender, edits[0].0, edits[0].1), receiver, pricingId, edits[1..]);
    }
  }

  /** The body of `sendPackage`: the offer's pricing id and courier, the
      packages, and both addresses after `prepareAddressData`. */
  function OrderRequest(offer: CourierOffer, packages: seq<EstimatePackageItem>,
                        sender: AddressData, receiver: AddressData): (r: SendRequest)
    requires PricingTruthy(offer.pricingId)
    ensures r.pricingId != 0
  {
    SendRequest(offer.pricingId.value, offer.courier, packages,
                PrepareAddressData(sender), PrepareAddressData(receiver))
  }

  /** The two address forms as they stood when an order was sent. */
  datatype OrderForm = OrderForm(sender: AddressData, receiver: AddressData)

  /** What reaches `sendPackage` from forms that passed the checks: a non-zero
      pricing id, a first name without spaces and a non-empty surname, a
      postal code of digits only and a non-empty house number, for both
      addresses, and a NIP for a company sender. */
  lemma SentRequestWellFormed(offer: CourierOffer, packages: seq<EstimatePackageItem>, form: OrderForm)
    requires OrderGuard(form.sender, form.receiver, offer.pricingId) == None
    ensures var r := OrderRequest(offer, packages, form.sender, form.receiver);
            r.pricingId != 0 && r.courier == offer.courier && r.packages == packages
            && (forall a <- [r.sender, r.receiver] ::
                  ' ' !in a.name && a.surname != "" && a.houseNumber != ""
                  && (forall i :: 0 <= i < |a.postalCode| ==> IsDigit(a.postalCode[i])))
            && (r.sender.isCompany ==> r.sender.nip != "")
  {
    var r := OrderRequest(offer, packages, form.sender, form.receiver);
    PreparedAddressShape(form.sender);
    PreparedAddressShape(form.receiver);
    assert r.sender == PrepareAddressData(form.sender);
    assert r.receiver == PrepareAddressData(form.receiver);
  }

  /** Any address after `prepareAddressData`: a first name without spaces, a
      non-empty surname and house number, a postal code of digits only. */
  lemma PreparedAddressShape(data: AddressData)
    ensures var a := PrepareAddressData(data);
            ' ' !in a.name && a.surname != "" && a.houseNumber != ""
            && (forall i :: 0 <= i < |a.postalCode| ==> IsDigit(a.postalCode[i]))
  {
  }

  // ===================================================== placeholder waybill

  const TestPrefix := "TEST-"

  /** The waybill kept after a successful send: the response's one if it is
      truthy, otherwise `TEST-` and `Math.floor(Math.random() * 10000)`, drawn
      here as `draw`. */
  function FinalWaybill(response: Option<string>, draw: int): (w: string)
    requires 0 <= draw < 10000
    ensures response.Some? && response.value != "" ==> w == response.value
    ensures !(response.Some? && response.value != "") ==>
              StartsWith(w, TestPrefix) && 6 <= |w| <= 9
              && (forall i :: 5 <= i < |w| ==> IsDigit(w[i]))
    ensures w != ""
  {
    if response.Some? && response.value != "" then response.value
    else
      DecimalStringLength(draw, 4);
      assert Pow10(4) == 10000;
      TestPrefix + DecimalString(draw)
  }

  /** The number in a placeholder waybill is the drawn one. */
  lemma PlaceholderNumber(draw: int)
    requires 0 <= draw < 10000
    ensures var w := FinalWaybill(None, draw);
            ParseInt(w[|TestPrefix|..]) == Some(draw)
  {
    var d := DecimalString(draw);
    assert FinalWaybill(None, draw)[|TestPrefix|..] == d;
    DecimalStringRoundTrip(draw);
    assert d + "" == d;
    DigitsNotHexPrefixed(d);
    ParseIntDigits(d, "");
    assert d + "" == d;
  }

  // ============================================================ pickup form

  const PickupOrderError := "Godzina 'do' musi być późniejsza niż 'od'."
  const PickupCallError := "Błąd podczas zamawiania podjazdu."

  /** `${date} ${time}` */
  function PickupMoment(date: string, time: string): string {
    date + " " + time
  }

  /** The window check compares the two moments as strings; with the same date
      in front, that is the comparison of the two times. */
  lemma PickupWindowByTimes(date: string, from: string, to: string)
    ensures LexLess(PickupMoment(date, from), PickupMoment(date, to)) <==> LexLess(from, to)
  {
    assert PickupMoment(date, from) == (date + " ") + from;
    assert PickupMoment(date, to) == (date + " ") + to;
    LexLessCommonPrefix(date + " ", from, to);
  }

  /** The message of a failed pickup call: the server's message, else the
      error's own message, else the fixed text. */
  function PickupFailureMessage(e: CallError): (m: string)
    ensures m != ""
    ensures ServerMessage(e) != "" ==> m == ServerMessage(e)
    ensures ServerMessage(e) == "" && e.message != "" ==> m == e.message
    ensures ServerMessage(e) == "" && e.message == "" ==> m == PickupCallError
  {
    Or(ServerMessage(e), Or(e.message, PickupCallError))
  }

  /** The "check when the courier comes" link shows for a sender postal code
      with exactly five digits, whatever else it contains. */
  predicate ShowAvailabilityLink(postalCode: string) {
    |DigitsOnly(postalCode)| == 5
  }

  lemma AvailabilityLinkIgnoresSeparators(postalCode: string)
    ensures ShowAvailabilityLink(RemoveChar(postalCode, '-')) == ShowAvailabilityLink(postalCode)
  {
    DigitsOfRemoveChar(postalCode, '-');
  }

  lemma {:induction false} DigitsOfRemoveChar(s: string, x: char)
    requires !IsDigit(x)
    ensures DigitsOnly(RemoveChar(s, x)) == DigitsOnly(s)
  {
    if s != [] {
      var rest := RemoveChar(s[1..], x);
      var head: string := if s[0] == x then [] else [s[0]];
      assert DigitsOnly(head) == DigitsOnly([s[0]]) by {
        assert [s[0]][1..] == [];
      }
      calc {
        DigitsOnly(RemoveChar(s, x));
      == { RemoveCharCons(s, x); }
        DigitsOnly(head + rest);
      == { FilterAppend(IsDigit, head, rest); }
        DigitsOnly(head) + DigitsOnly(rest);
      == { DigitsOfRemoveChar(s[1..], x); }
        DigitsOnly([s[0]]) + DigitsOnly(s[1..]);
      == { FilterAppend(IsDigit, [s[0]], s[1..]); assert [s[0]] + s[1..] == s; }
        DigitsOnly(s);
      }
    }
  }

  // ==================================================================== page

  datatype OrderStatus = OrderIdle | OrderSuccess | OrderError
  datatype PickupStatus = PickupIdle | PickupLoading | PickupSuccess | PickupError

  class OrderPageModel {
    /** The offer and packages the quote step passed in the route state. */
    const offer: CourierOffer
    const packages: seq<EstimatePackageItem>

    var sender: AddressData
    var receiver: AddressData
    var isSubmitting: bool
    var orderStatus: OrderStatus
    var createdWaybillId: Option<string>
    var isPickupModalOpen: bool
    var pickupDate: string
    var pickupTimeFrom: string
    var pickupTimeTo: string
    var pickupStatus: PickupStatus
    var pickupErrorMsg: string
    /** The address forms at each `sendPackage` call, oldest first; the body of
        call `i` is `OrderRequest(offer, packages, sentOrders[i].sender,
        sentOrders[i].receiver)`. */
    var sentOrders: seq<OrderForm>
    /** The `orderPickup` calls made, oldest first. */
    var pickupCalls: seq<PickupRequest>
    /** The alerts shown, oldest first. */
    var alerts: seq<string>

    /** What every reachable state satisfies: an order is only sent from forms
        that pass every check of `OrderGuard`; a pickup
        is only requested for a waybill and a window whose start is before its
        end; a successful order has a non-empty waybill and nothing in flight;
        the pickup form, and so its status, only moves once the order
        succeeded. */
    predicate Valid()
      reads this
    {
      (forall o <- sentOrders :: OrderGuard(o.sender, o.receiver, offer.pricingId) == None)
      && (forall c <- pickupCalls :: c.waybill != "" && LexLess(c.from, c.to))
      && (orderStatus == OrderSuccess ==> createdWaybillId.Some? && createdWaybillId.value != "" && !isSubmitting)
      && (pickupStatus != PickupIdle ==> orderStatus == OrderSuccess)
      && (pickupStatus == PickupLoading ==> createdWaybillId.Some? && createdWaybillId.value != "")
    }

    constructor(offer: CourierOffer, packages: seq<EstimatePackageItem>)
      ensures this.offer == offer && this.packages == packages
      ensures sender == InitialAddress() && receiver == InitialAddress()
      ensures !isSubmitting && orderStatus == OrderIdle && createdWaybillId == None
      ensures pickupStatus == PickupIdle && pickupErrorMsg == "" && !isPickupModalOpen
      ensures pickupDate == "" && pickupTimeFrom == "" && pickupTimeTo == ""
      ensures sentOrders == [] && pickupCalls == [] && alerts == []
      ensures Valid()
    {
      this.offer := offer;
      this.packages := packages;
      sender := InitialAddress();
      receiver := InitialAddress();
      isSubmitting := false;
      orderStatus := OrderIdle;
      createdWaybillId := None;
      isPickupModalOpen := false;
      pickupDate := "";
      pickupTimeFrom := "";
      pickupTimeTo := "";
      pickupStatus := PickupIdle;
      pickupErrorMsg := "";
      sentOrders := [];
      pickupCalls := [];
      alerts := [];
    }

    /** The two address forms are as they were. */
    twostate predicate FormsKept()
      reads this
    {
      sender == old(sender) && receiver == old(receiver)
    }

    /** The order send state is as it was. */
    twostate predicate OrderKept()
      reads this
    {
      isSubmitting == old(isSubmitting) && orderStatus == old(orderStatus)
      && createdWaybillId == old(createdWaybillId) && sentOrders == old(sentOrders)
    }

    /** The pickup inputs are as they were. */
    twostate predicate PickupInputsKept()
      reads this
    {
      pickupDate == old(pickupDate) && pickupTimeFrom == old(pickupTimeFrom)
      && pickupTimeTo == old(pickupTimeTo)
    }

    /** The pickup request state is as it was. */
    twostate predicate PickupRequestKept()
      reads this
    {
      pickupStatus == old(pickupStatus) && pickupErrorMsg == old(pickupErrorMsg)
      && pickupCalls == old(pickupCalls)
    }

    /** The mount effect once `getSender` settled: a profile fills the sender
        form; a failure leaves it as it was. Nothing else changes. */
    method LoadDefaultSender(result: Outcome<SenderProfile>)
      requires Valid()
      modifies this
      ensures Valid()
      ensures result.Resolved? ==> sender == SenderFromProfile(old(sender), result.value)
      ensures result.Rejected? ==> sender == old(sender)
      ensures receiver == old(receiver) && OrderKept() && PickupInputsKept() && PickupRequestKept()
      ensures isPickupModalOpen == old(isPickupModalOpen) && alerts == old(alerts)
    {
      if result.Resolved? {
        sender := SenderFromProfile(sender, result.value);
      }
    }

    /** `handleSenderChange` for one of the rendered inputs; the form is
        drawn until the order succeeds. */
    method EditSender(f: AddressField, value: string)
      requires Valid() && orderStatus != OrderSuccess
      modifies this
      ensures Valid()
      ensures sender == WithField(old(sender), f, value) && receiver == old(receiver)
      ensures OrderKept() && PickupInputsKept() && PickupRequestKept()
      ensures isPickupModalOpen == old(isPickupModalOpen) && alerts == old(alerts)
    {
      sender := WithField(sender, f, value);
    }

    /** `handleReceiverChange` for one of the rendered inputs; the form is
        drawn until the order succeeds. */
    method EditReceiver(f: AddressField, value: string)
      requires Valid() && orderStatus != OrderSuccess
      modifies this
      ensures Valid()
      ensures receiver == WithField(old(receiver), f, value) && sender == old(sender)
      ensures OrderKept() && PickupInputsKept() && PickupRequestKept()
      ensures isPickupModalOpen == old(isPickupModalOpen) && alerts == old(alerts)
    {
      receiver := WithField(receiver, f, value);
    }

    /** `handleOrderSubmit` up to its `await`: the button is disabled while a
        send is in flight and gone once the order succeeded; a failed check
        shows its alert and changes nothing else; otherwise the prepared
        addresses are sent. */
    method SubmitOrder() returns (blocked: Option<BlockReason>)
      requires Valid() && orderStatus != OrderSuccess
      modifies this
      ensures Valid()
      ensures old(isSubmitting) ==> blocked == None && OrderKept() && alerts == old(alerts)
      ensures !old(isSubmitting) ==> blocked == OrderGuard(old(sender), old(receiver), offer.pricingId)
      ensures !old(isSubmitting) && blocked.Some? ==>
                alerts == old(alerts) + [AlertText(blocked.value)] && OrderKept()
      ensures !old(isSubmitting) && blocked.None? ==>
                isSubmitting && orderStatus == OrderIdle && alerts == old(alerts)
                && sentOrders == old(sentOrders) + [OrderForm(old(sender), old(receiver))]
      ensures FormsKept() && createdWaybillId == old(createdWaybillId)
      ensures PickupInputsKept() && PickupRequestKept() && isPickupModalOpen == old(isPickupModalOpen)
    {
      blocked := None;
      if isSubmitting {
        return;
      }
      blocked := OrderGuard(sender, receiver, offer.pricingId);
      if blocked.Some? {
        alerts := alerts + [AlertText(blocked.value)];
        return;
      }
      isSubmitting := true;
      orderStatus := OrderIdle;
      sentOrders := sentOrders + [OrderForm(sender, receiver)];
    }

    /** `handleOrderSubmit` after `sendPackage` settled; `draw` is the random
        number for a placeholder waybill. */
    method ReceiveOrderResult(result: Outcome<SendResponse>, draw: int)
      requires Valid() && isSubmitting && 0 <= draw < 10000
      modifies this
      ensures Valid()
      ensures !isSubmitting
      ensures result.Resolved? ==>
                orderStatus == OrderSuccess
                && createdWaybillId == Some(FinalWaybill(result.value.waybill, draw))
                && alerts == old(alerts)
      ensures result.Rejected? ==>
                orderStatus == OrderError && createdWaybillId == old(createdWaybillId)
                && alerts == old(alerts) + [OrderFailureAlert(result.error)]
      ensures FormsKept() && sentOrders == old(sentOrders)
      ensures PickupInputsKept() && PickupRequestKept() && isPickupModalOpen == old(isPickupModalOpen)
    {
      isSubmitting := false;
      match result
      case Resolved(response) =>
        var finalWaybill := FinalWaybill(response.waybill, draw);
        createdWaybillId := Some(finalWaybill);
        orderStatus := OrderSuccess;
      case Rejected(e) =>
        alerts := alerts + [OrderFailureAlert(e)];
        orderStatus := OrderError;
    }

    /** The pickup inputs, drawn once the order succeeded and until the
        pickup does; they are disabled while a request is in flight. */
    method EditPickup(date: string, timeFrom: string, timeTo: string)
      requires Valid() && orderStatus == OrderSuccess && pickupStatus != PickupSuccess
      modifies this
      ensures Valid()
      ensures old(pickupStatus) == PickupLoading ==> PickupInputsKept()
      ensures old(pickupStatus) != PickupLoading ==>
                pickupDate == date && pickupTimeFrom == timeFrom && pickupTimeTo == timeTo
      ensures FormsKept() && OrderKept() && PickupRequestKept()
      ensures isPickupModalOpen == old(isPickupModalOpen) && alerts == old(alerts)
    {
      if pickupStatus != PickupLoading {
        pickupDate, pickupTimeFrom, pickupTimeTo := date, timeFrom, timeTo;
      }
    }

    /** `handlePickupSubmit` up to its `await`. The form is shown once the order
        succeeded and until the pickup does; its inputs are `required`, so the
        browser submits only when all three are filled, and its button is
        disabled while loading. A window whose start is not before its end is
        refused before any call. */
    method SubmitPickup()
      requires Valid() && orderStatus == OrderSuccess
      requires pickupStatus != PickupSuccess && pickupStatus != PickupLoading
      modifies this
      ensures Valid()
      ensures var from := PickupMoment(old(pickupDate), old(pickupTimeFrom));
              var to := PickupMoment(old(pickupDate), old(pickupTimeTo));
              var submits := old(pickupDate) != "" && old(pickupTimeFrom) != "" && old(pickupTimeTo) != "";
              (!submits ==> PickupRequestKept())
              && (submits ==>
                    (!LexLess(from, to) ==>
                       pickupStatus == PickupError && pickupErrorMsg == PickupOrderError
                       && pickupCalls == old(pickupCalls))
                    && (LexLess(from, to) ==>
                          pickupStatus == PickupLoading && pickupErrorMsg == ""
                          && pickupCalls == old(pickupCalls)
                                            + [PickupRequest(old(createdWaybillId).value, from, to)]))
      ensures FormsKept() && OrderKept() && PickupInputsKept()
      ensures isPickupModalOpen == old(isPickupModalOpen) && alerts == old(alerts)
    {
      if pickupDate == "" || pickupTimeFrom == "" || pickupTimeTo == "" {
        return;
      }
      var formattedFrom := PickupMoment(pickupDate, pickupTimeFrom);
      var formattedTo := PickupMoment(pickupDate, pickupTimeTo);
      if !LexLess(formattedFrom, formattedTo) {
        pickupErrorMsg := PickupOrderError;
        pickupStatus := PickupError;
        return;
      }
      pickupStatus := PickupLoading;
      pickupErrorMsg := "";
      pickupCalls := pickupCalls + [PickupRequest(createdWaybillId.value, formattedFrom, formattedTo)];
    }

    /** `handlePickupSubmit` after `orderPickup` settled. A rejection of a
        placeholder `TEST-` waybill counts as success (the 500 ms timer is
        immediate here); any other rejection shows its message. */
    method ReceivePickupResult(result: Outcome<()>)
      requires Valid() && pickupStatus == PickupLoading
      modifies this
      ensures Valid()
      ensures result.Resolved? ==> pickupStatus == PickupSuccess && pickupErrorMsg == old(pickupErrorMsg)
      ensures result.Rejected? && StartsWith(old(createdWaybillId).value, TestPrefix) ==>
                pickupStatus == PickupSuccess && pickupErrorMsg == old(pickupErrorMsg)
      ensures result.Rejected? && !StartsWith(old(createdWaybillId).value, TestPrefix) ==>
                pickupStatus == PickupError && pickupErrorMsg == PickupFailureMessage(result.error)
      ensures pickupCalls == old(pickupCalls)
      ensures FormsKept() && OrderKept() && PickupInputsKept()
      ensures isPickupModalOpen == old(isPickupModalOpen) && alerts == old(alerts)
    {
      match result
      case Resolved(_) =>
        pickupStatus := PickupSuccess;
      case Rejected(e) =>
        if StartsWith(createdWaybillId.value, TestPrefix) {
          pickupStatus := PickupSuccess;
        } else {
          pickupErrorMsg := PickupFailureMessage(e);
          pickupStatus := PickupError;
        }
    }

    /** The availability link of the order form, shown only for a five-digit
        sender postal code. */
    method OpenAvailability()
      requires Valid() && orderStatus != OrderSuccess
      modifies this
      ensures Valid()
      ensures isPickupModalOpen == (old(isPickupModalOpen) || ShowAvailabilityLink(sender.postalCode))
      ensures FormsKept() && OrderKept() && PickupInputsKept() && PickupRequestKept()
      ensures alerts == old(alerts)
    {
      if ShowAvailabilityLink(sender.postalCode) {
        isPickupModalOpen := true;
      }
    }

    /** The modal's `onClose`; the modal belongs to the order form. */
    method CloseAvailability()
      requires Valid() && orderStatus != OrderSuccess
      modifies this
      ensures Valid()
      ensures !isPickupModalOpen
      ensures FormsKept() && OrderKept() && PickupInputsKept() && PickupRequestKept()
      ensures alerts == old(alerts)
    {
      isPickupModalOpen := false;
    }
  }

  /** The alert of a failed send: the status of the response, or a connection
      error when there is none. */
  function OrderFailureAlert(e: CallError): (m: string)
    ensures e.response.None? ==> m == "Wystąpił błąd połączenia."
    ensures e.response.Some? && e.response.value.status >= 0 ==>
              m == "Błąd API: " + DecimalString(e.response.value.status)
  {
    match e.response
    case None => "Wystąpił błąd połączenia."
    case Some(r) => "Błąd API: " + IntString(r.status)
  }

}
