/** The records exchanged with the logistics backend and the request bodies the
    client builds (src/api/api.ts). Only the payload construction and the login
    status test are modelled; the HTTP transport is not. */
module Api {
  import opened Wrappers
  import opened Text

  // ------------------------------------------------------------ address form

  /** The flat sender/receiver form the order page edits and submits. */
  datatype AddressData = AddressData(
    name: string,
    companyName: string,
    surname: string,
    email: string,
    phone: string,
    street: string,
    houseNumber: string,
    apartmentNumber: string,
    postalCode: string,
    city: string,
    countryCode: string,
    nip: string,
    isCompany: bool)

  // ------------------------------------------------------------ registration

  datatype RegisterFormData = RegisterFormData(
    login: string,
    email: string,
    password: string,
    name: string,
    surname: string,
    phone: string,
    street: string,
    houseNr: string,
    zipCode: string,
    cityName: string)

  datatype RegisterCity = RegisterCity(cityName: string, zipCode: string, country: string)

  datatype RegisterRequest = RegisterRequest(
    login: string,
    password: string,
    name: string,
    surname: string,
    city: RegisterCity,
    street: string,
    houseNr: string,
    placeNr: string,
    phone: string,
    email: string,
    companyName: string,
    nip: string,
    bankAccount: string)

  /** The body `registerUser` posts to /register. */
  function RegisterPayload(data: RegisterFormData): (r: RegisterRequest)
    ensures r.city.zipCode == RemoveChar(data.zipCode, '-')
    ensures r.login == data.login && r.password == data.password && r.email == data.email
    ensures r.name == data.name && r.surname == data.surname && r.phone == data.phone
    ensures r.street == data.street && r.houseNr == data.houseNr && r.city.cityName == data.cityName
    ensures r.placeNr == "1" && r.city.country == "Polska"
    ensures r.companyName == "Klient Indywidualny" && r.nip == "" && r.bankAccount == ""
  {
    var cleanZip := RemoveChar(data.zipCode, '-');
    RegisterRequest(
      login := data.login,
      password := data.password,
      name := data.name,
      surname := data.surname,
      city := RegisterCity(cityName := data.cityName, zipCode := cleanZip, country := "Polska"),
      street := data.street,
      houseNr := data.houseNr,
      placeNr := "1",
      phone := data.phone,
      email := data.email,
      companyName := "Klient Indywidualny",
      nip := "",
      bankAccount := "")
  }

  /** Two forms give the same registration body exactly when they agree on every
      field except the postal code, and their postal codes agree once the
      hyphens are removed: nothing but hyphens is lost. */
  lemma RegisterPayloadInjective(a: RegisterFormData, b: RegisterFormData)
    ensures RegisterPayload(a) == RegisterPayload(b) <==>
              a.(zipCode := RemoveChar(a.zipCode, '-')) == b.(zipCode := RemoveChar(b.zipCode, '-'))
  {
  }

  /** The register body keeps every character of the postal code except the
      hyphens, where the order page keeps its digits only: a space or a letter
      typed into the postal code reaches the register request and never the
      order request. */
  lemma RegisterZipKeepsNonDigits(data: RegisterFormData, c: char)
    requires c in data.zipCode && c != '-' && !IsDigit(c)
    ensures c in RegisterPayload(data).city.zipCode
    ensures c !in DigitsOnly(data.zipCode)
  {
    var z := data.zipCode;
    assert multiset(z)[c] > 0;
    RemoveCharCount(z, '-', c);
  }

  // ------------------------------------------------------------------- login

  /** How `loginUser` settles when /login answers with `status` (`None`: no
      answer, with the transport's `message`). The client keeps axios's
      default status check, so any 2xx answer resolves and the function then
      returns whether it was exactly 200; any other status rejects with the
      response attached, whose body carries `serverMessage`. */
  function LoginCall(status: Option<int>, serverMessage: string, message: string): (r: Outcome<bool>)
    ensures r == Resolved(true) <==> status == Some(200)
    ensures r == Resolved(false) <==> status.Some? && 200 < status.value < 300
    ensures r.Rejected? <==> status.None? || !(200 <= status.value < 300)
    ensures r.Rejected? && status.Some? ==> r.error.response == Some(ErrorResponse(status.value, serverMessage))
    ensures r.Rejected? && status.None? ==> r.error.response == None
  {
    match status
    case None => Rejected(CallError(None, message))
    case Some(s) =>
      if 200 <= s < 300 then Resolved(s == 200)
      else Rejected(CallError(Some(ErrorResponse(s, serverMessage)), message))
  }

  // ---------------------------------------------------------------- estimate

  /** The four measurements the quote form supplies. */
  datatype SimpleEstimateInput = SimpleEstimateInput(weight: real, height: real, width: real, length: real)

  datatype EstimatePackageItem = EstimatePackageItem(
    id: int, width: real, height: real, length: real, weight: real, service: string)

  /** An empty JSON object `{}`. */
  datatype EmptyObject = EmptyObject

  datatype ApiEstimateRequest = ApiEstimateRequest(
    packages: seq<EstimatePackageItem>,
    sender: EmptyObject,
    receiver: EmptyObject,
    insurance: int,
    taken: int,
    receptionNotification: bool,
    givingNotification: bool,
    confirmation: bool,
    unloading: bool,
    glass: bool,
    saturday: bool,
    posteRestante: bool,
    sms: bool,
    checkPackage: bool,
    adr: bool,
    thirdPart: bool)

  /** No add-on of an estimate request is switched on. */
  predicate NoAddOns(r: ApiEstimateRequest) {
    r.insurance == 0 && r.taken == 0
    && !r.receptionNotification && !r.givingNotification && !r.confirmation
    && !r.unloading && !r.glass && !r.saturday && !r.posteRestante
    && !r.sms && !r.checkPackage && !r.adr && !r.thirdPart
  }

  /** The body `estimatePackage` posts to /courier/estimate. */
  function EstimatePayload(input: SimpleEstimateInput): (r: ApiEstimateRequest)
    ensures |r.packages| == 1
    ensures r.packages[0].id == 0 && r.packages[0].service == "STANDARD"
    ensures NoAddOns(r)
  {
    ApiEstimateRequest(
      packages := [EstimatePackageItem(
        id := 0, width := input.width, height := input.height,
        length := input.length, weight := input.weight, service := "STANDARD")],
      sender := EmptyObject,
      receiver := EmptyObject,
      insurance := 0,
      taken := 0,
      receptionNotification := false,
      givingNotification := false,
      confirmation := false,
      unloading := false,
      glass := false,
      saturday := false,
      posteRestante := false,
      sms := false,
      checkPackage := false,
      adr := false,
      thirdPart := false)
  }

  /** The measurements of the only package of an estimate body. */
  function MeasurementsOf(r: ApiEstimateRequest): SimpleEstimateInput
    requires |r.packages| >= 1
  {
    var p := r.packages[0];
    SimpleEstimateInput(weight := p.weight, height := p.height, width := p.width, length := p.length)
  }

  /** The package of the estimate body carries exactly the four input
      measurements, each in its own field: they can be read back unchanged. */
  lemma EstimatePayloadRoundTrip(input: SimpleEstimateInput)
    ensures MeasurementsOf(EstimatePayload(input)) == input
  {
  }

  // ------------------------------------------------------------------- order

  /** An offer as the quote step returns it. Prices and pricing identifiers are
      numbers that may be null. */
  datatype CourierOffer = CourierOffer(
    courier: string, price: Option<int>, currency: string, pricingId: Option<int>)

  /** The arguments the order page passes to `sendPackage`. */
  datatype SendRequest = SendRequest(
    pricingId: int,
    courier: string,
    packages: seq<EstimatePackageItem>,
    sender: AddressData,
    receiver: AddressData)

  /** The part of the `sendPackage` response the order page reads: its waybill,
      which may be null, undefined or empty. */
  datatype SendResponse = SendResponse(waybill: Option<string>)

  /** The arguments of `orderPickup(waybill, from, to)`. */
  datatype PickupRequest = PickupRequest(waybill: string, from: string, to: string)

  /** The default sender profile `getSender` returns. */
  datatype SenderCity = SenderCity(cityName: string, stringZipCode: string, formatStringZipCode: string)

  datatype SenderProfile = SenderProfile(
    name: string,
    surname: string,
    companyName: string,
    email: string,
    phone: string,
    street: string,
    houseNr: string,
    placeNr: string,
    city: SenderCity,
    isCompany: bool,
    nip: string)
}
