# migiem-clone front end: a Dafny model

This project models the decision logic of the migiem-clone parcel-shipping
web front end (React and TypeScript). The DOM, React rendering and the axios
transport are not modelled. What remains is what each screen decides:

- **Order page** (`order_page.dfy`): the address forms and the
  normalisation applied before sending. The name is split into first name
  and surname, the postal code is reduced to digits and the house number
  gets a default. It also covers the three guards that block an order, the
  `TEST-` placeholder waybill, the pickup-ordering state machine and the
  link to the pickup-availability modal.
- **Materials shop** (`materials_page.dfy`, `materials_data.dfy`): the
  catalogue, the cart keyed by product id (add, change quantity, remove,
  total in grosze), the category filter and paging, and the
  "open checkout after login" flag kept in local storage. It also covers
  the material order written to `mock_orders`.
- **Request payloads and status tests** (`api.dfy`): the body of
  `registerUser`, the body of `estimatePackage` and the success test of
  `loginUser`.
- **Address book** (`address_book.dfy`): the mapping of a saved address to
  the order form, and the case-insensitive search.
- **Order history** (`orders_history.dfy`): paging, the non-array fallback,
  the label download guards and error messages, the status badge and the
  sender/receiver display name.
- **Register, login and tracking screens** (`register_page.dfy`,
  `login_page.dfy`, `tracking_page.dfy`): required-field checks, error
  mapping and the search state machine.
- **Pickup availability modal** (`pickup_availability.dfy`): the fetch
  guard, the reset when the props change, the date list in ascending order
  and the earliest-end-hour hint.
- **Label decoding** (`file_helpers.dfy`): base64 decoding as `atob` does
  it, that is the forgiving-base64 decode of the HTML Living Standard over
  the alphabet of section 4 of RFC 4648. Then a loop copies the codes into
  the byte array of the blob.
- **Shared pieces** (`text.dfy`, `seqs.dfy`, `wrappers.dfy`, `storage.dfy`):
  the JavaScript string and array built-ins the pages rely on (`trim`,
  `split`/`join`, `replace`, `includes`, `parseInt`, `toLowerCase`,
  `slice`, `filter`, string `<`). Also the `Option`/`Outcome` wrappers and
  the browser's local storage.

Screens whose handlers mutate state are Dafny classes. Each `await` splits a
handler into two methods. The first runs up to the call and records the call
in a log field. The second receives the call's `Outcome` (resolved with a
value, or rejected with an optional HTTP status and messages). Pure
expressions of the source are functions, and their properties are lemmas.
Prices are integer grosze.

## Model

| member | source | states |
|---|---|---|
| OrderPage.WithField | ProjektyCursor/Migiem/migiem-clone/src/components/AddressForm.tsx:20-112 | Typing into one of the eight rendered address inputs (name, email, phone, street, house and apartment number, postal code, city) sets exactly that field. Every other field, the company flag, NIP, company name, surname and country are unchanged |
| OrderPage.CompanyWithoutNipStaysBlocked | ProjektyCursor/Migiem/migiem-clone/src/components/OrderPage.tsx:103-107 | A company sender without NIP stays a company without NIP after any sequence of edits through the rendered inputs, so the order guard blocks it whatever else is typed |
| OrderPage.SenderFromProfile | ProjektyCursor/Migiem/migiem-clone/src/components/OrderPage.tsx:61-98 | The sender loaded from the profile maps houseNr to houseNumber, placeNr to apartmentNumber and the city name to city. The postal code is the formatted zip, or the plain zip when the formatted one is empty. The country is "PL" and the other fields are copied |
| OrderPage.SplitName | ProjektyCursor/Migiem/migiem-clone/src/components/OrderPage.tsx:117-119 | The first name never contains a space and the surname is never empty |
| OrderPage.SplitNameRejoins | ProjektyCursor/Migiem/migiem-clone/src/components/OrderPage.tsx:117-119 | For a trimmed name with a space, first name + " " + surname gives back the trimmed name. A name without a space is the whole first name, with surname "-" |
| OrderPage.PrepareAddressData | ProjektyCursor/Migiem/migiem-clone/src/components/OrderPage.tsx:115-131 | The name and surname are the split of the name. The postal code is the digits of the input in their original order. An empty house number becomes "1". Every other field is unchanged |
| OrderPage.PrepareAddressPostalIdempotent | ProjektyCursor/Migiem/migiem-clone/src/components/OrderPage.tsx:122-129 | Normalising twice gives the same postal code and house number as normalising once |
| OrderPage.OrderGuard | ProjektyCursor/Migiem/migiem-clone/src/components/OrderPage.tsx:135-149 | The order passes iff the four address fields are filled, a company sender has a NIP, and the pricing id is truthy. A missing address is reported first, then a missing NIP, then a missing pricing id |
| OrderPage.ReceiverCompanyIgnored | ProjektyCursor/Migiem/migiem-clone/src/components/OrderPage.tsx:141-144 | The receiver's company flag and NIP never change the guard's verdict |
| OrderPage.ZeroPricingBlocks | ProjektyCursor/Migiem/migiem-clone/src/components/OrderPage.tsx:146-149 | A pricing id of 0 is treated like a missing one, and the order is blocked |
| OrderPage.OrderRequest | ProjektyCursor/Migiem/migiem-clone/src/components/OrderPage.tsx:161-167 | The request sent for an offer with a truthy pricing id carries a non-zero pricing id |
| OrderPage.SentRequestWellFormed | ProjektyCursor/Migiem/migiem-clone/src/components/OrderPage.tsx:151-167 | Every request that passed the guards carries the offer's courier and packages. Both addresses have a first name without spaces, a non-empty surname and house number, and an all-digit postal code. A company sender has a NIP |
| OrderPage.FinalWaybill | ProjektyCursor/Migiem/migiem-clone/src/components/OrderPage.tsx:173-179 | A non-empty waybill from the response is kept. Otherwise the waybill is "TEST-" followed by 1 to 4 digits. It is never empty |
| OrderPage.PlaceholderNumber | ProjektyCursor/Migiem/migiem-clone/src/components/OrderPage.tsx:178 | The digits after "TEST-" read back as the drawn number in [0, 9999] |
| OrderPage.PickupWindowByTimes | ProjektyCursor/Migiem/migiem-clone/src/components/OrderPage.tsx:204-209 | The string comparison of the two "date time" moments is the comparison of the two times, because the date is the same |
| OrderPage.PickupFailureMessage | ProjektyCursor/Migiem/migiem-clone/src/components/OrderPage.tsx:239 | A failed pickup shows the server's message if present, else the error's message, else the fixed text. It is never empty |
| OrderPage.AvailabilityLinkIgnoresSeparators | ProjektyCursor/Migiem/migiem-clone/src/components/OrderPage.tsx:409-413 | Whether the availability link shows (five digits in the sender's postal code) does not depend on hyphens |
| OrderPage.DigitsOfRemoveChar | ProjektyCursor/Migiem/migiem-clone/src/components/OrderPage.tsx:122 | Removing a non-digit character first does not change the digits of a string |
| OrderPage.OrderFailureAlert | ProjektyCursor/Migiem/migiem-clone/src/components/OrderPage.tsx:187-191 | A failed send alerts "Błąd API: " with the HTTP status when the server answered, and the connection-error text when it did not |
| OrderPage.OrderPageModel.constructor | ProjektyCursor/Migiem/migiem-clone/src/components/OrderPage.tsx:18-59 | Both address forms start from the initial address, with country "PL". The order and pickup are idle and nothing has been sent |
| OrderPage.OrderPageModel.LoadDefaultSender | ProjektyCursor/Migiem/migiem-clone/src/components/OrderPage.tsx:61-98 | A loaded profile replaces the sender with its mapping; a failed load leaves the sender alone. The receiver and order are untouched |
| OrderPage.OrderPageModel.EditSender | ProjektyCursor/Migiem/migiem-clone/src/components/OrderPage.tsx:103-107 | Only the named sender field changes, and only while the order form is drawn (the order has not succeeded). The receiver, the order, the pickup inputs and request, the modal flag and the alerts are unchanged |
| OrderPage.OrderPageModel.EditReceiver | ProjektyCursor/Migiem/migiem-clone/src/components/OrderPage.tsx:109-112 | Only the named receiver field changes, and only while the order form is drawn. The sender, the order, the pickup state, the modal flag and the alerts are unchanged |
| OrderPage.OrderPageModel.SubmitOrder | ProjektyCursor/Migiem/migiem-clone/src/components/OrderPage.tsx:134-167 | Callable only from the order form, before the order succeeded. A blocked order alerts the guard's text and sends nothing. Otherwise submission starts, the status is reset to idle and exactly the current sender and receiver are sent. The button is disabled while submitting, so a second click does nothing |
| OrderPage.OrderPageModel.ReceiveOrderResult | ProjektyCursor/Migiem/migiem-clone/src/components/OrderPage.tsx:173-195 | Success stores the final waybill (the response's, or a TEST- placeholder) and sets success. Failure alerts the mapped message, sets error and keeps the old waybill. Submission ends either way |
| OrderPage.OrderPageModel.EditPickup | ProjektyCursor/Migiem/migiem-clone/src/components/OrderPage.tsx:267-320 | The inputs exist only after a successful order and until the pickup succeeds. They take the typed values, except while a pickup call runs, when they are disabled |
| OrderPage.OrderPageModel.SubmitPickup | ProjektyCursor/Migiem/migiem-clone/src/components/OrderPage.tsx:199-222 | Callable from the pickup form of a successful order while no pickup call runs and none succeeded. With an empty required input nothing happens. A window whose start is not before its end gives the fixed error and no call. Otherwise the state is loading, the message is cleared and exactly one orderPickup call for the created waybill with the two moments is made |
| OrderPage.OrderPageModel.ReceivePickupResult | ProjektyCursor/Migiem/migiem-clone/src/components/OrderPage.tsx:222-242 | A successful call ends in success. A rejection of a TEST- waybill also ends in success (the 500 ms timer taken as immediate). A rejection of a real waybill ends in error with the server, error or fixed message |
| OrderPage.OrderPageModel.OpenAvailability | ProjektyCursor/Migiem/migiem-clone/src/components/OrderPage.tsx:409-413 | The link belongs to the order form. The modal opens only when the sender's postal code has exactly five digits |
| OrderPage.OrderPageModel.CloseAvailability | ProjektyCursor/Migiem/migiem-clone/src/components/OrderPage.tsx:466-472 | The modal belongs to the order form. Closing hides it and changes no form data |
| MaterialsData.CategoryIdInjective | ProjektyCursor/Migiem/migiem-clone/src/data/materialsData.ts:9 | The four categories have four distinct ids, and none of them is the page's "all" |
| MaterialsData.MockProducts | ProjektyCursor/Migiem/migiem-clone/src/data/materialsData.ts:19-60 | The catalogue has five products with pairwise distinct ids and positive prices |
| MaterialsPage.Incremented | ProjektyCursor/Migiem/migiem-clone/src/components/MaterialsPage.tsx:70-74 | Raising a product's quantity keeps the number of cart lines |
| MaterialsPage.AddToCart | ProjektyCursor/Migiem/migiem-clone/src/components/MaterialsPage.tsx:66-78 | On an id already in the cart, only that line's quantity goes up by one. A new id is appended with quantity 1. The product is in the cart afterwards, and unique ids and positive quantities are preserved |
| MaterialsPage.UpdateQuantity | ProjektyCursor/Migiem/migiem-clone/src/components/MaterialsPage.tsx:80-90 | The cart never grows, and every remaining quantity is positive |
| MaterialsPage.UpdateQuantityMembers | ProjektyCursor/Migiem/migiem-clone/src/components/MaterialsPage.tsx:80-90 | A line of another product is in the result iff it was in the cart with a positive quantity |
| MaterialsPage.UpdateQuantityIds | ProjektyCursor/Migiem/migiem-clone/src/components/MaterialsPage.tsx:80-90 | No new product id appears, and unique ids stay unique |
| MaterialsPage.UpdateQuantityOfLine | ProjektyCursor/Migiem/migiem-clone/src/components/MaterialsPage.tsx:83-88 | The product's line takes quantity + delta when that is positive, and is dropped otherwise |
| MaterialsPage.UpdateQuantityAppend | ProjektyCursor/Migiem/migiem-clone/src/components/MaterialsPage.tsx:80-90 | The update works line by line: it distributes over concatenation of carts |
| MaterialsPage.UpdateQuantityOthers | ProjektyCursor/Migiem/migiem-clone/src/components/MaterialsPage.tsx:80-90 | A cart of positive lines without the product is left unchanged |
| MaterialsPage.RemoveFromCart | ProjektyCursor/Migiem/migiem-clone/src/components/MaterialsPage.tsx:92-94 | No line of the product remains. Every other line is kept, nothing is added, and the order is preserved |
| MaterialsPage.RemoveFromCartKeepsCount | ProjektyCursor/Migiem/migiem-clone/src/components/MaterialsPage.tsx:92-94 | Each line of another product keeps its number of occurrences |
| MaterialsPage.RemoveAfterAdd | ProjektyCursor/Migiem/migiem-clone/src/components/MaterialsPage.tsx:66-94 | Removing a product just added gives the cart with that product removed |
| MaterialsPage.RemoveIncremented | ProjektyCursor/Migiem/migiem-clone/src/components/MaterialsPage.tsx:70-74 | Raising a product's quantity leaves the lines of every other product as they were |
| MaterialsPage.UpdateAfterAdd | ProjektyCursor/Migiem/migiem-clone/src/components/MaterialsPage.tsx:66-90 | The minus button undoes an add: the cart returns to its previous value |
| MaterialsPage.DecrementIncremented | ProjektyCursor/Migiem/migiem-clone/src/components/MaterialsPage.tsx:66-90 | Lowering by one what was raised by one restores a cart of positive quantities |
| MaterialsPage.DecrementAppended | ProjektyCursor/Migiem/migiem-clone/src/components/MaterialsPage.tsx:76-88 | A newly appended line with quantity 1 disappears after one minus click |
| MaterialsPage.ReduceIsSum | ProjektyCursor/Migiem/migiem-clone/src/components/MaterialsPage.tsx:96-98 | The left fold from an accumulator equals the accumulator plus the sum of the line totals |
| MaterialsPage.CartTotal | ProjektyCursor/Migiem/migiem-clone/src/components/MaterialsPage.tsx:96-98 | The cart total is the sum of price × quantity over the lines, and 0 for an empty cart |
| MaterialsPage.SumAppend | ProjektyCursor/Migiem/migiem-clone/src/components/MaterialsPage.tsx:96-98 | The total of two carts joined is the sum of their totals |
| MaterialsPage.SumIncremented | ProjektyCursor/Migiem/migiem-clone/src/components/MaterialsPage.tsx:70-74 | One more unit of a product in a cart with unique ids raises the total by that product's price |
| MaterialsPage.AddToCartTotal | ProjektyCursor/Migiem/migiem-clone/src/components/MaterialsPage.tsx:66-98 | Adding a product raises the cart total by exactly its price, whether or not it was already in the cart |
| MaterialsPage.FilteredProducts | ProjektyCursor/Migiem/migiem-clone/src/components/MaterialsPage.tsx:171-174 | "all" yields the whole catalogue. Any other category yields exactly the catalogue's products of that category, as an order-preserving sublist |
| MaterialsPage.PageSlice | ProjektyCursor/Migiem/migiem-clone/src/components/MaterialsPage.tsx:177-180 | A page holds at most ten items, namely elements [page×10, page×10+10) of the list, and none past its end |
| MaterialsPage.TotalPages | ProjektyCursor/Migiem/migiem-clone/src/components/MaterialsPage.tsx:182 | The page count is the ceiling of n/10: enough pages for all items, and no empty last page |
| MaterialsPage.ElementOnItsPage | ProjektyCursor/Migiem/migiem-clone/src/components/MaterialsPage.tsx:177-182 | Every item appears on page i/10, at position i mod 10, and that page exists |
| MaterialsPage.CatalogueOnePage | ProjektyCursor/Migiem/migiem-clone/src/components/MaterialsPage.tsx:17 | The five-product catalogue fits one page in any category, so no page buttons are shown |
| MaterialsPage.PageButtonsInRange | ProjektyCursor/Migiem/migiem-clone/src/components/MaterialsPage.tsx:290-303 | Prev and next keep the page in [0, totalPages−1], and move by exactly one when not at an end |
| MaterialsPage.DeliveryFromUser | ProjektyCursor/Migiem/migiem-clone/src/components/MaterialsPage.tsx:111-126 | The delivery form is filled from the stored user: company name else name, street else address, zip else zipCode, and city. All fields are empty when no user is stored |
| MaterialsPage.MaterialOrderId | ProjektyCursor/Migiem/migiem-clone/src/components/MaterialsPage.tsx:137 | The order id is "MAT-" followed by the last six digits of the clock reading (fewer for a small reading) |
| MaterialsPage.ShortNumber | ProjektyCursor/Migiem/migiem-clone/src/components/MaterialsPage.tsx:137 | A clock reading of at least 100000 has six or more digits, so its id has exactly six |
| MaterialsPage.WithDeliveryField | ProjektyCursor/Migiem/migiem-clone/src/components/MaterialsPage.tsx:408-441 | Typing into a delivery input sets that field only |
| MaterialsPage.MaterialsPageModel.constructor | ProjektyCursor/Migiem/migiem-clone/src/components/MaterialsPage.tsx:23-40 | The cart is the saved cart, or empty. The page starts on "all", page 0, with checkout closed |
| Storage.LocalStorage.constructor | ProjektyCursor/Migiem/migiem-clone/src/components/MaterialsPage.tsx:23-25 | The storage holds exactly the given flags, saved cart, user and mock_orders |
| MaterialsPage.MaterialsPageModel.SaveCart | ProjektyCursor/Migiem/migiem-clone/src/components/MaterialsPage.tsx:43-45 | The saved cart becomes the current cart; no other storage entry changes |
| MaterialsPage.MaterialsPageModel.Mount | ProjektyCursor/Migiem/migiem-clone/src/components/MaterialsPage.tsx:43-62 | The cart is saved. The checkout flag is consumed (checkout opened with the stored user's delivery data, flag removed) only when it is set, the user is logged in and the cart is not empty; otherwise checkout, delivery data and flags are unchanged. The category effect of the first render leaves page 0. The cart, the order flow, the user and mock_orders are unchanged |
| MaterialsPage.MaterialsPageModel.AddProduct | ProjektyCursor/Migiem/migiem-clone/src/components/MaterialsPage.tsx:66-78 | The cart becomes AddToCart of the old cart and is saved |
| MaterialsPage.MaterialsPageModel.ChangeQuantity | ProjektyCursor/Migiem/migiem-clone/src/components/MaterialsPage.tsx:343-345 | The cart becomes UpdateQuantity of the old cart and is saved |
| MaterialsPage.MaterialsPageModel.RemoveProduct | ProjektyCursor/Migiem/migiem-clone/src/components/MaterialsPage.tsx:346 | The cart becomes RemoveFromCart of the old cart and is saved |
| MaterialsPage.MaterialsPageModel.SelectCategory | ProjektyCursor/Migiem/migiem-clone/src/components/MaterialsPage.tsx:60-62 | Choosing a different category resets the page to 0; choosing the same one keeps it |
| MaterialsPage.MaterialsPageModel.ClickPrev | ProjektyCursor/Migiem/migiem-clone/src/components/MaterialsPage.tsx:287-291 | With more than one page and not on the first, the page goes back by one; otherwise it stays, and it never leaves the valid range |
| MaterialsPage.MaterialsPageModel.ClickNext | ProjektyCursor/Migiem/migiem-clone/src/components/MaterialsPage.tsx:301-303 | With more than one page and not on the last, the page goes forward by one; otherwise it stays, and it never leaves the valid range |
| MaterialsPage.MaterialsPageModel.CheckoutClick | ProjektyCursor/Migiem/migiem-clone/src/components/MaterialsPage.tsx:102-129 | A logged-out user gets the flag set and is sent to /login, and checkout stays closed. A logged-in user gets checkout opened, with the delivery form filled from the stored user |
| MaterialsPage.MaterialsPageModel.PressCheckout | ProjektyCursor/Migiem/migiem-clone/src/components/MaterialsPage.tsx:360-362 | The button does nothing for an empty cart. Otherwise it behaves as the checkout click |
| MaterialsPage.MaterialsPageModel.EditDelivery | ProjektyCursor/Migiem/migiem-clone/src/components/MaterialsPage.tsx:408-441 | Only the named delivery field changes |
| MaterialsPage.MaterialsPageModel.CloseCheckout | ProjektyCursor/Migiem/migiem-clone/src/components/MaterialsPage.tsx:389 | Checkout closes; the cart and delivery data are kept |
| MaterialsPage.MaterialsPageModel.ConfirmOrder | ProjektyCursor/Migiem/migiem-clone/src/components/MaterialsPage.tsx:131-160 | A submitted form (all four delivery fields filled) closes checkout and shows success. It puts the new PAID order with the cart's total and lines at the front of mock_orders and removes the saved cart. The order is not submitted while a field is empty |
| MaterialsPage.MaterialsPageModel.OrderTimerFires | ProjektyCursor/Migiem/migiem-clone/src/components/MaterialsPage.tsx:161-165 | When the timer fires the cart is emptied (and saved empty), success is hidden and the page goes to /orders |
| Formatters.FormatCourierName | ProjektyCursor/Migiem/migiem-clone/src/utils/formatters.ts:1-46 | Empty input gives "Nieznany kurier" and a table key gives its table value. An APACZKA_ name loses the prefix, has underscores turned into spaces and goes through the InPost, then DHL, then UPS checks. Anything else has every underscore replaced by a space. The result never contains '_' |
| Formatters.NoUnderscoreInTable | ProjektyCursor/Migiem/migiem-clone/src/utils/formatters.ts:6-20 | No table value contains an underscore |
| Formatters.TableKeyNotApaczka | ProjektyCursor/Migiem/migiem-clone/src/utils/formatters.ts:6-28 | No table key starts with APACZKA_, so the two branches never overlap |
| Formatters.PrefixRemoved | ProjektyCursor/Migiem/migiem-clone/src/utils/formatters.ts:30 | Replacing the first "APACZKA_" of a name that starts with it removes exactly the prefix |
| Formatters.ApaczkaNameNoUnderscore | ProjektyCursor/Migiem/migiem-clone/src/utils/formatters.ts:36-41 | The Apaczka sub-checks never introduce an underscore |
| Formatters.PlainNameKept | ProjektyCursor/Migiem/migiem-clone/src/utils/formatters.ts:45 | A non-empty name that is neither a table key nor contains an underscore is shown unchanged |
| Formatters.ApaczkaOtherService | ProjektyCursor/Migiem/migiem-clone/src/utils/formatters.ts:28-41 | An Apaczka service whose cleaned name mentions none of INPOST, DHL and UPS is shown as the service with underscores turned into spaces |
| Api.RegisterPayload | ProjektyCursor/Migiem/migiem-clone/src/api/api.ts:62-96 | The register body copies login, password, email, name, surname, phone, street, houseNr and city name. It has every '-' removed from the zip. placeNr is "1", the country "Polska", the company name "Klient Indywidualny", and NIP and bank account are empty |
| Api.RegisterPayloadInjective | ProjektyCursor/Migiem/migiem-clone/src/api/api.ts:62-96 | Two forms give the same register body iff they agree once hyphens are removed from their zips |
| Api.RegisterZipKeepsNonDigits | ProjektyCursor/Migiem/migiem-clone/src/api/api.ts:64 | The register zip keeps every character but '-', including non-digits, unlike the order page's digits-only code |
| Api.LoginCall | ProjektyCursor/Migiem/migiem-clone/src/api/api.ts:98-111 | loginUser resolves to true iff the status is 200, and to false iff the status is another 2xx. Any status outside 2xx, or no answer, rejects, carrying the status and server message when there was an answer |
| Api.EstimatePayload | ProjektyCursor/Migiem/migiem-clone/src/api/api.ts:149-177 | The estimate body has exactly one package, with id 0 and service STANDARD. Every add-on is off, and insurance and taken are 0 |
| Api.EstimatePayloadRoundTrip | ProjektyCursor/Migiem/migiem-clone/src/api/api.ts:151-160 | The package carries the input's four measurements unchanged |
| AddressBook.ToAddressData | ProjektyCursor/Migiem/migiem-clone/src/components/AddressBookModal.tsx:37-52 | A selected address maps houseNr to houseNumber, placeNr to apartmentNumber, the raw city zip to postalCode and the city name to city. The country is "PL", it is a company iff the company name is non-empty, and the other fields are copied |
| AddressBook.CompanyWithoutNipBlocked | ProjektyCursor/Migiem/migiem-clone/src/components/AddressBookModal.tsx:50 | A company address without NIP, if it were taken as sender with addresses filled, would be blocked by the order page's NIP guard. No page of the repository renders the modal, so this composition is hypothetical |
| AddressBook.SelectedPostalCodeSent | ProjektyCursor/Migiem/migiem-clone/src/components/AddressBookModal.tsx:47 | If a selected address were put into the order form, its raw zip would reach the order request as its digits. The composition is hypothetical, as no page renders the modal |
| AddressBook.FilteredAddresses | ProjektyCursor/Migiem/migiem-clone/src/components/AddressBookModal.tsx:58-66 | An address is listed iff the lower-cased term occurs in its lower-cased name, surname, company name or city name. The list is an order-preserving sublist of the loaded addresses |
| AddressBook.EmptySearchListsAll | ProjektyCursor/Migiem/migiem-clone/src/components/AddressBookModal.tsx:58-66 | An empty search term lists every address |
| AddressBook.SearchIgnoresCase | ProjektyCursor/Migiem/migiem-clone/src/components/AddressBookModal.tsx:59 | Searching for the upper-cased term lists the same addresses |
| AddressBook.AddressBookModel.Shown | ProjektyCursor/Migiem/migiem-clone/src/components/AddressBookModal.tsx:98-110 | While loading no address is listed; afterwards the filtered addresses are |
| AddressBook.AddressBookModel.constructor | ProjektyCursor/Migiem/migiem-clone/src/components/AddressBookModal.tsx:13-22 | An open modal starts loading with one fetch; a closed one fetches nothing. No call has settled |
| AddressBook.AddressBookModel.SetOpen | ProjektyCursor/Migiem/migiem-clone/src/components/AddressBookModal.tsx:18-22 | Opening the modal starts exactly one fetch; other changes start none |
| AddressBook.AddressBookModel.ReceiveAddresses | ProjektyCursor/Migiem/migiem-clone/src/components/AddressBookModal.tsx:24-34 | Accepted only while a made call has not settled; it counts one more settled call. A loaded list replaces the addresses, a failure keeps them, and loading ends either way |
| AddressBook.AddressBookModel.SetSearchTerm | ProjektyCursor/Migiem/migiem-clone/src/components/AddressBookModal.tsx:91 | Only the search term changes |
| AddressBook.AddressBookModel.Select | ProjektyCursor/Migiem/migiem-clone/src/components/AddressBookModal.tsx:53-54 | Clicking a listed address calls onSelect with its mapping, then onClose |
| AddressBook.AddressBookModel.Close | ProjektyCursor/Migiem/migiem-clone/src/components/AddressBookModal.tsx:77 | The close button calls onClose and nothing else |
| OrdersHistory.OrdersOf | ProjektyCursor/Migiem/migiem-clone/src/components/OrdersHistoryPage.tsx:26-30 | An array answer is shown as is; any other answer leaves an empty list, which is the last page |
| OrdersHistory.PartyDisplayName | ProjektyCursor/Migiem/migiem-clone/src/components/OrdersHistoryPage.tsx:230 | A party is shown by its company name when it has one. The shown name is never empty |
| OrdersHistory.PartyDisplayNameOfPerson | ProjektyCursor/Migiem/migiem-clone/src/components/OrdersHistoryPage.tsx:230 | Without a company name the party is "name surname", or the one that is present, or "-" when both are missing |
| OrdersHistory.PartyDisplayNameMissing | ProjektyCursor/Migiem/migiem-clone/src/components/OrdersHistoryPage.tsx:244 | A missing party is shown as "-" |
| OrdersHistory.StatusBadge | ProjektyCursor/Migiem/migiem-clone/src/components/OrdersHistoryPage.tsx:97-110 | The label is the upper-cased status ("unknown" when missing). The style is the map's entry for the lower-cased status among created, sent, cancelled and delivered; a lower-cased status naming a member every object inherits ("constructor" or "__proto__") finds that member; any other status gets the default |
| OrdersHistory.StatusStyleIgnoresCase | ProjektyCursor/Migiem/migiem-clone/src/components/OrdersHistoryPage.tsx:105 | The badge style does not depend on the status's letter case |
| OrdersHistory.StatusBadgeMissing | ProjektyCursor/Migiem/migiem-clone/src/components/OrdersHistoryPage.tsx:263 | An order without status gets the default style and the label UNKNOWN |
| OrdersHistory.SameLabelSameStyle | ProjektyCursor/Migiem/migiem-clone/src/components/OrdersHistoryPage.tsx:105-109 | Two badges with the same label have the same style: the colour is determined by the text shown |
| OrdersHistory.DownloadDecision | ProjektyCursor/Migiem/migiem-clone/src/components/OrdersHistoryPage.tsx:45-51 | A null or empty waybill is ignored. A WAW- or GDN- waybill only gets the demo notice. Every other waybill is requested as is |
| OrdersHistory.LabelErrorMessage | ProjektyCursor/Migiem/migiem-clone/src/components/OrdersHistoryPage.tsx:78-89 | 404 and 400 answers get their own messages. Any other status gives exactly "Wystąpił błąd serwera: " followed by the status as a template literal writes it. No answer gives the error's message or the fallback. The message is never empty |
| OrdersHistory.LabelErrorsDistinct | ProjektyCursor/Migiem/migiem-clone/src/components/OrdersHistoryPage.tsx:78-85 | The 404, 400 and other-status messages are pairwise different |
| OrdersHistory.OrdersHistoryModel.constructor | ProjektyCursor/Migiem/migiem-clone/src/components/OrdersHistoryPage.tsx:12-42 | The page starts on page 0 and fetches that page once; no label call is pending |
| OrdersHistory.OrdersHistoryModel.FetchHistory | ProjektyCursor/Migiem/migiem-clone/src/components/OrdersHistoryPage.tsx:20-24 | Run while nothing loads (after a page change or from the retry button at lines 147-155). A fetch sets loading, clears the error and requests the current page |
| OrdersHistory.OrdersHistoryModel.ReceiveHistory | ProjektyCursor/Migiem/migiem-clone/src/components/OrdersHistoryPage.tsx:24-36 | Accepted only while the fetch is pending. An answer replaces the orders (an empty list for a non-array). A failure keeps them and sets the fixed error. Loading ends either way |
| OrdersHistory.OrdersHistoryModel.ClickPrevious | ProjektyCursor/Migiem/migiem-clone/src/components/OrdersHistoryPage.tsx:163-307 | Drawn only once the list loaded without error. On page 0 nothing happens. Otherwise the page goes back by one and that page is fetched |
| OrdersHistory.OrdersHistoryModel.ClickNext | ProjektyCursor/Migiem/migiem-clone/src/components/OrdersHistoryPage.tsx:163-319 | Drawn only once the list loaded without error. "Next" is disabled iff the page has fewer than ten orders. Otherwise the page goes forward by exactly one and is fetched |
| OrdersHistory.OrdersHistoryModel.DownloadLabel | ProjektyCursor/Migiem/migiem-clone/src/components/OrdersHistoryPage.tsx:45-57 | Drawn only in a table that loaded without error. Nothing happens for a missing waybill or one already downloading. A demo waybill alerts the notice without a request. A real one is requested, marked as downloading and counted as pending |
| OrdersHistory.OrdersHistoryModel.ReceiveLabel | ProjektyCursor/Migiem/migiem-clone/src/components/OrdersHistoryPage.tsx:57-92 | Accepted only for a pending call, which then settles once. A valid base64 answer is downloaded as etykieta-<waybill>.pdf with the decoded bytes and the PDF type. An undecodable one alerts the decoder's message or the fallback, and a failed call alerts the mapped message. The downloading mark is cleared either way |
| OrdersHistory.OrdersHistoryModel.SettleLabel | ProjektyCursor/Migiem/migiem-clone/src/components/OrdersHistoryPage.tsx:90-92 | The finally clears the downloading mark and removes exactly one pending call for the waybill; nothing else changes |
| RegisterPage.FormKeysComplete | ProjektyCursor/Migiem/migiem-clone/src/components/RegisterPage.tsx:12-23 | The validation visits every field of the form exactly once |
| RegisterPage.WithField | ProjektyCursor/Migiem/migiem-clone/src/components/RegisterPage.tsx:28 | Typing sets the named field and leaves every other field as it was |
| RegisterPage.WithFieldOwnValue | ProjektyCursor/Migiem/migiem-clone/src/components/RegisterPage.tsx:28 | Writing a field's own value back leaves the form unchanged |
| RegisterPage.EmptyFields | ProjektyCursor/Migiem/migiem-clone/src/components/RegisterPage.tsx:37-42 | A field is flagged iff its value is empty |
| RegisterPage.CollectErrors | ProjektyCursor/Migiem/migiem-clone/src/components/RegisterPage.tsx:37-42 | The loop's error map has exactly the empty fields as keys, each mapped to true |
| RegisterPage.NoErrorsIffComplete | ProjektyCursor/Migiem/migiem-clone/src/components/RegisterPage.tsx:46 | The error map is empty iff every field is filled |
| RegisterPage.CheckedPayload | ProjektyCursor/Migiem/migiem-clone/src/components/RegisterPage.tsx:46-50 | A form that passed the check is sent with all its texts non-empty. Only the zip can become empty, and only when it consists of hyphens |
| RegisterPage.ValidEmailShape | ProjektyCursor/Migiem/migiem-clone/src/components/RegisterPage.tsx:118 | An address the email input accepts is a non-empty local part, one @, and a non-empty domain, with no other @ |
| RegisterPage.RegisterPageModel.constructor | ProjektyCursor/Migiem/migiem-clone/src/components/RegisterPage.tsx:8-25 | The form starts empty, with no errors, no server error and nothing loading |
| RegisterPage.RegisterPageModel.HandleChange | ProjektyCursor/Migiem/migiem-clone/src/components/RegisterPage.tsx:27-31 | Only the named field changes. Only that field's red border is cleared, and the server error is cleared |
| RegisterPage.RegisterPageModel.PressSubmit | ProjektyCursor/Migiem/migiem-clone/src/components/RegisterPage.tsx:105-118 | The browser refuses the submit iff the email is non-empty and not a valid address, and then nothing changes. Otherwise the form is checked as by handleSubmit |
| RegisterPage.RegisterPageModel.HandleSubmit | ProjektyCursor/Migiem/migiem-clone/src/components/RegisterPage.tsx:33-47 | Reached only with an email the browser accepted. The red borders are exactly the empty fields. registerUser is called, with loading set, iff no field is empty; every form sent has a valid email |
| RegisterPage.RegisterPageModel.ReceiveRegister | ProjektyCursor/Migiem/migiem-clone/src/components/RegisterPage.tsx:50-59 | Accepted only while the call is pending. Success goes to /login with the account-created message. A failure shows the server's message or the fixed fallback. Loading ends either way |
| LoginPage.WithInput | ProjektyCursor/Migiem/migiem-clone/src/components/LoginPage.tsx:31 | Typing sets the named input and keeps the other |
| LoginPage.LoginErrorMessage | ProjektyCursor/Migiem/migiem-clone/src/components/LoginPage.tsx:67-71 | A 401 or 403 answer gives the invalid-credentials message; any other error, answered or not, the server-problem message |
| LoginPage.AttemptError | ProjektyCursor/Migiem/migiem-clone/src/components/LoginPage.tsx:48-71 | An attempt shows no error iff loginUser returned true. false gives invalid credentials and a rejection the mapped message |
| LoginPage.RefusalsLookAlike | ProjektyCursor/Migiem/migiem-clone/src/components/LoginPage.tsx:60-68 | A 2xx answer other than 200 (resolved false) and a 401 or 403 rejection show the user the same invalid-credentials message |
| LoginPage.LoginAttemptByStatus | ProjektyCursor/Migiem/migiem-clone/src/components/LoginPage.tsx:48-71 | By the answer's status: 200 logs in without error; another 2xx, 401 or 403 shows invalid credentials; any other status or no answer shows the server-problem message |
| LoginPage.LoginPageModel.constructor | ProjektyCursor/Migiem/migiem-clone/src/components/LoginPage.tsx:10-28 | The form starts empty. A message passed from the register page is shown as the success message |
| LoginPage.LoginPageModel.HandleChange | ProjektyCursor/Migiem/migiem-clone/src/components/LoginPage.tsx:30-34 | Typing updates the input and clears any error |
| LoginPage.LoginPageModel.HandleSubmit | ProjektyCursor/Migiem/migiem-clone/src/components/LoginPage.tsx:36-48 | An empty login or password shows the fixed message and calls nothing. Otherwise the error is cleared, loading is set and loginUser is called once |
| LoginPage.LoginPageModel.ReceiveLogin | ProjektyCursor/Migiem/migiem-clone/src/components/LoginPage.tsx:48-74 | true stores isLoggedIn = 'true' and navigates home. Every other outcome shows its message and leaves the flag as it was. Loading ends either way |
| TrackingPage.TrackingPath | ProjektyCursor/Migiem/migiem-clone/src/components/TrackingPage.tsx:48 | The address navigated to is the tracking path followed by the typed waybill, which can be read back from it |
| TrackingPage.TrackingPageModel.constructor | ProjektyCursor/Migiem/migiem-clone/src/components/TrackingPage.tsx:12-42 | The address's waybill is remembered and shown in the input. A non-empty one starts one search at once; an empty one leaves the page idle |
| TrackingPage.TrackingPageModel.HandleSearch | ProjektyCursor/Migiem/migiem-clone/src/components/TrackingPage.tsx:20-27 | An empty waybill leaves all search state unchanged. Otherwise the status is loading, the message and data are cleared and the waybill is searched |
| TrackingPage.TrackingPageModel.ReceiveTracking | ProjektyCursor/Migiem/migiem-clone/src/components/TrackingPage.tsx:27-34 | Success stores the result with status success and leaves the message; failure sets the not-found message with status error and leaves the data. After a single search (status loading) data is present and the message empty iff the call resolved |
| TrackingPage.TrackingPageModel.SetInput | ProjektyCursor/Migiem/migiem-clone/src/components/TrackingPage.tsx:78 | Typing changes only the input |
| TrackingPage.TrackingPageModel.UrlChanged | ProjektyCursor/Migiem/migiem-clone/src/components/TrackingPage.tsx:12-42 | The page remembers the new address waybill. A changed, non-empty waybill starts a search for it; an unchanged or empty one changes no search state, and the input keeps its text |
| TrackingPage.TrackingPageModel.Submit | ProjektyCursor/Migiem/migiem-clone/src/components/TrackingPage.tsx:38-50 | Submitting (not possible while loading) navigates to the tracking path of the input, even an empty one, and the address then carries the input. A non-empty input is searched once when it equals the old address waybill and twice (the handler, then the effect) otherwise; an empty one changes no search state |
| PickupAvailability.Keys | ProjektyCursor/Migiem/migiem-clone/src/components/PickupAvailabilityModal.tsx:51 | The keys of the response are its dates, one per entry, in response order |
| PickupAvailability.Lookup | ProjektyCursor/Migiem/migiem-clone/src/components/PickupAvailabilityModal.tsx:110-116 | A date has a slot iff it is a key of the response, and the slot found is the one stored under it |
| PickupAvailability.Insert | ProjektyCursor/Migiem/migiem-clone/src/components/PickupAvailabilityModal.tsx:51 | Inserting into a sorted list keeps it sorted and adds exactly the new element |
| PickupAvailability.Sort | ProjektyCursor/Migiem/migiem-clone/src/components/PickupAvailabilityModal.tsx:51 | The sort result is in ascending string order and is a permutation of its input |
| PickupAvailability.SortedAscends | ProjektyCursor/Migiem/migiem-clone/src/components/PickupAvailabilityModal.tsx:51 | In a sorted list every earlier element is equal to or below every later one |
| PickupAvailability.SortedDates | ProjektyCursor/Migiem/migiem-clone/src/components/PickupAvailabilityModal.tsx:51 | Without data the date list is empty. With data it is the response's keys, sorted |
| PickupAvailability.SortedDatesAreKeys | ProjektyCursor/Migiem/migiem-clone/src/components/PickupAvailabilityModal.tsx:51 | The listed dates are exactly the keys, as many as the entries, and with distinct keys strictly ascending |
| PickupAvailability.DistinctCount | ProjektyCursor/Migiem/migiem-clone/src/components/PickupAvailabilityModal.tsx:51 | Distinct keys each occur once |
| PickupAvailability.EarliestEndOfClock | ProjektyCursor/Migiem/migiem-clone/src/components/PickupAvailabilityModal.tsx:116 | For a start time "HH:MM", the earliest end shown is the hour HH plus the interval |
| PickupAvailability.EarliestEndNaN | ProjektyCursor/Migiem/migiem-clone/src/components/PickupAvailabilityModal.tsx:116 | A start time with no hour digits gives no number, which the page shows as NaN |
| PickupAvailability.EarliestEndBeforeColon | ProjektyCursor/Migiem/migiem-clone/src/components/PickupAvailabilityModal.tsx:116 | The earliest end depends only on the text before the first colon: its parseInt plus the interval, or no number when that text parses to none |
| PickupAvailability.Render | ProjektyCursor/Migiem/migiem-clone/src/components/PickupAvailabilityModal.tsx:48-120 | A closed modal renders nothing. An open one shows the spinner while loading and the error if any. The no-dates notice shows exactly when idle without error or dates. When not loading, the date buttons are the response's keys in ascending order. The details are those of the selected date's slot with its earliest end; they show for every selected key except the falsy empty one |
| PickupAvailability.SelectedDateDetailed | ProjektyCursor/Migiem/migiem-clone/src/components/PickupAvailabilityModal.tsx:93-110 | Clicking a listed date shows the details of exactly that date's slot; clicking a listed empty key shows none |
| PickupAvailability.PickupAvailabilityModel.constructor | ProjektyCursor/Migiem/migiem-clone/src/components/PickupAvailabilityModal.tsx:17-25 | The modal fetches once, for its courier and zip, iff it is open and both are non-empty. No call has settled |
| PickupAvailability.PickupAvailabilityModel.FetchPickups | ProjektyCursor/Migiem/migiem-clone/src/components/PickupAvailabilityModal.tsx:34-38 | A fetch sets loading, clears the error and requests the courier's slots for the zip |
| PickupAvailability.PickupAvailabilityModel.SetProps | ProjektyCursor/Migiem/migiem-clone/src/components/PickupAvailabilityModal.tsx:22-32 | Unchanged props change nothing. Changed props reset pickups, error and selected date, and fetch again iff open with courier and zip non-empty |
| PickupAvailability.PickupAvailabilityModel.ReceivePickups | ProjektyCursor/Migiem/migiem-clone/src/components/PickupAvailabilityModal.tsx:38-45 | Accepted only while a made call has not settled; it counts one more settled call. Data replaces the pickups. A failure sets the fixed error. Loading ends either way, even while a later call is pending |
| PickupAvailability.PickupAvailabilityModel.SelectDate | ProjektyCursor/Migiem/migiem-clone/src/components/PickupAvailabilityModal.tsx:93 | Clicking a listed date selects it and changes nothing else |
| FileHelpers.SextetValue | ProjektyCursor/Migiem/migiem-clone/src/utils/fileHelpers.ts:10 | A base64 character's value is a 6-bit number whose alphabet character is that character |
| FileHelpers.SextetRoundTrip | ProjektyCursor/Migiem/migiem-clone/src/utils/fileHelpers.ts:10 | Every 6-bit value's character decodes back to it |
| FileHelpers.DropPadding | ProjektyCursor/Migiem/migiem-clone/src/utils/fileHelpers.ts:10 | At most two trailing characters are dropped, and only from a length that is a multiple of four |
| FileHelpers.Sextets | ProjektyCursor/Migiem/migiem-clone/src/utils/fileHelpers.ts:10 | Characters are read one 6-bit value each, and reading fails iff some character is outside the alphabet |
| FileHelpers.DecodeSextets | ProjektyCursor/Migiem/migiem-clone/src/utils/fileHelpers.ts:10 | Four values make three bytes, and a final two or three make one or two |
| FileHelpers.Base64Decode | ProjektyCursor/Migiem/migiem-clone/src/utils/fileHelpers.ts:10 | A decoded string is a sequence of bytes |
| FileHelpers.Base64DecodeFails | ProjektyCursor/Migiem/migiem-clone/src/utils/fileHelpers.ts:10 | Decoding fails iff, once white space and padding are dropped, the length leaves remainder 1 mod 4 or a character is outside the alphabet |
| FileHelpers.EncodeSextets | ProjektyCursor/Migiem/migiem-clone/src/utils/fileHelpers.ts:10 | Three bytes make four 6-bit values, and a final one or two bytes make two or three |
| FileHelpers.Base64Encode | ProjektyCursor/Migiem/migiem-clone/src/utils/fileHelpers.ts:10 | An encoding is padded to a multiple of four characters |
| FileHelpers.DecodeEncodeSextets | ProjektyCursor/Migiem/migiem-clone/src/utils/fileHelpers.ts:10 | Regrouping bytes into 6-bit values and back gives the original bytes |
| FileHelpers.Base64RoundTrip | ProjektyCursor/Migiem/migiem-clone/src/utils/fileHelpers.ts:10 | Decoding the encoding of any byte sequence gives it back |
| FileHelpers.Atob | ProjektyCursor/Migiem/migiem-clone/src/utils/fileHelpers.ts:10 | atob fails iff decoding fails, and otherwise yields one character per decoded byte whose code is that byte |
| FileHelpers.Uint8Array | ProjektyCursor/Migiem/migiem-clone/src/utils/fileHelpers.ts:19 | The typed array has one byte per number and keeps numbers that are already bytes |
| FileHelpers.Base64ToBlob | ProjektyCursor/Migiem/migiem-clone/src/utils/fileHelpers.ts:8-23 | The copy loop fills byte i with the code of decoded character i. The blob holds exactly the decoded bytes and carries the given type, application/pdf by default. Invalid input fails as atob does |
| FileHelpers.LabelBlobOfEncoded | ProjektyCursor/Migiem/migiem-clone/src/utils/fileHelpers.ts:10-19 | A label sent as the base64 of some bytes comes back as exactly those bytes, one character per byte |
| Text.DigitsOnly | ProjektyCursor/Migiem/migiem-clone/src/components/OrderPage.tsx:122 | Removing every non-digit leaves only digits, in their original order |
| Text.DigitsOnlyCount | ProjektyCursor/Migiem/migiem-clone/src/components/OrderPage.tsx:122 | Every digit is kept as often as it occurs |
| Text.RemoveChar | ProjektyCursor/Migiem/migiem-clone/src/api/api.ts:64 | Removing every '-' leaves none, keeps the order, and changes nothing when there is none |
| Text.RemoveCharCount | ProjektyCursor/Migiem/migiem-clone/src/api/api.ts:64 | Every other character is kept as often as it occurs |
| Text.RemoveCharEmpty | ProjektyCursor/Migiem/migiem-clone/src/api/api.ts:64 | The result is empty iff the input consists of the removed character only |
| Text.ReplaceChar | ProjektyCursor/Migiem/migiem-clone/src/utils/formatters.ts:33 | Replacing every '_' by ' ' keeps the length and changes exactly the underscores |
| Text.ReplaceCharRemoves | ProjektyCursor/Migiem/migiem-clone/src/utils/formatters.ts:45 | No underscore remains, and other characters keep their counts |
| Text.IndexOf | ProjektyCursor/Migiem/migiem-clone/src/utils/formatters.ts:36-38 | indexOf finds the first occurrence of the pattern, or reports that there is none |
| Text.IncludesOccurs | ProjektyCursor/Migiem/migiem-clone/src/utils/formatters.ts:36-38 | includes holds iff the pattern occurs at some position |
| Text.StartsWithIndexOf | ProjektyCursor/Migiem/migiem-clone/src/utils/formatters.ts:28 | startsWith holds iff the first occurrence of the pattern is at position 0 |
| Text.ReplaceFirst | ProjektyCursor/Migiem/migiem-clone/src/utils/formatters.ts:30 | Replacing the first occurrence of a pattern changes nothing without one, otherwise swaps exactly the pattern's length for the replacement's |
| Text.ToLower | ProjektyCursor/Migiem/migiem-clone/src/components/AddressBookModal.tsx:59 | Lower-casing keeps the length, turns each upper-case letter into the lower-case letter that upper-cases back to it, and keeps every other character |
| Text.ToLowerIdempotent | ProjektyCursor/Migiem/migiem-clone/src/components/AddressBookModal.tsx:59-65 | A lower-cased string has no upper-case letter, and lower-casing it again changes nothing |
| Text.ToLowerOfUpper | ProjektyCursor/Migiem/migiem-clone/src/components/OrdersHistoryPage.tsx:105-109 | Lower-casing an upper-cased string gives the lower-cased original |
| Text.ToUpper | ProjektyCursor/Migiem/migiem-clone/src/components/OrdersHistoryPage.tsx:109 | Upper-casing keeps the length, leaves no lower-case letter, turns each lower-case letter into the upper-case letter that lower-cases back to it, and keeps every other character |
| Text.Trim | ProjektyCursor/Migiem/migiem-clone/src/components/OrderPage.tsx:117 | trim removes white space only at the ends and leaves a result that neither starts nor ends with white space |
| Text.TrimAround | ProjektyCursor/Migiem/migiem-clone/src/components/OrderPage.tsx:117 | Trimming white space around a tidy core gives back the core |
| Text.Split | ProjektyCursor/Migiem/migiem-clone/src/components/OrderPage.tsx:117 | split yields at least one piece and no piece holds the separator |
| Text.JoinSplit | ProjektyCursor/Migiem/migiem-clone/src/components/OrderPage.tsx:117-119 | Joining the pieces of a split with the same separator gives the string back |
| Text.SplitCount | ProjektyCursor/Migiem/migiem-clone/src/components/OrderPage.tsx:117-119 | A split has two or more pieces iff the separator occurs |
| Text.SplitAtFirst | ProjektyCursor/Migiem/migiem-clone/src/components/OrderPage.tsx:117-119 | The first piece is the text before the first separator, and the joined rest is the text after it |
| Text.SplitJoin | ProjektyCursor/Migiem/migiem-clone/src/components/OrderPage.tsx:117-119 | Splitting the join of at least one piece, none of which holds the separator, gives the pieces back |
| Text.LexLessIrreflexive | ProjektyCursor/Migiem/migiem-clone/src/components/OrderPage.tsx:209 | No string is below itself |
| Text.LexLessTotal | ProjektyCursor/Migiem/migiem-clone/src/components/OrderPage.tsx:209 | Of two different strings one is below the other |
| Text.LexLessTransitive | ProjektyCursor/Migiem/migiem-clone/src/components/PickupAvailabilityModal.tsx:51 | String order is transitive |
| Text.LexLessAsymmetric | ProjektyCursor/Migiem/migiem-clone/src/components/OrderPage.tsx:209 | Two strings are never below each other |
| Text.LexLessCommonPrefix | ProjektyCursor/Migiem/migiem-clone/src/components/OrderPage.tsx:204-209 | A common prefix does not change the order of two strings |
| Text.LexLessByFirstDifference | ProjektyCursor/Migiem/migiem-clone/src/components/OrderPage.tsx:209 | One string is below another iff it is a proper prefix of it, or the first position where they differ holds a smaller character |
| Text.DecimalString | ProjektyCursor/Migiem/migiem-clone/src/components/OrderPage.tsx:178 | A number is written as a non-empty run of digits without leading zero |
| Text.DecimalStringRoundTrip | ProjektyCursor/Migiem/migiem-clone/src/components/OrderPage.tsx:178 | The digits written for a number read back as that number |
| Text.LeadingDigits | ProjektyCursor/Migiem/migiem-clone/src/components/PickupAvailabilityModal.tsx:116 | The leading digits are the longest all-digit prefix |
| Text.ParseInt | ProjektyCursor/Migiem/migiem-clone/src/components/PickupAvailabilityModal.tsx:116 | parseInt without a radix gives a number iff, after leading white space and an optional sign, the text is "0x"/"0X" followed by a hex digit, or otherwise starts with a decimal digit |
| Text.ParseIntDigits | ProjektyCursor/Migiem/migiem-clone/src/components/PickupAvailabilityModal.tsx:116 | parseInt of decimal digits followed by a non-digit, not starting with a hex prefix, reads exactly those digits |
| Text.ParseIntHex | ProjektyCursor/Migiem/migiem-clone/src/components/PickupAvailabilityModal.tsx:116 | After a "0x" or "0X" prefix, parseInt reads the leading hex digits as a base-16 number |
| Text.ParseIntSigned | ProjektyCursor/Migiem/migiem-clone/src/components/PickupAvailabilityModal.tsx:116 | parseInt reads one sign: a - or + then decimal digits (not a 0x prefix) read as those digits, negated after a - |
| Text.ParseIntAfterBlanks | ProjektyCursor/Migiem/migiem-clone/src/components/PickupAvailabilityModal.tsx:116 | Leading white space does not change what parseInt reads |
| Text.ParseIntBareHexPrefix | ProjektyCursor/Migiem/migiem-clone/src/components/PickupAvailabilityModal.tsx:116 | A "0x" prefix with no hex digit after it gives no number |
| Seqs.Filter | ProjektyCursor/Migiem/migiem-clone/src/components/MaterialsPage.tsx:173 | filter keeps exactly the elements that pass the test |
| Seqs.FilterIsSubsequence | ProjektyCursor/Migiem/migiem-clone/src/components/MaterialsPage.tsx:93 | filter keeps the order of the kept elements |
| Seqs.FilterCount | ProjektyCursor/Migiem/migiem-clone/src/components/MaterialsPage.tsx:93 | An element that passes the test is kept as often as it occurs |
| Seqs.FilterAllPass | ProjektyCursor/Migiem/migiem-clone/src/components/AddressBookModal.tsx:58 | Filtering a list whose elements all pass gives the list back |
| Seqs.FilterAppend | ProjektyCursor/Migiem/migiem-clone/src/components/MaterialsPage.tsx:93 | filter distributes over concatenation |
| Seqs.SliceIndex | ProjektyCursor/Migiem/migiem-clone/src/components/MaterialsPage.tsx:179 | slice clamps an index into [0, length], counting a negative one from the end |
| Seqs.JsSlice | ProjektyCursor/Migiem/migiem-clone/src/components/MaterialsPage.tsx:179 | slice with in-range bounds is the sub-list between them, cut at the end, and empty when start is not below end |
| Wrappers.Or | ProjektyCursor/Migiem/migiem-clone/src/components/RegisterPage.tsx:56 | a \|\| b on strings is a unless it is empty, then b. It is empty only when both are |

## Left out

- Rendering, styling and React effects are out of scope. Effects are methods the caller invokes in the order React would (`Mount`, `SaveCart`, `FetchHistory`, `SetProps`).
- The axios transport, the cookie session and the backend are not modelled. Each awaited call becomes a recorded request plus an `Outcome` argument: resolved with a value, or rejected with an optional status and server message plus the error's own message.
- The return types of `getSender`, `sendPackage`, `orderPickup`, `getAddressBook`, `getOrdersHistory`, `getLabel`, `getAvailablePickups` and `getPackageTracking` are not part of this model. Their shapes are taken from how the pages use them; the tracking answer is a type parameter of the tracking page.
- `alert`, `navigate`, `console` and the file download are not performed. They are appended to log fields (`alerts`, `navigations`, `downloads`) whose contents the contracts state.
- `localStorage` and `JSON.parse`/`JSON.stringify` are modelled by the `Storage.LocalStorage` class, with typed fields for the cart, the user and `mock_orders` and a string map for the flags. Malformed JSON in storage is not modelled.
- `Date.now()` and `new Date().toISOString()` are parameters of `MaterialsPage.MaterialsPageModel.ConfirmOrder`. `Math.random()` is the `draw` parameter in [0, 9999] of `OrderPage.OrderPageModel.ReceiveOrderResult`.
- The timers are modelled differently. The 2.5 s timer of the materials order is the separate step `OrderTimerFires`. The 500 ms timer of a TEST- pickup is taken as immediate.
- Prices are integer grosze rather than floating-point złoty, and `toFixed(2)` display is out of scope.
- `toLocaleString` date formatting of the history is out of scope.
- Text.ToLower: `toLowerCase`/`toUpperCase` are modelled on the ASCII letters only; Unicode case mapping is not modelled.
- Text.IsWhitespace: it covers the common white-space characters, not every Unicode space separator that `trim` removes.
- Text.LexLess: string `<` and `.sort()` compare UTF-16 code units, while the model compares code points. The two agree on the digits, dashes, colons and spaces of dates and times.
- The `nameMap` lookup in `formatCourierName` is a map lookup; JavaScript prototype keys such as "constructor" are not modelled.
- OrderPage.OrderPageModel.SubmitPickup: the handler's `if (!createdWaybillId) return` is not a branch of the model; the pickup form is drawn only after a successful order, and `Valid` records that a successful order always has a non-empty waybill.
- OrdersHistory.StatusBadge: an inherited member found by the lookup is named (`InheritedStyle`), but its string form in the class attribute is not modelled.
- OrderPage.OrderRequest: its own contract only states the non-zero pricing id; the full content of a sent request is stated by `OrderPage.SentRequestWellFormed`.
- MaterialsPage.UpdateQuantity: its own contract only bounds the length and states positivity. What each line becomes is stated by `UpdateQuantityMembers`, `UpdateQuantityOfLine`, `UpdateQuantityIds`, `UpdateQuantityAppend` and `UpdateQuantityOthers`.
- MaterialsPage.Incremented: its own contract only keeps the length; its effect on lines is stated through `AddToCart`, `RemoveIncremented`, `SumIncremented` and `DecrementIncremented`.
- The pickup-interval is an integer; a non-numeric interval from the server is not modelled. `parseInt` returning `NaN` is `None`.
- A selected date that a later response no longer contains would make the source's render read a missing slot and throw. The model shows no details in that case.
- A response that arrives after the props changed again is not cancelled in the source. The model accepts it like any other.
- Missing optional fields of an address-book entry become "". The entry's city is taken as always present.
- The cart's count badge, the `min` attribute of the pickup date input and console logging are out of scope.
- The company checkbox of the order page is not part of this model. `AddressForm` renders no input for `isCompany`, `nip` or `companyName`, so the order page's checkbox handler is unreachable; the flag only comes from the loaded profile.
- `parseInt` results of `-0` and `0` are the same integer here. Digits beyond the exactly representable range of a double are read exactly rather than rounded.
- The browser's sanitisation of an `<input type="email">` value (line breaks removed, surrounding white space stripped) is not modelled. Only the validity test that blocks the submit of the register form is. The order page's email inputs sit outside any `<form>` and get no such check.
- TrackingPage.TrackingPath: the waybill is concatenated into the query string as typed; percent-encoding by `navigate` and decoding by `searchParams.get` are not modelled, so a waybill containing `&`, `#` or `+` is read back unchanged here.
