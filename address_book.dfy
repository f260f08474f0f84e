/** The address book dialog (src/components/AddressBookModal.tsx): loading the
    saved addresses when it opens, the case-insensitive search over them, and
    turning a chosen entry into the order page's address form. */
module AddressBook {
  import opened Wrappers
  import opened Seqs
  import opened Text
  import opened Api
  import OrderPage

  /** The city of a saved address. */
  datatype BookCity = BookCity(zipCode: string, cityName: string)

  /** An entry of the book as `getAddressBook` returns it. The name, surname and
      company name may be missing (the search reads them with `?.`). */
  datatype AddressBookItem = AddressBookItem(
    id: int,
    name: Option<string>,
    surname: Option<string>,
    companyName: Option<string>,
    email: string,
    phone: string,
    street: string,
    houseNr: string,
    placeNr: string,
    city: BookCity,
    nip: string)

  // ================================================================= select

  /** `handleSelect`'s conversion to the form's shape. A missing text field is
      carried as "". */
  function ToAddressData(item: AddressBookItem): (a: AddressData)
    ensures a.houseNumber == item.houseNr && a.apartmentNumber == item.placeNr
    ensures a.postalCode == item.city.zipCode && a.city == item.city.cityName
    ensures a.countryCode == "PL"
    ensures a.isCompany <==> item.companyName.Some? && item.companyName.value != ""
    ensures a.name == item.name.GetOr("") && a.surname == item.surname.GetOr("")
    ensures a.companyName == item.companyName.GetOr("")
    ensures a.email == item.email && a.phone == item.phone && a.street == item.street
    ensures a.nip == item.nip
  {
    AddressData(
      name := item.name.GetOr(""),
      surname := item.surname.GetOr(""),
      companyName := item.companyName.GetOr(""),
      email := item.email,
      phone := item.phone,
      street := item.street,
      houseNumber := item.houseNr,
      apartmentNumber := item.placeNr,
      postalCode := item.city.zipCode,
      city := item.city.cityName,
      countryCode := "PL",
      isCompany := item.companyName.Some? && item.companyName.value != "",
      nip := item.nip)
  }

  /** A saved company without a NIP, chosen as the sender of an otherwise
      complete order, is stopped by the NIP check. */
  lemma CompanyWithoutNipBlocked(item: AddressBookItem, receiver: AddressData, pricingId: Option<int>)
    requires item.companyName.Some? && item.companyName.value != "" && item.nip == ""
    requires OrderPage.AddressesFilled(ToAddressData(item), receiver)
    ensures OrderPage.OrderGuard(ToAddressData(item), receiver, pricingId) == Some(OrderPage.MissingNip)
  {
  }

  /** A saved postal code reaches `sendPackage` as its digits only. */
  lemma SelectedPostalCodeSent(item: AddressBookItem)
    ensures OrderPage.PrepareAddressData(ToAddressData(item)).postalCode == DigitsOnly(item.city.zipCode)
  {
  }

  // ================================================================= search

  /** `x?.toLowerCase().includes(search)`: false when `x` is missing. */
  predicate FieldMatches(x: Option<string>, search: string) {
    x.Some? && Includes(ToLower(x.value), search)
  }

  /** One entry matches when the lower-cased term occurs in its lower-cased
      name, surname, company name or city name. */
  predicate Matches(item: AddressBookItem, term: string) {
    var search := ToLower(term);
    FieldMatches(item.name, search) || FieldMatches(item.surname, search)
    || FieldMatches(item.companyName, search) || Includes(ToLower(item.city.cityName), search)
  }

  /** `filteredAddresses`. */
  function FilteredAddresses(addresses: seq<AddressBookItem>, term: string): (r: seq<AddressBookItem>)
    ensures forall x <- r :: x in addresses && Matches(x, term)
    ensures forall x <- addresses :: Matches(x, term) ==> x in r
    ensures IsSubsequence(r, addresses)
  {
    FilterIsSubsequence((x: AddressBookItem) => Matches(x, term), addresses);
    Filter((x: AddressBookItem) => Matches(x, term), addresses)
  }

  /** Every string contains the empty string. */
  lemma IncludesEmpty(s: string)
    ensures Includes(s, "")
  {
    assert s[..0] == "";
  }

  /** With an empty search box the whole book is listed, in its order. */
  lemma EmptySearchListsAll(addresses: seq<AddressBookItem>)
    ensures FilteredAddresses(addresses, "") == addresses
  {
    var p := (x: AddressBookItem) => Matches(x, "");
    forall x | x in addresses ensures p(x) {
      IncludesEmpty(ToLower(x.city.cityName));
    }
    FilterAllPass(p, addresses);
  }

  /** The search ignores the case the term was typed in. */
  lemma SearchIgnoresCase(addresses: seq<AddressBookItem>, term: string)
    ensures FilteredAddresses(addresses, ToUpper(term)) == FilteredAddresses(addresses, term)
  {
    ToLowerOfUpper(term);
    var p := (x: AddressBookItem) => Matches(x, ToUpper(term));
    var q := (x: AddressBookItem) => Matches(x, term);
    FilterAgree(p, q, addresses);
  }

  // ================================================================ dialog

  /** What the dialog told its parent, in order. */
  datatype ParentCall = Selected(address: AddressData) | Closed

  class AddressBookModel {
    var isOpen: bool
    var addresses: seq<AddressBookItem>
    var loading: bool
    var searchTerm: string
    /** Number of `getAddressBook` calls made. */
    var fetches: nat
    /** How many of them have settled; closing and reopening the dialog can
        start a call while an earlier one is still pending. */
    var settled: nat
    /** Calls of `onSelect` and `onClose`, oldest first. */
    var parentCalls: seq<ParentCall>

    /** No more calls settle than were made, and while loading the latest
        one is still pending. */
    predicate Valid()
      reads this
    {
      settled <= fetches && (loading ==> settled < fetches)
    }

    /** The entries on screen: none while loading (a spinner instead). */
    function Shown(): (r: seq<AddressBookItem>)
      reads this
      ensures loading ==> r == []
      ensures !loading ==> r == FilteredAddresses(addresses, searchTerm)
    {
      if loading then [] else FilteredAddresses(addresses, searchTerm)
    }

    /** The first render; an open dialog starts loading at once. */
    constructor(isOpen: bool)
      ensures this.isOpen == isOpen && addresses == [] && searchTerm == "" && parentCalls == []
      ensures loading == isOpen && fetches == (if isOpen then 1 else 0) && settled == 0
      ensures Valid()
    {
      this.isOpen := isOpen;
      addresses := [];
      searchTerm := "";
      parentCalls := [];
      loading := isOpen;
      fetches := if isOpen then 1 else 0;
      settled := 0;
    }

    /** A new `isOpen` prop: the effect fetches when it turns true. */
    method SetOpen(open: bool)
      requires Valid()
      modifies this
      ensures Valid()
      ensures isOpen == open && settled == old(settled)
      ensures !old(isOpen) && open ==> loading && fetches == old(fetches) + 1
      ensures !(!old(isOpen) && open) ==> loading == old(loading) && fetches == old(fetches)
      ensures addresses == old(addresses) && searchTerm == old(searchTerm) && parentCalls == old(parentCalls)
    {
      if !isOpen && open {
        loading := true;
        fetches := fetches + 1;
      }
      isOpen := open;
    }

    /** `fetchAddresses` after one of the pending `getAddressBook` calls
        settled: the list is replaced on success and kept on failure; loading
        ends either way, even while a later call is still pending. */
    method ReceiveAddresses(result: Outcome<seq<AddressBookItem>>)
      requires Valid() && settled < fetches
      modifies this
      ensures Valid()
      ensures !loading && settled == old(settled) + 1
      ensures result.Resolved? ==> addresses == result.value
      ensures result.Rejected? ==> addresses == old(addresses)
      ensures searchTerm == old(searchTerm) && isOpen == old(isOpen) && parentCalls == old(parentCalls)
      ensures fetches == old(fetches)
    {
      if result.Resolved? {
        addresses := result.value;
      }
      loading := false;
      settled := settled + 1;
    }

    method SetSearchTerm(term: string)
      requires Valid()
      modifies this
      ensures Valid()
      ensures searchTerm == term && settled == old(settled)
      ensures addresses == old(addresses) && loading == old(loading) && parentCalls == old(parentCalls)
      ensures isOpen == old(isOpen) && fetches == old(fetches)
    {
      searchTerm := term;
    }

    /** A click on a listed entry: `onSelect` with the converted address, then
        `onClose`. */
    method Select(item: AddressBookItem)
      requires Valid() && isOpen && item in Shown()
      modifies this
      ensures Valid() && settled == old(settled)
      ensures parentCalls == old(parentCalls) + [Selected(ToAddressData(item)), Closed]
      ensures addresses == old(addresses) && searchTerm == old(searchTerm) && loading == old(loading)
      ensures isOpen == old(isOpen) && fetches == old(fetches)
    {
      var formatted := ToAddressData(item);
      parentCalls := parentCalls + [Selected(formatted)];
      parentCalls := parentCalls + [Closed];
    }

    /** The close button, the cancel button. */
    method Close()
      requires Valid() && isOpen
      modifies this
      ensures Valid() && settled == old(settled)
      ensures parentCalls == old(parentCalls) + [Closed]
      ensures addresses == old(addresses) && searchTerm == old(searchTerm) && loading == old(loading)
      ensures isOpen == old(isOpen) && fetches == old(fetches)
    {
      parentCalls := parentCalls + [Closed];
    }
  }
}
