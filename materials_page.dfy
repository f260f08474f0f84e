/** The packaging-materials shop (src/components/MaterialsPage.tsx): a cart keyed
    by product id, its total, the category filter and paging of the catalogue,
    the "open checkout after login" hand-off and the demo checkout. */
module MaterialsPage {
  import opened Wrappers
  import opened Seqs
  import opened Text
  import opened MaterialsData
  import opened Storage

  const ItemsPerPage := 10
  const AllCategories := "all"

  // ==================================================================== cart

  /** The product ids on the cart's lines. */
  function Ids(cart: seq<CartItem>): set<string> {
    set i | 0 <= i < |cart| :: cart[i].product.id
  }

  predicate HasId(cart: seq<CartItem>, id: string) {
    id in Ids(cart)
  }

  /** No product id occurs on two cart lines. */
  predicate UniqueIds(cart: seq<CartItem>) {
    forall i, j :: 0 <= i < j < |cart| ==> cart[i].product.id != cart[j].product.id
  }

  predicate AllPositive(cart: seq<CartItem>) {
    forall i :: 0 <= i < |cart| ==> cart[i].quantity > 0
  }

  /** Every line whose product has `id` gets one more unit. */
  function Incremented(cart: seq<CartItem>, id: string): (r: seq<CartItem>)
    ensures |r| == |cart|
  {
    seq(|cart|, i requires 0 <= i < |cart| =>
      if cart[i].product.id == id then cart[i].(quantity := cart[i].quantity + 1) else cart[i])
  }

  /** `addToCart(product)`. */
  function AddToCart(cart: seq<CartItem>, p: MaterialProduct): (r: seq<CartItem>)
    ensures HasId(cart, p.id) ==> |r| == |cart|
    ensures HasId(cart, p.id) ==>
              forall i :: 0 <= i < |r| ==>
                r[i].product == cart[i].product
                && r[i].quantity == cart[i].quantity + (if cart[i].product.id == p.id then 1 else 0)
    ensures !HasId(cart, p.id) ==> r == cart + [CartItem(p, 1)]
    ensures HasId(r, p.id)
    ensures UniqueIds(cart) ==> UniqueIds(r)
    ensures AllPositive(cart) ==> AllPositive(r)
  {
    if HasId(cart, p.id) then
      var r := Incremented(cart, p.id);
      var k :| 0 <= k < |cart| && cart[k].product.id == p.id;
      assert r[k].product.id == p.id;
      r
    else
      var r := cart + [CartItem(p, 1)];
      assert r[|cart|].product.id == p.id;
      r
  }

  /** One line after `updateQuantity(productId, delta)` maps it: the matching
      line moves by `delta`, never below zero. */
  function Adjusted(item: CartItem, id: string, delta: int): CartItem {
    if item.product.id == id then item.(quantity := Max(0, item.quantity + delta)) else item
  }

  /** `updateQuantity(productId, delta)`: the map of `Adjusted` followed by the
      filter that drops lines whose quantity is not positive, done in one pass. */
  function UpdateQuantity(cart: seq<CartItem>, id: string, delta: int): (r: seq<CartItem>)
    ensures |r| <= |cart|
    ensures AllPositive(r)
  {
    if cart == [] then []
    else
      var item := Adjusted(cart[0], id, delta);
      (if item.quantity > 0 then [item] else []) + UpdateQuantity(cart[1..], id, delta)
  }

  /** `updateQuantity` one line at a time: the first line, kept when it stays
      positive, then the rest. */
  lemma UpdateQuantityCons(cart: seq<CartItem>, id: string, delta: int)
    requires cart != []
    ensures var item := Adjusted(cart[0], id, delta);
            UpdateQuantity(cart, id, delta) ==
              (if item.quantity > 0 then [item] else []) + UpdateQuantity(cart[1..], id, delta)
  {
  }

  /** Lines of other products pass through `updateQuantity` untouched: each
      positive one is kept, and none is made up. */
  lemma {:induction false} UpdateQuantityMembers(cart: seq<CartItem>, id: string, delta: int, x: CartItem)
    requires x.product.id != id
    ensures x in UpdateQuantity(cart, id, delta) <==> x in cart && x.quantity > 0
  {
    if cart != [] {
      var item := Adjusted(cart[0], id, delta);
      var rest := UpdateQuantity(cart[1..], id, delta);
      UpdateQuantityCons(cart, id, delta);
      UpdateQuantityMembers(cart[1..], id, delta, x);
      assert x in cart <==> x == cart[0] || x in cart[1..] by {
        assert cart == [cart[0]] + cart[1..];
      }
      if item.quantity > 0 {
        assert x in [item] + rest <==> x == item || x in rest;
      }
    }
  }

  lemma IdsCons(cart: seq<CartItem>)
    requires cart != []
    ensures Ids(cart) == {cart[0].product.id} + Ids(cart[1..])
  {
    forall x | x in Ids(cart) ensures x in {cart[0].product.id} + Ids(cart[1..]) {
      var i :| 0 <= i < |cart| && cart[i].product.id == x;
      if i > 0 {
        assert cart[1..][i - 1] == cart[i];
      }
    }
    forall x | x in Ids(cart[1..]) ensures x in Ids(cart) {
      var i :| 0 <= i < |cart[1..]| && cart[1..][i].product.id == x;
      assert cart[i + 1] == cart[1..][i];
    }
  }

  lemma UniqueCons(cart: seq<CartItem>)
    requires cart != []
    ensures UniqueIds(cart) <==> UniqueIds(cart[1..]) && cart[0].product.id !in Ids(cart[1..])
  {
    if UniqueIds(cart) {
      assert UniqueIds(cart[1..]) by {
        forall i, j | 0 <= i < j < |cart[1..]| ensures cart[1..][i].product.id != cart[1..][j].product.id {
          assert cart[1..][i] == cart[i + 1] && cart[1..][j] == cart[j + 1];
        }
      }
      forall i | 0 <= i < |cart[1..]| ensures cart[1..][i].product.id != cart[0].product.id {
        assert cart[1..][i] == cart[i + 1];
      }
    } else if UniqueIds(cart[1..]) && cart[0].product.id !in Ids(cart[1..]) {
      forall i, j | 0 <= i < j < |cart| ensures cart[i].product.id != cart[j].product.id {
        assert cart[1..][j - 1] == cart[j];
        if i > 0 {
          assert cart[1..][i - 1] == cart[i];
        }
      }
    }
  }

  /** `updateQuantity` brings no new product into the cart, and keeps ids unique. */
  lemma {:induction false} UpdateQuantityIds(cart: seq<CartItem>, id: string, delta: int)
    ensures Ids(UpdateQuantity(cart, id, delta)) <= Ids(cart)
    ensures UniqueIds(cart) ==> UniqueIds(UpdateQuantity(cart, id, delta))
  {
    var r := UpdateQuantity(cart, id, delta);
    if cart == [] {
      assert r == [];
    } else {
      var item := Adjusted(cart[0], id, delta);
      var rest := UpdateQuantity(cart[1..], id, delta);
      UpdateQuantityIds(cart[1..], id, delta);
      IdsCons(cart);
      UniqueCons(cart);
      if item.quantity > 0 {
        assert r == [item] + rest;
        assert r[1..] == rest;
        IdsCons(r);
        UniqueCons(r);
      } else {
        assert r == rest;
      }
    }
  }

  /** The line with the product after `updateQuantity`: with ids unique, the
      product's quantity becomes `q + delta` when that stays positive, and the
      line disappears otherwise. */
  lemma {:induction false} UpdateQuantityOfLine(cart: seq<CartItem>, id: string, delta: int, k: int)
    requires UniqueIds(cart) && 0 <= k < |cart| && cart[k].product.id == id
    ensures cart[k].quantity + delta > 0 ==>
              CartItem(cart[k].product, cart[k].quantity + delta) in UpdateQuantity(cart, id, delta)
    ensures cart[k].quantity + delta <= 0 ==> !HasId(UpdateQuantity(cart, id, delta), id)
  {
    var r := UpdateQuantity(cart, id, delta);
    var rest := UpdateQuantity(cart[1..], id, delta);
    var item := Adjusted(cart[0], id, delta);
    UniqueCons(cart);
    if item.quantity > 0 {
      assert r == [item] + rest && r[1..] == rest;
      IdsCons(r);
    } else {
      assert r == rest;
    }
    if k == 0 {
      UpdateQuantityIds(cart[1..], id, delta);
    } else {
      assert cart[1..][k - 1] == cart[k];
      UpdateQuantityOfLine(cart[1..], id, delta, k - 1);
      IdsCons(cart);
    }
  }

  /** `removeFromCart(productId)` keeps the lines of every other product. */
  function OtherProduct(id: string): CartItem -> bool {
    (item: CartItem) => item.product.id != id
  }

  /** `removeFromCart(productId)`. */
  function RemoveFromCart(cart: seq<CartItem>, id: string): (r: seq<CartItem>)
    ensures !HasId(r, id)
    ensures forall x :: x in r ==> x in cart
    ensures forall x :: x in cart && x.product.id != id ==> x in r
    ensures IsSubsequence(r, cart)
  {
    var r := Filter(OtherProduct(id), cart);
    FilterIsSubsequence(OtherProduct(id), cart);
    assert forall i :: 0 <= i < |r| ==> OtherProduct(id)(r[i]);
    r
  }

  /** Removal keeps every other line as many times as it occurred. */
  lemma RemoveFromCartKeepsCount(cart: seq<CartItem>, id: string, x: CartItem)
    requires x.product.id != id
    ensures multiset(RemoveFromCart(cart, id))[x] == multiset(cart)[x]
  {
    FilterCount(OtherProduct(id), cart, x);
  }

  /** Adding a product and removing it again is the same as removing it. */
  lemma RemoveAfterAdd(cart: seq<CartItem>, p: MaterialProduct)
    ensures RemoveFromCart(AddToCart(cart, p), p.id) == RemoveFromCart(cart, p.id)
  {
    var keep := OtherProduct(p.id);
    if HasId(cart, p.id) {
      RemoveIncremented(cart, p.id);
    } else {
      FilterAppend(keep, cart, [CartItem(p, 1)]);
      assert Filter(keep, [CartItem(p, 1)]) == [];
      assert Filter(keep, cart) + [] == Filter(keep, cart);
    }
  }

  lemma {:induction false} RemoveIncremented(cart: seq<CartItem>, id: string)
    ensures Filter(OtherProduct(id), Incremented(cart, id)) == Filter(OtherProduct(id), cart)
  {
    if cart != [] {
      RemoveIncremented(cart[1..], id);
      assert Incremented(cart, id)[1..] == Incremented(cart[1..], id);
      assert Incremented(cart, id)[0].product.id == cart[0].product.id;
    }
  }

  /** Adding a product and taking one unit away restores a cart whose lines
      have distinct ids and positive quantities. */
  lemma UpdateAfterAdd(cart: seq<CartItem>, p: MaterialProduct)
    requires UniqueIds(cart) && AllPositive(cart)
    ensures UpdateQuantity(AddToCart(cart, p), p.id, -1) == cart
  {
    if HasId(cart, p.id) {
      DecrementIncremented(cart, p.id);
    } else {
      DecrementAppended(cart, p);
    }
  }

  lemma {:induction false} DecrementIncremented(cart: seq<CartItem>, id: string)
    requires AllPositive(cart)
    ensures UpdateQuantity(Incremented(cart, id), id, -1) == cart
  {
    if cart != [] {
      var inc := Incremented(cart, id);
      IncrementedCons(cart, id);
      AllPositiveTail(cart);
      DecrementIncremented(cart[1..], id);
      assert Adjusted(inc[0], id, -1) == cart[0];
      UpdateQuantityKeeps(inc, id, -1);
      assert cart == [cart[0]] + cart[1..];
    }
  }

  lemma AllPositiveTail(cart: seq<CartItem>)
    requires cart != [] && AllPositive(cart)
    ensures cart[0].quantity > 0 && AllPositive(cart[1..])
  {
    forall j | 0 <= j < |cart| - 1 ensures cart[1..][j].quantity > 0 {
      assert cart[1..][j] == cart[j + 1];
    }
  }

  /** A first line that stays positive is kept in front of the rest. */
  lemma UpdateQuantityKeeps(cart: seq<CartItem>, id: string, delta: int)
    requires cart != [] && Adjusted(cart[0], id, delta).quantity > 0
    ensures UpdateQuantity(cart, id, delta) == [Adjusted(cart[0], id, delta)] + UpdateQuantity(cart[1..], id, delta)
  {
  }

  /** `Incremented` line by line: the first line, then the rest. */
  lemma IncrementedCons(cart: seq<CartItem>, id: string)
    requires cart != []
    ensures Incremented(cart, id)[0] ==
              (if cart[0].product.id == id then cart[0].(quantity := cart[0].quantity + 1) else cart[0])
    ensures Incremented(cart, id)[1..] == Incremented(cart[1..], id)
  {
  }

  lemma DecrementAppended(cart: seq<CartItem>, p: MaterialProduct)
    requires AllPositive(cart) && !HasId(cart, p.id)
    ensures UpdateQuantity(cart + [CartItem(p, 1)], p.id, -1) == cart
  {
    UpdateQuantityAppend(cart, [CartItem(p, 1)], p.id, -1);
    UpdateQuantityOthers(cart, p.id, -1);
    assert UpdateQuantity([CartItem(p, 1)], p.id, -1) == [];
  }

  /** `updateQuantity` works line by line, so it distributes over `+`. */
  lemma {:induction false} UpdateQuantityAppend(a: seq<CartItem>, b: seq<CartItem>, id: string, delta: int)
    ensures UpdateQuantity(a + b, id, delta) == UpdateQuantity(a, id, delta) + UpdateQuantity(b, id, delta)
  {
    if a == [] {
      assert a + b == b;
    } else {
      var item := Adjusted(a[0], id, delta);
      var head: seq<CartItem> := if item.quantity > 0 then [item] else [];
      assert (a + b)[0] == a[0];
      assert (a + b)[1..] == a[1..] + b;
      calc {
        UpdateQuantity(a + b, id, delta);
      == { UpdateQuantityCons(a + b, id, delta); }
        head + UpdateQuantity(a[1..] + b, id, delta);
      == { UpdateQuantityAppend(a[1..], b, id, delta); }
        head + (UpdateQuantity(a[1..], id, delta) + UpdateQuantity(b, id, delta));
      ==
        (head + UpdateQuantity(a[1..], id, delta)) + UpdateQuantity(b, id, delta);
      == { UpdateQuantityCons(a, id, delta); }
        UpdateQuantity(a, id, delta) + UpdateQuantity(b, id, delta);
      }
    }
  }

  /** A cart of positive lines without `id` is left as it is. */
  lemma {:induction false} UpdateQuantityOthers(cart: seq<CartItem>, id: string, delta: int)
    requires AllPositive(cart) && !HasId(cart, id)
    ensures UpdateQuantity(cart, id, delta) == cart
  {
    if cart != [] {
      var tail := cart[1..];
      IdsCons(cart);
      AllPositiveTail(cart);
      UpdateQuantityOthers(tail, id, delta);
      assert Adjusted(cart[0], id, delta) == cart[0];
      UpdateQuantityKeeps(cart, id, delta);
      assert cart == [cart[0]] + tail;
    }
  }

  // --------------------------------------------------------------- the total

  function LineTotal(item: CartItem): int {
    item.product.price * item.quantity
  }

  /** `cart.reduce((sum, item) => sum + price * quantity, 0)` from `acc`. */
  function Reduce(items: seq<CartItem>, acc: int): int {
    if items == [] then acc else Reduce(items[1..], acc + LineTotal(items[0]))
  }

  /** `cartTotal`, in grosze: the sum of price × quantity over the lines,
      whatever the order of summation, and 0 for an empty cart. */
  function CartTotal(cart: seq<CartItem>): (total: int)
    ensures total == Sum(cart)
    ensures cart == [] ==> total == 0
  {
    ReduceIsSum(cart, 0);
    Reduce(cart, 0)
  }

  /** The sum of the line totals, independently of the order of summation. */
  function Sum(cart: seq<CartItem>): int {
    if cart == [] then 0 else LineTotal(cart[0]) + Sum(cart[1..])
  }

  lemma {:induction false} ReduceIsSum(items: seq<CartItem>, acc: int)
    ensures Reduce(items, acc) == acc + Sum(items)
  {
    if items != [] {
      ReduceIsSum(items[1..], acc + LineTotal(items[0]));
    }
  }

  lemma {:induction false} SumAppend(a: seq<CartItem>, b: seq<CartItem>)
    ensures Sum(a + b) == Sum(a) + Sum(b)
  {
    if a != [] {
      assert (a + b)[1..] == a[1..] + b;
      SumAppend(a[1..], b);
    } else {
      assert a + b == b;
    }
  }

  lemma {:induction false} SumIncremented(cart: seq<CartItem>, id: string, k: int)
    requires UniqueIds(cart) && 0 <= k < |cart| && cart[k].product.id == id
    ensures Sum(Incremented(cart, id)) == Sum(cart) + cart[k].product.price
  {
    assert Incremented(cart, id)[1..] == Incremented(cart[1..], id);
    if k == 0 {
      assert Incremented(cart[1..], id) == cart[1..];
    } else {
      assert UniqueIds(cart[1..]);
      assert cart[1..][k - 1] == cart[k];
      SumIncremented(cart[1..], id, k - 1);
    }
  }

  /** Adding a product raises the total by its price: the price of the line
      already holding that id, or the new product's price for a new line. */
  lemma AddToCartTotal(cart: seq<CartItem>, p: MaterialProduct, k: int)
    requires UniqueIds(cart)
    ensures !HasId(cart, p.id) ==> CartTotal(AddToCart(cart, p)) == CartTotal(cart) + p.price
    ensures 0 <= k < |cart| && cart[k].product.id == p.id ==>
              CartTotal(AddToCart(cart, p)) == CartTotal(cart) + cart[k].product.price
  {
    if !HasId(cart, p.id) {
      SumAppend(cart, [CartItem(p, 1)]);
    } else if 0 <= k < |cart| && cart[k].product.id == p.id {
      SumIncremented(cart, p.id, k);
    }
  }

  // ======================================================= catalogue paging

  function InCategory(active: string): MaterialProduct -> bool {
    (p: MaterialProduct) => CategoryId(p.category) == active
  }

  /** `filteredProducts`. */
  function FilteredProducts(products: seq<MaterialProduct>, active: string): (r: seq<MaterialProduct>)
    ensures active == AllCategories ==> r == products
    ensures active != AllCategories ==> forall i :: 0 <= i < |r| ==> CategoryId(r[i].category) == active
    ensures active != AllCategories ==>
              forall p :: p in products && CategoryId(p.category) == active ==> p in r
    ensures forall p :: p in r ==> p in products
    ensures IsSubsequence(r, products)
  {
    if active == AllCategories then
      IsSubsequenceRefl(products);
      products
    else
      var r := Filter(InCategory(active), products);
      FilterIsSubsequence(InCategory(active), products);
      assert forall i :: 0 <= i < |r| ==> InCategory(active)(r[i]);
      r
  }

  lemma {:induction false} IsSubsequenceRefl<T>(s: seq<T>)
    ensures IsSubsequence(s, s)
  {
    if s != [] {
      IsSubsequenceRefl(s[1..]);
    }
  }

  /** `paginatedProducts`: elements [page·10, page·10 + 10) of the list. */
  function PageSlice<T>(items: seq<T>, page: nat): (r: seq<T>)
    ensures |r| <= ItemsPerPage
    ensures page * ItemsPerPage <= |items| ==>
              r == items[page * ItemsPerPage .. Min(page * ItemsPerPage + ItemsPerPage, |items|)]
    ensures |items| <= page * ItemsPerPage ==> r == []
  {
    JsSlice(items, page * ItemsPerPage, page * ItemsPerPage + ItemsPerPage)
  }

  /** `Math.ceil(n / ITEMS_PER_PAGE)`. */
  function TotalPages(n: nat): (r: nat)
    ensures r * ItemsPerPage >= n
    ensures r > 0 ==> (r - 1) * ItemsPerPage < n
  {
    (n + ItemsPerPage - 1) / ItemsPerPage
  }

  /** Element `i` of the list is shown on page `i / 10`, at position `i % 10`,
      and that page is one of the `totalPages` pages. */
  lemma ElementOnItsPage<T>(items: seq<T>, i: int)
    requires 0 <= i < |items|
    ensures i / ItemsPerPage < TotalPages(|items|)
    ensures i % ItemsPerPage < |PageSlice(items, i / ItemsPerPage)|
    ensures PageSlice(items, i / ItemsPerPage)[i % ItemsPerPage] == items[i]
  {
    var page := i / ItemsPerPage;
    assert page * ItemsPerPage + i % ItemsPerPage == i;
  }

  /** The catalogue fits on one page whatever the category: 5 products. */
  lemma CatalogueOnePage(active: string)
    ensures TotalPages(|MockProducts()|) == 1
    ensures TotalPages(|FilteredProducts(MockProducts(), active)|) <= 1
  {
  }

  /** The previous and next page buttons (rendered only with more than one
      page; "previous" disabled on the first page, "next" on the last). */
  function PrevPage(page: int): int { Max(0, page - 1) }
  function NextPage(page: int, totalPages: int): int { Min(totalPages - 1, page + 1) }

  /** The page buttons keep the page within [0, totalPages - 1]. */
  lemma PageButtonsInRange(page: int, totalPages: int)
    requires 0 <= page < totalPages
    ensures 0 <= PrevPage(page) <= page && PrevPage(page) < totalPages
    ensures page <= NextPage(page, totalPages) < totalPages
    ensures page > 0 ==> PrevPage(page) == page - 1
    ensures page < totalPages - 1 ==> NextPage(page, totalPages) == page + 1
  {
  }

  // ================================================================ checkout

  /** The delivery form pre-filled from the stored user: the first non-empty
      of company name or name, street or address, zip or zip code, and city. */
  function DeliveryFromUser(user: Option<StoredUser>): (d: DeliveryData)
    ensures user.None? ==> d == DeliveryData("", "", "", "")
    ensures user.Some? ==> d.companyName == Or(user.value.companyName, user.value.name)
    ensures user.Some? && user.value.companyName == "" ==> d.companyName == user.value.name
    ensures user.Some? ==> d.street == Or(user.value.street, user.value.address)
    ensures user.Some? ==> d.zip == Or(user.value.zip, user.value.zipCode)
    ensures user.Some? ==> d.city == user.value.city
  {
    match user
    case None => DeliveryData("", "", "", "")
    case Some(u) =>
      DeliveryData(
        companyName := Or(u.companyName, Or(u.name, "")),
        street := Or(u.street, Or(u.address, "")),
        zip := Or(u.zip, Or(u.zipCode, "")),
        city := Or(u.city, ""))
  }

  /** `MAT-` followed by the last six digits of the millisecond clock. */
  function MaterialOrderId(now: nat): (id: string)
    ensures |id| <= 10 && StartsWith(id, "MAT-")
    ensures forall i :: 4 <= i < |id| ==> IsDigit(id[i])
    ensures now >= 100000 ==> |id| == 10
  {
    var digits := DecimalString(now);
    var tail := JsSlice(digits, -6, |digits|);
    assert forall i :: 0 <= i < |tail| ==> IsDigit(tail[i]) by {
      if |digits| > 6 {
        assert tail == digits[|digits| - 6..];
      } else {
        assert tail == digits;
      }
    }
    assert now >= 100000 ==> |digits| >= 6 by {
      if now >= 100000 {
        ShortNumber(now);
      }
    }
    "MAT-" + tail
  }

  /** A number with fewer than six digits is below 100000. */
  lemma ShortNumber(n: nat)
    requires n >= 100000
    ensures |DecimalString(n)| >= 6
  {
    var s := DecimalString(n);
    DecimalStringRoundTrip(n);
    DigitsBound(s);
    assert Pow10(5) == 100000;
    if |s| < 6 {
      Pow10Monotone(|s|, 5);
    }
  }

  lemma {:induction false} Pow10Monotone(a: nat, b: nat)
    requires a <= b
    ensures Pow10(a) <= Pow10(b)
  {
    if a < b {
      Pow10Monotone(a, b - 1);
    }
  }

  lemma {:induction false} DigitsBound(s: string)
    requires forall i :: 0 <= i < |s| ==> IsDigit(s[i])
    ensures DigitsValue(s) < Pow10(|s|)
  {
    if s != [] {
      DigitsBound(s[..|s| - 1]);
    }
  }

  /** The delivery fields; each input has its own `onChange`. */
  datatype DeliveryField = CompanyName | Street | Zip | City

  function WithDeliveryField(d: DeliveryData, f: DeliveryField, value: string): (r: DeliveryData)
    ensures DeliveryFieldOf(r, f) == value
    ensures forall g :: g != f ==> DeliveryFieldOf(r, g) == DeliveryFieldOf(d, g)
  {
    match f
    case CompanyName => d.(companyName := value)
    case Street => d.(street := value)
    case Zip => d.(zip := value)
    case City => d.(city := value)
  }

  function DeliveryFieldOf(d: DeliveryData, f: DeliveryField): string {
    match f
    case CompanyName => d.companyName
    case Street => d.street
    case Zip => d.zip
    case City => d.city
  }

  /** All four delivery inputs are `required`: the browser submits the form
      only when none is empty. */
  predicate DeliveryComplete(d: DeliveryData) {
    d.companyName != "" && d.street != "" && d.zip != "" && d.city != ""
  }

  // ==================================================================== page

  class MaterialsPageModel {
    const storage: LocalStorage
    /** The products on offer (`MOCK_PRODUCTS`). */
    const catalogue: seq<MaterialProduct>
    var cart: seq<CartItem>
    var activeCategory: string
    var isCheckoutOpen: bool
    var isOrderSuccess: bool
    var currentPage: int
    var deliveryData: DeliveryData
    /** The route the page last navigated to. */
    var navigatedTo: Option<string>
    /** The 2.5 s timer `confirmOrder` starts has not fired yet. */
    var orderTimerPending: bool

    function Filtered(): seq<MaterialProduct>
      reads this
    {
      FilteredProducts(catalogue, activeCategory)
    }

    function Pages(): nat
      reads this
    {
      TotalPages(|Filtered()|)
    }

    function Paginated(): seq<MaterialProduct>
      reads this
      requires currentPage >= 0
    {
      PageSlice(Filtered(), currentPage)
    }

    /** The page is never negative, and lies within the page count whenever
        it is not the first page. */
    predicate Valid()
      reads this
    {
      0 <= currentPage && (currentPage == 0 || currentPage < Pages())
    }

    /** The state on first render: the cart read back from `migiem_cart`
        (empty when there is none), category "all", page 0, dialogs closed. */
    constructor(storage: LocalStorage)
      ensures this.storage == storage && catalogue == MockProducts()
      ensures cart == storage.savedCart.GetOr([])
      ensures activeCategory == AllCategories && currentPage == 0
      ensures !isCheckoutOpen && !isOrderSuccess && !orderTimerPending
      ensures deliveryData == DeliveryData("", "", "", "") && navigatedTo == None
      ensures Valid()
    {
      this.storage := storage;
      catalogue := MockProducts();
      cart := storage.savedCart.GetOr([]);
      activeCategory := AllCategories;
      isCheckoutOpen := false;
      isOrderSuccess := false;
      currentPage := 0;
      deliveryData := DeliveryData("", "", "", "");
      navigatedTo := None;
      orderTimerPending := false;
    }

    /** The category and the page are as they were. */
    twostate predicate PageKept()
      reads this
    {
      activeCategory == old(activeCategory) && currentPage == old(currentPage)
    }

    /** The checkout dialog and its form are as they were. */
    twostate predicate CheckoutKept()
      reads this
    {
      isCheckoutOpen == old(isCheckoutOpen) && deliveryData == old(deliveryData)
    }

    /** The success notice, its timer and the last navigation are as they were. */
    twostate predicate OrderFlowKept()
      reads this
    {
      isOrderSuccess == old(isOrderSuccess) && orderTimerPending == old(orderTimerPending)
      && navigatedTo == old(navigatedTo)
    }

    /** The storage entries other than the saved cart are as they were. */
    twostate predicate OtherEntriesKept()
      reads this, storage
    {
      storage.flags == old(storage.flags) && storage.user == old(storage.user)
      && storage.mockOrders == old(storage.mockOrders)
    }

    /** The effect that saves the cart after every change. */
    method SaveCart()
      modifies storage
      ensures storage.savedCart == Some(cart)
      ensures OtherEntriesKept()
    {
      storage.savedCart := Some(cart);
    }

    /** The effects that run after the first render: the cart is saved, a
        checkout postponed by the login redirect is reopened when the flag is
        set, the user is logged in and the cart is not empty (only then is the
        flag consumed), and the category effect puts the page at 0. */
    method Mount()
      requires Valid()
      modifies this, storage
      ensures Valid()
      ensures var resume := OpenCheckoutKey in old(storage.flags) && old(storage.flags)[OpenCheckoutKey] != ""
                            && old(storage.LoggedIn()) && |old(cart)| > 0;
              (resume ==> isCheckoutOpen && deliveryData == DeliveryFromUser(storage.user)
                          && storage.flags == old(storage.flags) - {OpenCheckoutKey})
              && (!resume ==> CheckoutKept() && storage.flags == old(storage.flags))
      ensures currentPage == 0 && activeCategory == old(activeCategory)
      ensures cart == old(cart) && storage.savedCart == Some(cart) && OrderFlowKept()
      ensures storage.user == old(storage.user) && storage.mockOrders == old(storage.mockOrders)
    {
      SaveCart();
      var shouldOpen := OpenCheckoutKey in storage.flags && storage.flags[OpenCheckoutKey] != "";
      if shouldOpen && storage.LoggedIn() && |cart| > 0 {
        CheckoutClick();
        storage.flags := storage.flags - {OpenCheckoutKey};
      }
      currentPage := 0;
    }

    /** The "+" on a product card. */
    method AddProduct(p: MaterialProduct)
      modifies this, storage
      ensures cart == AddToCart(old(cart), p)
      ensures storage.savedCart == Some(cart) && OtherEntriesKept()
      ensures PageKept() && CheckoutKept() && OrderFlowKept()
    {
      cart := AddToCart(cart, p);
      SaveCart();
    }

    /** The "+" and "-" on a cart line. */
    method ChangeQuantity(id: string, delta: int)
      modifies this, storage
      ensures cart == UpdateQuantity(old(cart), id, delta)
      ensures storage.savedCart == Some(cart) && OtherEntriesKept()
      ensures PageKept() && CheckoutKept() && OrderFlowKept()
    {
      cart := UpdateQuantity(cart, id, delta);
      SaveCart();
    }

    /** The bin on a cart line. */
    method RemoveProduct(id: string)
      modifies this, storage
      ensures cart == RemoveFromCart(old(cart), id)
      ensures storage.savedCart == Some(cart) && OtherEntriesKept()
      ensures PageKept() && CheckoutKept() && OrderFlowKept()
    {
      cart := RemoveFromCart(cart, id);
      SaveCart();
    }

    /** A category button; the reset-page effect runs only when the category
        actually changes. */
    method SelectCategory(c: string)
      requires Valid()
      modifies this
      ensures Valid()
      ensures activeCategory == c
      ensures currentPage == (if c != old(activeCategory) then 0 else old(currentPage))
      ensures cart == old(cart) && CheckoutKept() && OrderFlowKept()
    {
      if c != activeCategory {
        activeCategory := c;
        currentPage := 0;
      }
    }

    /** The "previous page" button. */
    method ClickPrev()
      requires Valid()
      modifies this
      ensures Valid()
      ensures Pages() > 1 && old(currentPage) != 0 ==> currentPage == old(currentPage) - 1
      ensures !(Pages() > 1 && old(currentPage) != 0) ==> currentPage == old(currentPage)
      ensures activeCategory == old(activeCategory) && cart == old(cart)
      ensures CheckoutKept() && OrderFlowKept()
    {
      if Pages() > 1 && currentPage != 0 {
        currentPage := PrevPage(currentPage);
      }
    }

    /** The "next page" button. */
    method ClickNext()
      requires Valid()
      modifies this
      ensures Valid()
      ensures Pages() > 1 && old(currentPage) != Pages() - 1 ==> currentPage == old(currentPage) + 1
      ensures !(Pages() > 1 && old(currentPage) != Pages() - 1) ==> currentPage == old(currentPage)
      ensures activeCategory == old(activeCategory) && cart == old(cart)
      ensures CheckoutKept() && OrderFlowKept()
    {
      if Pages() > 1 && currentPage != Pages() - 1 {
        currentPage := NextPage(currentPage, Pages());
      }
    }

    /** `handleCheckoutClick`: a logged-out user is sent to the login page with
        the resume flag set and the checkout stays closed; a logged-in user gets
        the checkout with the delivery form pre-filled. */
    method CheckoutClick()
      modifies this, storage
      ensures !old(storage.LoggedIn()) ==>
                storage.flags == old(storage.flags)[OpenCheckoutKey := "true"]
                && navigatedTo == Some("/login") && CheckoutKept()
      ensures old(storage.LoggedIn()) ==>
                isCheckoutOpen && deliveryData == DeliveryFromUser(storage.user)
                && storage.flags == old(storage.flags) && navigatedTo == old(navigatedTo)
      ensures cart == old(cart) && PageKept()
      ensures isOrderSuccess == old(isOrderSuccess) && orderTimerPending == old(orderTimerPending)
      ensures storage.savedCart == old(storage.savedCart) && storage.user == old(storage.user)
      ensures storage.mockOrders == old(storage.mockOrders)
    {
      if !storage.LoggedIn() {
        storage.flags := storage.flags[OpenCheckoutKey := "true"];
        navigatedTo := Some("/login");
        return;
      }
      deliveryData := DeliveryFromUser(storage.user);
      isCheckoutOpen := true;
    }

    /** The checkout button, disabled while the cart is empty. */
    method PressCheckout()
      modifies this, storage
      ensures |old(cart)| == 0 ==>
                CheckoutKept() && navigatedTo == old(navigatedTo) && storage.flags == old(storage.flags)
      ensures |old(cart)| > 0 && old(storage.LoggedIn()) ==>
                isCheckoutOpen && deliveryData == DeliveryFromUser(old(storage.user))
                && navigatedTo == old(navigatedTo) && storage.flags == old(storage.flags)
      ensures |old(cart)| > 0 && !old(storage.LoggedIn()) ==>
                storage.flags == old(storage.flags)[OpenCheckoutKey := "true"]
                && navigatedTo == Some("/login") && CheckoutKept()
      ensures cart == old(cart) && PageKept()
      ensures isOrderSuccess == old(isOrderSuccess) && orderTimerPending == old(orderTimerPending)
      ensures storage.savedCart == old(storage.savedCart) && storage.user == old(storage.user)
      ensures storage.mockOrders == old(storage.mockOrders)
    {
      if |cart| > 0 {
        CheckoutClick();
      }
    }

    /** Typing into one delivery input. */
    method EditDelivery(f: DeliveryField, value: string)
      modifies this
      ensures deliveryData == WithDeliveryField(old(deliveryData), f, value)
      ensures cart == old(cart) && isCheckoutOpen == old(isCheckoutOpen)
      ensures PageKept() && OrderFlowKept()
    {
      deliveryData := WithDeliveryField(deliveryData, f, value);
    }

    /** Closing the checkout dialog. */
    method CloseCheckout()
      modifies this
      ensures !isCheckoutOpen && cart == old(cart) && deliveryData == old(deliveryData)
      ensures PageKept() && OrderFlowKept()
    {
      isCheckoutOpen := false;
    }

    /** `confirmOrder`: the order goes to the front of `mock_orders` with the
        cart, its total and the delivery form, the saved cart is removed and
        the success notice shows until the timer fires. The form submits only
        while the dialog is open and every required input is filled. */
    method ConfirmOrder(now: nat, isoDate: string)
      modifies this, storage
      ensures var submitted := old(isCheckoutOpen) && DeliveryComplete(old(deliveryData));
              (submitted ==>
                 !isCheckoutOpen && isOrderSuccess && orderTimerPending
                 && storage.mockOrders ==
                      [MaterialOrder(MaterialOrderId(now), isoDate, "PAID", CartTotal(old(cart)), "material",
                                     old(cart), "Sklep MIGIEM.EU", "Magazyn Centralny", old(deliveryData))]
                      + old(storage.mockOrders)
                 && storage.savedCart == None)
              && (!submitted ==>
                    isCheckoutOpen == old(isCheckoutOpen) && isOrderSuccess == old(isOrderSuccess)
                    && orderTimerPending == old(orderTimerPending)
                    && storage.mockOrders == old(storage.mockOrders)
                    && storage.savedCart == old(storage.savedCart))
      ensures cart == old(cart) && deliveryData == old(deliveryData) && navigatedTo == old(navigatedTo)
      ensures PageKept() && storage.flags == old(storage.flags) && storage.user == old(storage.user)
    {
      if !isCheckoutOpen || !DeliveryComplete(deliveryData) {
        return;
      }
      isCheckoutOpen := false;
      isOrderSuccess := true;
      var order := MaterialOrder(
        id := MaterialOrderId(now),
        date := isoDate,
        status := "PAID",
        price := CartTotal(cart),
        kind := "material",
        items := cart,
        senderName := "Sklep MIGIEM.EU",
        senderCity := "Magazyn Centralny",
        receiver := deliveryData);
      storage.mockOrders := [order] + storage.mockOrders;
      storage.savedCart := None;
      orderTimerPending := true;
    }

    /** The 2.5 s timer of `confirmOrder`: the cart is emptied (and saved empty
        by the save effect), the notice hides and the page goes to /orders. */
    method OrderTimerFires()
      requires orderTimerPending
      modifies this, storage
      ensures cart == [] && storage.savedCart == Some([])
      ensures !isOrderSuccess && !orderTimerPending && navigatedTo == Some("/orders")
      ensures PageKept() && CheckoutKept() && OtherEntriesKept()
    {
      cart := [];
      SaveCart();
      isOrderSuccess := false;
      navigatedTo := Some("/orders");
      orderTimerPending := false;
    }
  }
}
