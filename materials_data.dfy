/** The packaging-materials catalogue (src/data/materialsData.ts). Prices are
    integer grosze (1/100 PLN). */
module MaterialsData {
  import opened Wrappers

  datatype Category = Packaging | Tape | Labels | Other

  /** The string a category is stored and compared as. */
  function CategoryId(c: Category): string {
    match c
    case Packaging => "packaging"
    case Tape => "tape"
    case Labels => "labels"
    case Other => "other"
  }

  /** Distinct categories have distinct ids, and none of them is the page's
      "all" pseudo-category. */
  lemma CategoryIdInjective(a: Category, b: Category)
    ensures CategoryId(a) == CategoryId(b) <==> a == b
    ensures CategoryId(a) != "all"
  {
  }

  datatype MaterialProduct = MaterialProduct(
    id: string,
    name: string,
    description: string,
    price: int,
    unit: string,
    image: Option<string>,
    category: Category)

  /** One cart line: exactly one product and its quantity. */
  datatype CartItem = CartItem(product: MaterialProduct, quantity: int)

  /** The entries of `MOCK_PRODUCTS`, one by one. */
  const BubbleWrap := MaterialProduct("p1", "Folia bąbelkowa (rolka 50m)",
    "Wytrzymała folia ochronna, idealna do delikatnych przedmiotów.",
    4500, "rolka", None, Packaging)
  const FlapBoxes := MaterialProduct("p2", "Karton Klapowy M (10 szt.)",
    "Zestaw kartonów o wymiarach 40x30x20 cm. 3-warstwowa tektura.",
    3250, "kpl.", None, Packaging)
  const ClearTape := MaterialProduct("p3", "Taśma pakowa przezroczysta",
    "Mocny klej akrylowy, cicha w odwijaniu.",
    490, "szt.", None, Tape)
  const BubbleEnvelope := MaterialProduct("p4", "Koperta bąbelkowa G17",
    "Format A3, zapewnia ochronę przed wilgocią i wstrząsami.",
    120, "szt.", None, Packaging)
  const GlassLabels := MaterialProduct("p5", "Etykiety ostrzegawcze \"Uwaga Szkło\"",
    "Rolka 100 sztuk, jaskrawy czerwony kolor.",
    1500, "rolka", None, Labels)

  /** `MOCK_PRODUCTS`. */
  function MockProducts(): (r: seq<MaterialProduct>)
    ensures |r| == 5
    ensures forall i, j :: 0 <= i < j < |r| ==> r[i].id != r[j].id
    ensures forall i :: 0 <= i < |r| ==> r[i].price > 0
  {
    var r := [BubbleWrap, FlapBoxes, ClearTape, BubbleEnvelope, GlassLabels];
    assert forall i | 0 <= i < 5 :: |r[i].id| == 2 && r[i].id[1] == "12345"[i];
    r
  }
}
