/** The product endpoints on the seeded store: GET /products with and
    without a search term, POST /products and PUT /products/7. */
module ProductExamples {

  import opened Wrappers
  import opened Text
  import opened Models
  import opened Tables
  import opened Handlers
  import opened Fixture

  const TunaView := ProductView(Tuna, Some(Food))
  const TomatoesView := ProductView(Tomatoes, Some(Food))
  const ToiletPaperView := ProductView(ToiletPaper, Some(Cleaning))
  const DishSoapView := ProductView(DishSoap, Some(Cleaning))
  const PictureKitView := ProductView(PictureKit, Some(HomeImprovement))
  const MilkView := ProductView(Milk, Some(Food))

  /** The seeded products with their categories, in id order. */
  lemma SeedProductRows()
    ensures ProductRows(Seed()) == [TunaView, TomatoesView, ToiletPaperView, DishSoapView, PictureKitView, MilkView]
  {
    SeedProducts();
  }

  /** `s` holds lower-case letter `c` in neither case. */
  predicate Lacks(s: string, c: char)
    requires 'a' <= c <= 'z'
  {
    c !in s && (c as int - 32) as char !in s
  }

  /** A product does not match a term holding a letter that neither its name
      nor its category name holds, in either case. */
  lemma NoMatch(v: ProductView, term: string, c: char)
    requires 'a' <= c <= 'z' && c in Lower(term)
    requires Lacks(v.product.productName, c)
    requires v.category.Some? ==> Lacks(v.category.value.categoryName, c)
    ensures !Matches(v, term)
  {
    LowerAvoids(v.product.productName, c);
    ContainsNeedsChar(Lower(v.product.productName), Lower(term), c);
    if v.category.Some? {
      LowerAvoids(v.category.value.categoryName, c);
      ContainsNeedsChar(Lower(v.category.value.categoryName), Lower(term), c);
    }
  }

  lemma TermsLowered()
    ensures Lower("clean") == "clean" && Lower("t") == "t" && Lower("v") == "v"
  {
  }

  // The letters a product and its category lack.

  lemma TunaLacksC()
    ensures Lacks("Tuna", 'c') && Lacks("Food", 'c')
  {
  }

  lemma TomatoesLacksL()
    ensures Lacks("Canned Tomatoes", 'l') && Lacks("Food", 'l')
  {
  }

  lemma PictureKitLacksL()
    ensures Lacks("picture hanging kit", 'l') && Lacks("Home Improvement", 'l')
  {
  }

  lemma MilkLacksC()
    ensures Lacks("Milk 2%", 'c') && Lacks("Food", 'c')
  {
  }

  lemma DishSoapLacksT()
    ensures Lacks("Dishwashing Soap", 't') && Lacks("Cleaning", 't')
  {
  }

  lemma MilkLacksT()
    ensures Lacks("Milk 2%", 't') && Lacks("Food", 't')
  {
  }

  lemma TunaLacksV()
    ensures Lacks("Tuna", 'v') && Lacks("Food", 'v')
  {
  }

  lemma TomatoesLacksV()
    ensures Lacks("Canned Tomatoes", 'v') && Lacks("Food", 'v')
  {
  }

  lemma ToiletPaperLacksV()
    ensures Lacks("Toilet Paper", 'v') && Lacks("Cleaning", 'v')
  {
  }

  lemma DishSoapLacksV()
    ensures Lacks("Dishwashing Soap", 'v') && Lacks("Cleaning", 'v')
  {
  }

  lemma MilkLacksV()
    ensures Lacks("Milk 2%", 'v') && Lacks("Food", 'v')
  {
  }

  // Which of the three search terms each seeded product matches, one fact
  // at a time.

  lemma TunaNotClean()
    ensures !Matches(TunaView, "clean")
  {
    TermsLowered();
    TunaLacksC();
    NoMatch(TunaView, "clean", 'c');
  }

  lemma TomatoesNotClean()
    ensures !Matches(TomatoesView, "clean")
  {
    TermsLowered();
    TomatoesLacksL();
    NoMatch(TomatoesView, "clean", 'l');
  }

  lemma ToiletPaperHasClean()
    ensures Matches(ToiletPaperView, "clean")
  {
    TermsLowered();
    assert Lower("Cleaning")[..5] == "clean";
  }

  lemma DishSoapHasClean()
    ensures Matches(DishSoapView, "clean")
  {
    TermsLowered();
    assert Lower("Cleaning")[..5] == "clean";
  }

  lemma PictureKitNotClean()
    ensures !Matches(PictureKitView, "clean")
  {
    TermsLowered();
    PictureKitLacksL();
    NoMatch(PictureKitView, "clean", 'l');
  }

  lemma MilkNotClean()
    ensures !Matches(MilkView, "clean")
  {
    TermsLowered();
    MilkLacksC();
    NoMatch(MilkView, "clean", 'c');
  }

  lemma TunaHasT()
    ensures Matches(TunaView, "t")
  {
    TermsLowered();
    assert Lower("Tuna")[..1] == "t";
  }

  lemma TomatoesHasT()
    ensures Matches(TomatoesView, "t")
  {
    TermsLowered();
    ContainsIffOccurs(Lower("Canned Tomatoes"), "t");
    assert OccursAt(Lower("Canned Tomatoes"), "t", 7);
  }

  lemma ToiletPaperHasT()
    ensures Matches(ToiletPaperView, "t")
  {
    TermsLowered();
    assert Lower("Toilet Paper")[..1] == "t";
  }

  lemma DishSoapNotT()
    ensures !Matches(DishSoapView, "t")
  {
    TermsLowered();
    DishSoapLacksT();
    NoMatch(DishSoapView, "t", 't');
  }

  lemma PictureKitHasT()
    ensures Matches(PictureKitView, "t")
  {
    TermsLowered();
    ContainsIffOccurs(Lower("picture hanging kit"), "t");
    assert OccursAt(Lower("picture hanging kit"), "t", 3);
  }

  lemma MilkNotT()
    ensures !Matches(MilkView, "t")
  {
    TermsLowered();
    MilkLacksT();
    NoMatch(MilkView, "t", 't');
  }

  lemma TunaNotV()
    ensures !Matches(TunaView, "v")
  {
    TermsLowered();
    TunaLacksV();
    NoMatch(TunaView, "v", 'v');
  }

  lemma TomatoesNotV()
    ensures !Matches(TomatoesView, "v")
  {
    TermsLowered();
    TomatoesLacksV();
    NoMatch(TomatoesView, "v", 'v');
  }

  lemma ToiletPaperNotV()
    ensures !Matches(ToiletPaperView, "v")
  {
    TermsLowered();
    ToiletPaperLacksV();
    NoMatch(ToiletPaperView, "v", 'v');
  }

  lemma DishSoapNotV()
    ensures !Matches(DishSoapView, "v")
  {
    TermsLowered();
    DishSoapLacksV();
    NoMatch(DishSoapView, "v", 'v');
  }

  lemma PictureKitHasV()
    ensures Matches(PictureKitView, "v")
  {
    TermsLowered();
    ContainsIffOccurs(Lower("Home Improvement"), "v");
    assert OccursAt(Lower("Home Improvement"), "v", 10);
  }

  lemma MilkNotV()
    ensures !Matches(MilkView, "v")
  {
    TermsLowered();
    MilkLacksV();
    NoMatch(MilkView, "v", 'v');
  }

  lemma MatchesClean()
    ensures !Matches(TunaView, "clean")
    ensures !Matches(TomatoesView, "clean")
    ensures Matches(ToiletPaperView, "clean")
    ensures Matches(DishSoapView, "clean")
    ensures !Matches(PictureKitView, "clean")
    ensures !Matches(MilkView, "clean")
  {
    TunaNotClean();
    TomatoesNotClean();
    ToiletPaperHasClean();
    DishSoapHasClean();
    PictureKitNotClean();
    MilkNotClean();
  }

  lemma MatchesT()
    ensures Matches(TunaView, "t")
    ensures Matches(TomatoesView, "t")
    ensures Matches(ToiletPaperView, "t")
    ensures !Matches(DishSoapView, "t")
    ensures Matches(PictureKitView, "t")
    ensures !Matches(MilkView, "t")
  {
    TunaHasT();
    TomatoesHasT();
    ToiletPaperHasT();
    DishSoapNotT();
    PictureKitHasT();
    MilkNotT();
  }

  lemma MatchesV()
    ensures !Matches(TunaView, "v")
    ensures !Matches(TomatoesView, "v")
    ensures !Matches(ToiletPaperView, "v")
    ensures !Matches(DishSoapView, "v")
    ensures Matches(PictureKitView, "v")
    ensures !Matches(MilkView, "v")
  {
    TunaNotV();
    TomatoesNotV();
    ToiletPaperNotV();
    DishSoapNotV();
    PictureKitHasV();
    MilkNotV();
  }

  /** `Where` over six rows, row by row. */
  lemma FilterSix<T>(a: T, b: T, c: T, d: T, e: T, f: T, keep: T -> bool)
    ensures Filter([a, b, c, d, e, f], keep) ==
      (if keep(a) then [a] else []) + ((if keep(b) then [b] else []) + ((if keep(c) then [c] else []) +
      ((if keep(d) then [d] else []) + ((if keep(e) then [e] else []) + (if keep(f) then [f] else [])))))
  {
    var s := [a, b, c, d, e, f];
    FilterStep(s, 0, keep);
    FilterStep(s, 1, keep);
    FilterStep(s, 2, keep);
    FilterStep(s, 3, keep);
    FilterStep(s, 4, keep);
    FilterStep(s, 5, keep);
    assert s[6..] == [];
    assert s[0..] == s;
    var last := if keep(f) then [f] else [];
    assert last + Filter(s[6..], keep) == last;
  }

  /** `Where` over six rows that keeps all but the fourth and the sixth. */
  lemma FilterFourOfSix<T>(a: T, b: T, c: T, d: T, e: T, f: T, keep: T -> bool)
    requires keep(a) && keep(b) && keep(c) && !keep(d) && keep(e) && !keep(f)
    ensures Filter([a, b, c, d, e, f], keep) == [a, b, c, e]
  {
    FilterSix(a, b, c, d, e, f, keep);
    assert [c] + ([] + ([e] + [])) == [c, e];
  }

  lemma CleanFilter()
    ensures Filter([TunaView, TomatoesView, ToiletPaperView, DishSoapView, PictureKitView, MilkView], (v: ProductView) => Matches(v, "clean")) == [ToiletPaperView, DishSoapView]
  {
    FilterSix(TunaView, TomatoesView, ToiletPaperView, DishSoapView, PictureKitView, MilkView, (v: ProductView) => Matches(v, "clean"));
    MatchesClean();
  }

  lemma TFilter()
    ensures Filter([TunaView, TomatoesView, ToiletPaperView, DishSoapView, PictureKitView, MilkView], (v: ProductView) => Matches(v, "t")) == [TunaView, TomatoesView, ToiletPaperView, PictureKitView]
  {
    MatchesT();
    FilterFourOfSix(TunaView, TomatoesView, ToiletPaperView, DishSoapView, PictureKitView, MilkView, (v: ProductView) => Matches(v, "t"));
  }

  lemma VFilter()
    ensures Filter([TunaView, TomatoesView, ToiletPaperView, DishSoapView, PictureKitView, MilkView], (v: ProductView) => Matches(v, "v")) == [PictureKitView]
  {
    FilterSix(TunaView, TomatoesView, ToiletPaperView, DishSoapView, PictureKitView, MilkView, (v: ProductView) => Matches(v, "v"));
    MatchesV();
  }

  /** GET /products lists all six products, each with its category. */
  lemma AllProductsExample()
    ensures var r := SearchProducts(Seed(), None);
      |r| == 6 && r[0].category == Some(Food) && r[0].category.value.categoryName == "Food"
  {
    SeedProductRows();
  }

  /** GET /products?search=clean finds the two cleaning products. */
  lemma SearchCleanExample()
    ensures SearchProducts(Seed(), Some("clean")) == [ToiletPaperView, DishSoapView]
  {
    SeedProductRows();
    CleanFilter();
  }

  /** GET /products?search=t finds four products. */
  lemma SearchTExample()
    ensures SearchProducts(Seed(), Some("t")) == [TunaView, TomatoesView, ToiletPaperView, PictureKitView]
  {
    SeedProductRows();
    TFilter();
  }

  /** GET /products?search=v finds the picture hanging kit alone. */
  lemma SearchVExample()
    ensures SearchProducts(Seed(), Some("v")) == [PictureKitView]
  {
    SeedProductRows();
    VFilter();
  }

  lemma ProductLocation()
    ensures Location("products", 7) == "/products/7"
  {
    assert IntToString(7) == "7";
    assert "/" + "products" == "/products";
    assert "/products" + "/" == "/products/";
    assert "/products/" + "7" == "/products/7";
  }

  /** POST /products creates product 7 at /products/7; a PUT of /products/7
      then answers 204 and the product reads back renamed "Testing". */
  lemma CreateThenUpdateExample()
    ensures var (db1, r1) := CreateProduct(Seed(), Product(0, "Test", 4.11, "Test", 2));
      var (db2, r2) := UpdateProduct(db1, 7, Product(7, "Testing", 4.22, "Test", 2));
      && r1.Created?
      && r1.value.id == 7
      && r1.location == "/products/7"
      && r2 == NoContent
      && 7 in db2.products
      && db2.products[7] == Product(7, "Testing", 4.22, "Test", 2)
  {
    SeedValid();
    var body := Product(0, "Test", 4.11, "Test", 2);
    CreateProductSound(Seed(), body);
    var (db1, r1) := CreateProduct(Seed(), body);
    UpdateProductSound(db1, 7, Product(7, "Testing", 4.22, "Test", 2));
    ProductLocation();
  }
}
