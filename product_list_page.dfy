/** The product list page (pages/ProductListPage.jsx): the filter selection, the query it sends,
    and the presentation fields derived from each product the server returns. */
module ProductListPage {
  import opened Wrappers
  import opened Text
  import opened Lists

  /** Korean tab labels mapped to the English category values stored in the database. */
  const CategoryMap: map<string, string> :=
    map["라이프스타일" := "lifestyle", "슬립온" := "slip-on", "액티브" := "active"]

  /** The two synthetic tabs that become boolean flags instead of a category. */
  const NewArrivals: string := "신제품"
  const Sale: string := "세일"

  /** The fixed universe of size codes, in display order. */
  const AllSizes: seq<nat> := [220, 230, 240, 250, 260, 265, 270, 275, 280, 285, 290, 295, 300, 305, 310]

  /** The query parameters of `GET /api/products`; a missing field is not sent. */
  datatype QueryParams = QueryParams(categories: Option<string>, isNew: Option<string>,
                                     onSale: Option<string>, sizes: Option<string>,
                                     materials: Option<string>)

  /** `categoryMap[activeCategory] || activeCategory` */
  function CategoryValue(cat: string): (r: string)
    ensures cat in CategoryMap ==> r == CategoryMap[cat]
    ensures cat !in CategoryMap ==> r == cat
  {
    if cat in CategoryMap && CategoryMap[cat] != "" then CategoryMap[cat] else cat
  }

  /** The query a filter selection must produce. */
  predicate DescribesFilters(p: QueryParams, category: Option<string>, sizes: seq<nat>, materials: seq<string>) {
    // no active category: no category key at all
    && (!Present(category) ==> p.categories.None? && p.isNew.None? && p.onSale.None?)
    // the "new" tab sets only isNew, the "sale" tab only onSale
    && (category == Some(NewArrivals) ==> p.isNew == Some("true") && p.onSale.None? && p.categories.None?)
    && (category == Some(Sale) ==> p.onSale == Some("true") && p.isNew.None? && p.categories.None?)
    // any other tab: the mapped value, or the label itself when there is no mapping
    && (Present(category) && category.value != NewArrivals && category.value != Sale ==>
          p.categories == Some(CategoryValue(category.value)) && p.isNew.None? && p.onSale.None?)
    // facets: present exactly when selected, comma-joined in selection order
    && (p.sizes.Some? <==> |sizes| > 0)
    && (|sizes| > 0 ==> p.sizes.value == Join(NumbersToStrings(sizes), ','))
    && (p.materials.Some? <==> |materials| > 0)
    && (|materials| > 0 ==> p.materials.value == Join(materials, ','))
  }

  /** The parameter object, built by successive assignments as the fetch effect does. */
  method BuildParams(category: Option<string>, sizes: seq<nat>, materials: seq<string>) returns (params: QueryParams)
    ensures DescribesFilters(params, category, sizes, materials)
  {
    params := QueryParams(None, None, None, None, None);
    if Present(category) {
      if category.value == NewArrivals {
        params := params.(isNew := Some("true"));
      } else if category.value == Sale {
        params := params.(onSale := Some("true"));
      } else {
        params := params.(categories := Some(CategoryValue(category.value)));
      }
    }
    if |sizes| > 0 {
      params := params.(sizes := Some(Join(NumbersToStrings(sizes), ',')));
    }
    if |materials| > 0 {
      params := params.(materials := Some(Join(materials, ',')));
    }
  }

  /** A selection determines its query completely. */
  lemma DescribesFiltersUnique(p: QueryParams, q: QueryParams, category: Option<string>, sizes: seq<nat>, materials: seq<string>)
    requires DescribesFilters(p, category, sizes, materials) && DescribesFilters(q, category, sizes, materials)
    ensures p == q
  {
  }

  /** The server can split the `sizes` value back into the selected sizes, in order. */
  lemma SizesRecoverable(p: QueryParams, category: Option<string>, sizes: seq<nat>, materials: seq<string>)
    requires DescribesFilters(p, category, sizes, materials) && |sizes| > 0
    ensures Split(p.sizes.value, ',') == NumbersToStrings(sizes)
  {
    NumbersHaveNoComma(sizes);
    SplitJoin(NumbersToStrings(sizes), ',');
  }

  /** Likewise for `materials`, as long as no selected material contains a comma. */
  lemma MaterialsRecoverable(p: QueryParams, category: Option<string>, sizes: seq<nat>, materials: seq<string>)
    requires DescribesFilters(p, category, sizes, materials) && |materials| > 0
    requires NoSeparator(materials, ',')
    ensures Split(p.materials.value, ',') == materials
  {
    SplitJoin(materials, ',');
  }

  /** A product as `GET /api/products` returns it. */
  datatype ApiProduct = ApiProduct(id: string, name: string, description: string,
                                   categories: Option<seq<string>>, price: int, discountRate: Option<int>,
                                   materials: Option<seq<string>>, images: Option<seq<string>>,
                                   availableSizes: Option<seq<nat>>)

  /** A product as the page hands it to its cards. */
  datatype ListProduct = ListProduct(id: string, name: string, description: string,
                                     category: Option<string>, price: int, originalPrice: int,
                                     discountRate: int, material: Option<string>, images: seq<string>,
                                     stock: map<nat, bool>, isSale: bool)

  /** `Math.round(price * (1 - rate / 100))` over exact rationals: the nearest integer to the
      discounted price, halves rounded up. */
  function DiscountedPrice(price: int, rate: int): (r: int)
    ensures price * (100 - rate) - 50 < 100 * r <= price * (100 - rate) + 50
  {
    (price * (100 - rate) + 50) / 100
  }

  /** Without a discount the price is the original price. */
  lemma NoDiscountKeepsPrice(price: int)
    ensures DiscountedPrice(price, 0) == price
  {
    var r := DiscountedPrice(price, 0);
    assert 100 * price - 50 < 100 * r <= 100 * price + 50;
  }

  /** A discount between 0 and 100 percent never raises the price nor makes it negative. */
  lemma DiscountedPriceBounds(price: int, rate: int)
    requires price >= 0 && 0 <= rate <= 100
    ensures 0 <= DiscountedPrice(price, rate) <= price
  {
    var r := DiscountedPrice(price, rate);
    assert 0 <= price * (100 - rate) <= price * 100 by {
      assert price * (100 - rate) == price * 100 - price * rate;
    }
  }

  /** `xs && xs[0]`: the first element, missing for a missing or empty list. */
  function First(xs: Option<seq<string>>): (r: Option<string>)
    ensures r.Some? <==> xs.Some? && |xs.value| > 0
    ensures r.Some? ==> r.value == xs.value[0]
  {
    if xs.Some? && |xs.value| > 0 then Some(xs.value[0]) else None
  }

  const SizeKeys: set<nat> := {220, 230, 240, 250, 260, 265, 270, 275, 280, 285, 290, 295, 300, 305, 310}

  /** The stock map: one key per known size, true exactly for the sizes the product lists. */
  predicate StockMatches(stock: map<nat, bool>, available: Option<seq<nat>>) {
    && stock.Keys == SizeKeys
    && forall s :: s in stock ==> (stock[s] <==> available.Some? && s in available.value)
  }

  lemma StockHasFifteenKeys(stock: map<nat, bool>, available: Option<seq<nat>>)
    requires StockMatches(stock, available)
    ensures |stock| == 15
  {
    assert |SizeKeys| == 15;
  }

  /** The `forEach` over the size universe. */
  method BuildStock(available: Option<seq<nat>>) returns (stock: map<nat, bool>)
    ensures StockMatches(stock, available)
  {
    stock := map[];
    var i := 0;
    while i < |AllSizes|
      invariant 0 <= i <= |AllSizes|
      invariant stock.Keys == set s | s in AllSizes[..i]
      invariant forall s :: s in stock ==> (stock[s] <==> available.Some? && s in available.value)
    {
      var s := AllSizes[i];
      stock := stock[s := available.Some? && s in available.value];
      i := i + 1;
    }
    assert AllSizes[..i] == AllSizes;
    assert forall s :: s in AllSizes <==> s in SizeKeys;
  }

  /** What the page derives from one server product. */
  predicate FormatsTo(item: ApiProduct, p: ListProduct) {
    && p.id == item.id && p.name == item.name && p.description == item.description
    && p.category == First(item.categories)
    && p.originalPrice == item.price
    && p.discountRate == OrZero(item.discountRate)
    && p.price == DiscountedPrice(item.price, OrZero(item.discountRate))
    && p.material == First(item.materials)
    && p.images == (if item.images.Some? then item.images.value else [])
    && StockMatches(p.stock, item.availableSizes)
    && (p.isSale <==> OrZero(item.discountRate) > 0)
  }

  method FormatProduct(item: ApiProduct) returns (p: ListProduct)
    ensures FormatsTo(item, p)
  {
    var stock := BuildStock(item.availableSizes);
    var rate := if item.discountRate.Some? then item.discountRate.value else 0;
    p := ListProduct(item.id, item.name, item.description, First(item.categories),
                     DiscountedPrice(item.price, rate), item.price, rate, First(item.materials),
                     if item.images.Some? then item.images.value else [], stock, rate > 0);
  }

  /** `response.data.map(...)` */
  method FormatProducts(items: seq<ApiProduct>) returns (ps: seq<ListProduct>)
    ensures |ps| == |items|
    ensures forall i :: 0 <= i < |items| ==> FormatsTo(items[i], ps[i])
  {
    ps := [];
    for i := 0 to |items|
      invariant |ps| == i
      invariant forall k :: 0 <= k < i ==> FormatsTo(items[k], ps[k])
    {
      var p := FormatProduct(items[i]);
      ps := ps + [p];
    }
  }

  /** A product without a discount is not on sale and keeps its price. */
  lemma NoDiscountNotOnSale(item: ApiProduct, p: ListProduct)
    requires FormatsTo(item, p) && OrZero(item.discountRate) == 0
    ensures !p.isSale && p.price == p.originalPrice && p.discountRate == 0
  {
    NoDiscountKeepsPrice(item.price);
  }

  class ProductListPage {
    var products: seq<ListProduct>
    var loading: bool
    var activeCategory: Option<string>
    var selectedSizes: seq<nat>
    var selectedMaterials: seq<string>
    /** The query of every product request, in order. */
    var queries: seq<QueryParams>

    /** The selections never hold a value twice. */
    ghost predicate Valid()
      reads this
    {
      NoDuplicates(selectedSizes) && NoDuplicates(selectedMaterials)
    }

    constructor()
      ensures Valid()
      ensures products == [] && !loading && activeCategory == None
      ensures selectedSizes == [] && selectedMaterials == [] && queries == []
    {
      products, loading, activeCategory := [], false, None;
      selectedSizes, selectedMaterials, queries := [], [], [];
    }

    /** The fetch effect, run on mount and after each change of the filters: the query follows
        the current selection; a success replaces the products, a failure keeps them. */
    method FetchProducts(reply: Response<seq<ApiProduct>>)
      modifies this`products, this`loading, this`queries
      ensures |queries| == |old(queries)| + 1 && queries[..|old(queries)|] == old(queries)
      ensures DescribesFilters(queries[|queries| - 1], activeCategory, selectedSizes, selectedMaterials)
      ensures reply.Ok? ==> |products| == |reply.data|
      ensures reply.Ok? ==> forall i :: 0 <= i < |products| ==> FormatsTo(reply.data[i], products[i])
      ensures reply.Failed? ==> products == old(products)
      ensures !loading
    {
      loading := true;
      var params := BuildParams(activeCategory, selectedSizes, selectedMaterials);
      queries := queries + [params];
      if reply.Ok? {
        products := FormatProducts(reply.data);
      }
      loading := false;
    }

    /** Clicking the active tab clears the category; clicking another selects it. */
    method HandleCategoryClick(cat: string)
      modifies this`activeCategory
      ensures old(activeCategory) == Some(cat) ==> activeCategory == None
      ensures old(activeCategory) != Some(cat) ==> activeCategory == Some(cat)
    {
      if activeCategory == Some(cat) {
        activeCategory := None;
      } else {
        activeCategory := Some(cat);
      }
    }

    method HandleResetCategory()
      modifies this`activeCategory
      ensures activeCategory == None
    {
      activeCategory := None;
    }

    method ToggleSize(size: nat)
      requires Valid()
      modifies this`selectedSizes
      ensures Valid()
      ensures selectedSizes == Toggled(old(selectedSizes), size)
    {
      ToggleKeepsNoDuplicates(selectedSizes, size);
      selectedSizes := Toggled(selectedSizes, size);
    }

    method ToggleMaterial(material: string)
      requires Valid()
      modifies this`selectedMaterials
      ensures Valid()
      ensures selectedMaterials == Toggled(old(selectedMaterials), material)
    {
      ToggleKeepsNoDuplicates(selectedMaterials, material);
      selectedMaterials := Toggled(selectedMaterials, material);
    }

    /** Empties both facet selections and leaves the category alone. */
    method ResetSidebarFilters()
      modifies this`selectedSizes, this`selectedMaterials
      ensures Valid()
      ensures selectedSizes == [] && selectedMaterials == []
    {
      selectedSizes, selectedMaterials := [], [];
    }
  }
}
