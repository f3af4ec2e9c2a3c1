/** The per-product admin panel (components/admin/ProductDetailManage.jsx): edit a product's
    discount rate and sizes, and look up its sales in a date range. */
module ProductDetailManage {
  import opened Wrappers
  import Text
  import CardImage
  import SalesStats

  type StatRow = SalesStats.StatRow
  type DateRange = SalesStats.DateRange

  /** The product as `GET /products/:id` returns it. */
  datatype DetailProduct = DetailProduct(id: string, name: string, discountRate: int,
                                         availableSizes: seq<nat>, images: seq<string>)

  /** The two figures shown for the product. */
  datatype StatSummary = StatSummary(revenue: int, count: int)

  /** The discount input holds the loaded number until the admin types, then the typed text. */
  datatype RateInput = Loaded(n: int) | Typed(s: string)

  datatype UpdateForm = UpdateForm(discountRate: RateInput, availableSizes: string)

  /** The sizes field as loaded: the size numbers joined with commas. */
  function SizesField(sizes: seq<nat>): (s: string)
    ensures sizes == [] ==> s == ""
  {
    Text.Join(Text.NumbersToStrings(sizes), ',')
  }

  /** A non-empty size list survives the round trip through the text field: splitting it at
      commas gives one decimal number per size, in order. An empty list gives the empty field,
      which splits into one empty piece. */
  lemma SizesFieldRoundTrip(sizes: seq<nat>)
    ensures sizes == [] ==> Text.Split(SizesField(sizes), ',') == [""]
    ensures sizes != [] ==>
              var parts := Text.Split(SizesField(sizes), ',');
              |parts| == |sizes| &&
              forall i :: 0 <= i < |sizes| ==> Text.IsDigits(parts[i]) && Text.DigitsValue(parts[i]) == sizes[i]
  {
    if sizes != [] {
      var strs := Text.NumbersToStrings(sizes);
      Text.NumbersHaveNoComma(sizes);
      Text.SplitJoin(strs, ',');
      forall i | 0 <= i < |sizes|
        ensures Text.IsDigits(strs[i]) && Text.DigitsValue(strs[i]) == sizes[i]
      {
        Text.NatToStringRoundTrip(sizes[i]);
      }
    }
  }

  /** `res.data.find(item => item._id === productId)`: the first row for the product. */
  function FindStat(rows: seq<StatRow>, productId: string): (r: Option<StatRow>)
    ensures r.None? <==> forall i :: 0 <= i < |rows| ==> rows[i].id != productId
    ensures r.Some? ==> exists k :: 0 <= k < |rows| && rows[k] == r.value && r.value.id == productId &&
                                    forall i :: 0 <= i < k ==> rows[i].id != productId
  {
    if |rows| == 0 then None
    else if rows[0].id == productId then Some(rows[0])
    else
      var rest := FindStat(rows[1..], productId);
      assert rest.Some? ==> exists k :: 1 <= k < |rows| && rows[k] == rest.value && rest.value.id == productId &&
                                        forall i :: 1 <= i < k ==> rows[i].id != productId by {
        if rest.Some? {
          var k :| 0 <= k < |rows[1..]| && rows[1..][k] == rest.value && rest.value.id == productId &&
                   forall i :: 0 <= i < k ==> rows[1..][i].id != productId;
          assert rows[k + 1] == rest.value;
          forall i | 1 <= i < k + 1 ensures rows[i].id != productId {
            assert rows[i] == rows[1..][i - 1];
          }
        }
      }
      rest
  }

  /** The figures for the product: its row's revenue and quantity, or zeros when it sold nothing
      in the range. */
  function SummaryOf(rows: seq<StatRow>, productId: string): (s: StatSummary)
    ensures (forall i :: 0 <= i < |rows| ==> rows[i].id != productId) ==> s == StatSummary(0, 0)
    ensures FindStat(rows, productId).Some? ==>
              s == StatSummary(FindStat(rows, productId).value.totalRevenue, FindStat(rows, productId).value.totalQuantity)
  {
    match FindStat(rows, productId)
    case Some(row) => StatSummary(row.totalRevenue, row.totalQuantity)
    case None => StatSummary(0, 0)
  }

  /** For the same range and figures that are never negative, the product's figures lie between
      zero and the sales panel's totals. */
  lemma SummaryWithinTotals(rows: seq<StatRow>, productId: string)
    requires forall i :: 0 <= i < |rows| ==> rows[i].totalRevenue >= 0 && rows[i].totalQuantity >= 0
    ensures 0 <= SummaryOf(rows, productId).revenue <= SalesStats.Total(Some(rows), SalesStats.Revenue)
    ensures 0 <= SummaryOf(rows, productId).count <= SalesStats.Total(Some(rows), SalesStats.Quantity)
  {
    assert forall i :: 0 <= i < |rows| ==> SalesStats.Value(rows[i], SalesStats.Revenue) >= 0;
    assert forall i :: 0 <= i < |rows| ==> SalesStats.Value(rows[i], SalesStats.Quantity) >= 0;
    SalesStats.SumNonNegative(rows, SalesStats.Revenue);
    SalesStats.SumNonNegative(rows, SalesStats.Quantity);
    var found := FindStat(rows, productId);
    if found.Some? {
      var k :| 0 <= k < |rows| && rows[k] == found.value && found.value.id == productId &&
               forall i :: 0 <= i < k ==> rows[i].id != productId;
      SalesStats.RowAtMostTotal(rows, SalesStats.Revenue, k);
      SalesStats.RowAtMostTotal(rows, SalesStats.Quantity, k);
    }
  }

  /** The product picture: the host followed by the first image path; with no image the path
      reads `undefined`. */
  function MainImage(p: DetailProduct): (url: string)
    ensures Text.StartsWith(url, CardImage.Host)
    ensures |p.images| > 0 ==> url[|CardImage.Host|..] == p.images[0]
  {
    var path := if |p.images| > 0 then p.images[0] else "undefined";
    assert (CardImage.Host + path)[..|CardImage.Host|] == CardImage.Host;
    CardImage.Host + path
  }

  datatype Notice = StatsFailed | Updated | UpdateFailed

  datatype Event =
    | GetProduct(productId: string)
    | GetStats(startDate: string, endDate: string)
    | PutProduct(productId: string, discountRate: RateInput, availableSizes: string)
    | Alert(notice: Notice)
    | OnBack

  class Panel {
    const productId: string
    var product: Option<DetailProduct>
    var stats: StatSummary
    var form: UpdateForm
    var dates: DateRange
    var log: seq<Event>

    constructor(productId: string)
      ensures this.productId == productId && product == None && !Renders()
      ensures stats == StatSummary(0, 0) && form == UpdateForm(Loaded(0), "")
      ensures dates == SalesStats.DateRange("", "") && log == []
    {
      this.productId := productId;
      product, stats := None, StatSummary(0, 0);
      form, dates, log := UpdateForm(Loaded(0), ""), SalesStats.DateRange("", ""), [];
    }

    /** Only a loading message until the product arrived. */
    predicate Renders()
      reads this
    {
      product.Some?
    }

    /** The effect on the product id: on a reply the product is shown and the form takes its
        discount rate and its sizes as comma-joined text; a failure leaves everything as it was. */
    method LoadProduct(reply: Response<DetailProduct>)
      modifies this`product, this`form, this`log
      ensures reply.Ok? ==> product == Some(reply.data) && Renders() &&
                            form == UpdateForm(Loaded(reply.data.discountRate), SizesField(reply.data.availableSizes))
      ensures reply.Failed? ==> product == old(product) && form == old(form)
      ensures log == old(log) + [GetProduct(productId)]
    {
      log := log + [GetProduct(productId)];
      if reply.Ok? {
        product := Some(reply.data);
        form := UpdateForm(Loaded(reply.data.discountRate), SizesField(reply.data.availableSizes));
      }
    }

    /** `fetchProductStats`: the query carries the current range; a reply sets the product's
        figures (zeros when it has no row), a failure alerts and keeps the figures. */
    method FetchProductStats(reply: Response<seq<StatRow>>)
      modifies this`stats, this`log
      ensures reply.Ok? ==> stats == SummaryOf(reply.data, productId) &&
                            log == old(log) + [GetStats(dates.start, dates.end)]
      ensures reply.Failed? ==> stats == old(stats) &&
                                log == old(log) + [GetStats(dates.start, dates.end), Alert(StatsFailed)]
    {
      log := log + [GetStats(dates.start, dates.end)];
      if reply.Ok? {
        stats := SummaryOf(reply.data, productId);
      } else {
        log := log + [Alert(StatsFailed)];
      }
    }

    method SetDiscountRate(v: string)
      modifies this`form
      ensures form == UpdateForm(Typed(v), old(form.availableSizes))
    {
      form := form.(discountRate := Typed(v));
    }

    method SetAvailableSizes(v: string)
      modifies this`form
      ensures form == UpdateForm(old(form.discountRate), v)
    {
      form := form.(availableSizes := v);
    }

    method SetStart(v: string)
      modifies this`dates
      ensures dates == SalesStats.DateRange(v, old(dates.end))
    {
      dates := dates.(start := v);
    }

    method SetEnd(v: string)
      modifies this`dates
      ensures dates == SalesStats.DateRange(old(dates.start), v)
    {
      dates := dates.(end := v);
    }

    /** The reset button clears the range only: no request, and the figures stay until the
        next lookup. */
    method ResetDates()
      modifies this`dates
      ensures dates == SalesStats.DateRange("", "")
    {
      dates := SalesStats.DateRange("", "");
    }

    /** `handleUpdate`: the form's two values are sent as they stand; only a success alerts
        and goes back to the list. */
    method HandleUpdate(reply: Response<()>) returns (wentBack: bool)
      modifies this`log
      ensures wentBack <==> reply.Ok?
      ensures reply.Ok? ==>
                log == old(log) + [PutProduct(productId, form.discountRate, form.availableSizes), Alert(Updated), OnBack]
      ensures reply.Failed? ==>
                log == old(log) + [PutProduct(productId, form.discountRate, form.availableSizes), Alert(UpdateFailed)]
    {
      log := log + [PutProduct(productId, form.discountRate, form.availableSizes)];
      if reply.Ok? {
        log := log + [Alert(Updated), OnBack];
        wentBack := true;
      } else {
        log := log + [Alert(UpdateFailed)];
        wentBack := false;
      }
    }

    /** The back button. */
    method ClickBack()
      modifies this`log
      ensures log == old(log) + [OnBack]
    {
      log := log + [OnBack];
    }
  }

  /** Opening the panel for a product that sold nothing in the range: the form shows the
      product's sizes and the figures are zero. */
  method OpenWithoutSales(p: DetailProduct, rows: seq<StatRow>) returns (form: UpdateForm, stats: StatSummary)
    requires forall i :: 0 <= i < |rows| ==> rows[i].id != p.id
    ensures form == UpdateForm(Loaded(p.discountRate), SizesField(p.availableSizes))
    ensures stats == StatSummary(0, 0)
  {
    var panel := new Panel(p.id);
    panel.LoadProduct(Ok(p));
    panel.FetchProductStats(Ok(rows));
    form, stats := panel.form, panel.stats;
  }
}
