/** The product registration panel of the admin page (components/admin/ProductManage.jsx): the
    new-product form, the multipart payload it posts, and the list of registered products. */
module ProductManage {
  import opened Wrappers
  import Lists
  import Text

  /** The values of the category checkboxes. */
  const CategoryOptions: seq<string> := ["lifestyle", "slip-on"]

  /** The form's state; every text input holds a string. */
  datatype Form = Form(name: string, price: string, discountRate: string, categories: seq<string>,
                       materials: string, availableSizes: string, description: string)

  /** The empty form the panel starts with and returns to after a registration. */
  const InitialForm := Form("", "", "0", [], "", "", "")

  /** The inputs that `handleChange` updates by their `name` attribute. */
  datatype Field = Name | Price | DiscountRate | Materials | AvailableSizes | Description

  function Get(f: Form, field: Field): string {
    match field
    case Name => f.name
    case Price => f.price
    case DiscountRate => f.discountRate
    case Materials => f.materials
    case AvailableSizes => f.availableSizes
    case Description => f.description
  }

  /** `{ ...formData, [name]: value }`: the named input takes the value, nothing else changes. */
  function WithField(f: Form, field: Field, v: string): (g: Form)
    ensures Get(g, field) == v
    ensures forall other :: other != field ==> Get(g, other) == Get(f, other)
    ensures g.categories == f.categories
  {
    match field
    case Name => f.(name := v)
    case Price => f.(price := v)
    case DiscountRate => f.(discountRate := v)
    case Materials => f.(materials := v)
    case AvailableSizes => f.(availableSizes := v)
    case Description => f.(description := v)
  }

  /** A chosen image file. */
  datatype File = File(name: string)

  /** One entry of the multipart body. */
  datatype Part = Text(s: string) | Blob(file: File)
  datatype Entry = Entry(key: string, value: Part)

  /** The seven text entries, in the order the form appends them; categories go comma-joined. */
  function TextEntries(f: Form): (es: seq<Entry>)
    ensures |es| == 7
    ensures es[4] == Entry("categories", Text(Text.Join(f.categories, ',')))
  {
    [Entry("name", Text(f.name)), Entry("price", Text(f.price)), Entry("discountRate", Text(f.discountRate)),
     Entry("availableSizes", Text(f.availableSizes)), Entry("categories", Text(Text.Join(f.categories, ','))),
     Entry("materials", Text(f.materials)), Entry("description", Text(f.description))]
  }

  /** The multipart body: the text entries, then one `images` entry per chosen file, in order. */
  method BuildPayload(f: Form, images: Option<seq<File>>) returns (data: seq<Entry>)
    ensures images.None? ==> data == TextEntries(f)
    ensures images.Some? ==> |data| == 7 + |images.value|
    ensures data[..7] == TextEntries(f)
    ensures images.Some? ==> forall i :: 0 <= i < |images.value| ==> data[7 + i] == Entry("images", Blob(images.value[i]))
  {
    data := TextEntries(f);
    if images.Some? {
      var files := images.value;
      for i := 0 to |files|
        invariant |data| == 7 + i
        invariant data[..7] == TextEntries(f)
        invariant forall j :: 0 <= j < i ==> data[7 + j] == Entry("images", Blob(files[j]))
      {
        data := data + [Entry("images", Blob(files[i]))];
      }
    }
  }

  /** The files a receiver finds under the `images` key, in order. */
  function FilesIn(data: seq<Entry>): seq<File>
  {
    if |data| == 0 then []
    else (if data[0].key == "images" && data[0].value.Blob? then [data[0].value.file] else []) + FilesIn(data[1..])
  }

  lemma {:induction false} FilesInAppend(a: seq<Entry>, b: seq<Entry>)
    ensures FilesIn(a + b) == FilesIn(a) + FilesIn(b)
    decreases |a|
  {
    if |a| == 0 {
      assert a + b == b;
    } else {
      assert (a + b)[0] == a[0];
      assert (a + b)[1..] == a[1..] + b;
      FilesInAppend(a[1..], b);
    }
  }

  lemma {:induction false} FilesOfImageEntries(data: seq<Entry>, files: seq<File>)
    requires |data| == |files|
    requires forall i :: 0 <= i < |files| ==> data[i] == Entry("images", Blob(files[i]))
    ensures FilesIn(data) == files
    decreases |files|
  {
    if |files| > 0 {
      FilesOfImageEntries(data[1..], files[1..]);
      assert [files[0]] + files[1..] == files;
    }
  }

  /** The text entries carry no file. */
  lemma TextEntriesCarryNoFiles(f: Form)
    ensures FilesIn(TextEntries(f)) == []
  {
    var es := TextEntries(f);
    assert forall i :: 0 <= i < |es| ==> es[i].value.Text?;
    NoBlobNoFiles(es);
  }

  lemma {:induction false} NoBlobNoFiles(data: seq<Entry>)
    requires forall i :: 0 <= i < |data| ==> data[i].value.Text?
    ensures FilesIn(data) == []
    decreases |data|
  {
    if |data| > 0 {
      NoBlobNoFiles(data[1..]);
    }
  }

  lemma SplitAt(data: seq<Entry>, k: nat)
    requires k <= |data|
    ensures data == data[..k] + data[k..]
  {
  }

  /** A receiver of the payload finds exactly the chosen files, in order. */
  lemma PayloadFilesRoundTrip(f: Form, images: seq<File>, data: seq<Entry>)
    requires |data| == 7 + |images| && data[..7] == TextEntries(f)
    requires forall i :: 0 <= i < |images| ==> data[7 + i] == Entry("images", Blob(images[i]))
    ensures FilesIn(data) == images
  {
    var head, tail := data[..7], data[7..];
    SplitAt(data, 7);
    FilesInAppend(head, tail);
    TextEntriesCarryNoFiles(f);
    forall i | 0 <= i < |images|
      ensures tail[i] == Entry("images", Blob(images[i]))
    {
      assert tail[i] == data[7 + i];
    }
    FilesOfImageEntries(tail, images);
  }

  /** Splitting the payload's `categories` entry at commas gives back the checked categories. */
  lemma PayloadCategoriesRoundTrip(f: Form, data: seq<Entry>)
    requires |data| >= 7 && data[..7] == TextEntries(f)
    requires |f.categories| >= 1 && Text.NoSeparator(f.categories, ',')
    ensures data[4].key == "categories" && data[4].value.Text?
    ensures Text.Split(data[4].value.s, ',') == f.categories
  {
    assert data[4] == data[..7][4];
    Text.SplitJoin(f.categories, ',');
  }

  /** The checkbox values hold no comma, so any non-empty selection of them reaches the server
      intact through the `categories` entry. */
  lemma CheckedCategoriesRoundTrip(f: Form, data: seq<Entry>)
    requires |data| >= 7 && data[..7] == TextEntries(f)
    requires |f.categories| >= 1 && forall i :: 0 <= i < |f.categories| ==> f.categories[i] in CategoryOptions
    ensures Text.Split(data[4].value.s, ',') == f.categories
  {
    assert ',' !in CategoryOptions[0] && ',' !in CategoryOptions[1];
    assert Text.NoSeparator(f.categories, ',');
    PayloadCategoriesRoundTrip(f, data);
  }

  /** A product as the list shows it. */
  datatype ListedProduct = ListedProduct(id: string, name: string, price: int, discountRate: int,
                                         categories: seq<string>, materials: seq<string>, availableSizes: seq<int>)

  /** The struck-through original and the discounted price appear only for a positive rate. */
  predicate DiscountShown(p: ListedProduct) {
    p.discountRate > 0
  }

  /** `price * (1 - discountRate / 100)`, unrounded. */
  function DiscountedPrice(p: ListedProduct): real
  {
    (p.price as real) * (1.0 - (p.discountRate as real) / 100.0)
  }

  /** A positive rate up to 100% lowers a positive price, and never below zero. */
  lemma DiscountLowersPrice(p: ListedProduct)
    requires p.price > 0 && DiscountShown(p) && p.discountRate <= 100
    ensures 0.0 <= DiscountedPrice(p) < p.price as real
  {
    var k := 1.0 - (p.discountRate as real) / 100.0;
    assert 0.0 <= k < 1.0;
    assert DiscountedPrice(p) == (p.price as real) * k;
  }

  /** The stock line: the sizes in stock, or sold out when there are none. */
  datatype StockLabel = InStock(sizes: seq<int>) | SoldOut

  function StockLabelOf(p: ListedProduct): (l: StockLabel)
    ensures l.SoldOut? <==> p.availableSizes == []
    ensures l.InStock? ==> l.sizes == p.availableSizes
  {
    if |p.availableSizes| > 0 then InStock(p.availableSizes) else SoldOut
  }

  datatype Notice = NeedCategory | NeedMaterial | Registered | RegisterFailed

  datatype Event = GetProducts | PostProduct(data: seq<Entry>) | Alert(notice: Notice)

  class Panel {
    var products: seq<ListedProduct>
    var selectedProductId: Option<string>
    var form: Form
    var images: Option<seq<File>>
    var log: seq<Event>

    /** No duplicate checkbox values: a box is only ever checked while its value is absent. */
    ghost predicate Valid()
      reads this
    {
      Lists.NoDuplicates(form.categories)
    }

    constructor()
      ensures Valid()
      ensures products == [] && selectedProductId == None && form == InitialForm && images == None && log == []
    {
      products, selectedProductId, form, images, log := [], None, InitialForm, None, [];
    }

    /** The detail panel replaces the form and the list while a (non-empty) product id is selected. */
    predicate ShowsDetail()
      reads this
    {
      Present(selectedProductId)
    }

    /** `fetchProducts`: a reply replaces the list; a failure keeps it. */
    method FetchProducts(reply: Response<seq<ListedProduct>>)
      modifies this`products, this`log
      ensures reply.Ok? ==> products == reply.data
      ensures reply.Failed? ==> products == old(products)
      ensures log == old(log) + [GetProducts]
    {
      log := log + [GetProducts];
      if reply.Ok? {
        products := reply.data;
      }
    }

    /** `handleChange` on a named input. */
    method HandleChange(field: Field, v: string)
      requires Valid()
      modifies this`form
      ensures Valid()
      ensures form == WithField(old(form), field, v)
    {
      form := WithField(form, field, v);
    }

    /** `handleCategoryChange`: a checked box appends its value, an unchecked one removes every
        occurrence; a box is checked exactly when its value is in the list. */
    method HandleCategoryChange(v: string, isChecked: bool)
      requires Valid()
      requires isChecked <==> v !in form.categories
      modifies this`form
      ensures Valid()
      ensures form.categories == Lists.Toggled(old(form.categories), v)
      ensures isChecked ==> form.categories == old(form.categories) + [v]
      ensures form == old(form).(categories := form.categories)
    {
      Lists.ToggleKeepsNoDuplicates(form.categories, v);
      if isChecked {
        form := form.(categories := form.categories + [v]);
      } else {
        form := form.(categories := Lists.RemoveAll(form.categories, v));
      }
    }

    /** `handleFileChange`: the chosen files replace the previous choice. */
    method HandleFileChange(files: seq<File>)
      modifies this`images
      ensures images == Some(files)
    {
      images := Some(files);
    }

    /** `handleSubmit`: without a category, or without a material, only an alert; otherwise the
        payload is posted, and on success the list is refetched and the form and files reset,
        while a failure keeps what was typed. */
    method HandleSubmit(post: Response<()>, listReply: Response<seq<ListedProduct>>)
      requires Valid()
      modifies this`form, this`images, this`products, this`log
      ensures Valid()
      ensures old(form.categories) == [] ==>
                log == old(log) + [Alert(NeedCategory)] && form == old(form) && images == old(images) &&
                products == old(products)
      ensures old(form.categories) != [] && old(form.materials) == "" ==>
                log == old(log) + [Alert(NeedMaterial)] && form == old(form) && images == old(images) &&
                products == old(products)
      ensures old(form.categories) != [] && old(form.materials) != "" ==>
                |log| > |old(log)| && log[|old(log)|].PostProduct? &&
                |log[|old(log)|].data| == 7 + (if old(images).Some? then |old(images).value| else 0) &&
                log[|old(log)|].data[..7] == TextEntries(old(form)) &&
                (old(images).Some? ==> forall i :: 0 <= i < |old(images).value| ==>
                   log[|old(log)|].data[7 + i] == Entry("images", Blob(old(images).value[i])))
      ensures old(form.categories) != [] && old(form.materials) != "" && post.Ok? ==>
                |log| == |old(log)| + 3 && log[|old(log)| + 1..] == [Alert(Registered), GetProducts] &&
                form == InitialForm && images == None &&
                products == (if listReply.Ok? then listReply.data else old(products))
      ensures old(form.categories) != [] && old(form.materials) != "" && post.Failed? ==>
                |log| == |old(log)| + 2 && log[|old(log)| + 1] == Alert(RegisterFailed) &&
                form == old(form) && images == old(images) && products == old(products)
    {
      if |form.categories| == 0 {
        log := log + [Alert(NeedCategory)];
        return;
      }
      if form.materials == "" {
        log := log + [Alert(NeedMaterial)];
        return;
      }
      var data := BuildPayload(form, images);
      log := log + [PostProduct(data)];
      if post.Failed? {
        log := log + [Alert(RegisterFailed)];
        return;
      }
      log := log + [Alert(Registered)];
      FetchProducts(listReply);
      form := InitialForm;
      images := None;
    }

    /** Clicking a listed product opens its detail panel. */
    method SelectProduct(id: string)
      modifies this`selectedProductId
      ensures selectedProductId == Some(id)
      ensures ShowsDetail() <==> id != ""
    {
      selectedProductId := Some(id);
    }

    /** The detail panel's `onBack`: back to the list, which is refetched. */
    method OnBack(reply: Response<seq<ListedProduct>>)
      modifies this`selectedProductId, this`products, this`log
      ensures selectedProductId == None && !ShowsDetail()
      ensures reply.Ok? ==> products == reply.data
      ensures reply.Failed? ==> products == old(products)
      ensures log == old(log) + [GetProducts]
    {
      selectedProductId := None;
      FetchProducts(reply);
    }
  }
}
