/**
 * The admin products page (components/admin/ProductsPage.tsx): the slug derived from a title,
 * the search, the add/update/delete handlers over the id-keyed product list, the image-URL
 * field list of the form, and when the submit button is enabled. `parseFloat`/`parseInt` of
 * the price and stock fields, the number-to-text conversion when editing, the new id and the
 * creation time are parameters.
 */
module AdminProducts {
  import opened Wrappers
  import opened Text
  import opened Seqs
  import opened Domain
  import MockData

  /** Each maximal run of whitespace replaced by one '-' (`replace(/\s+/g, '-')`). */
  function DashRuns(s: string): (r: string)
    ensures |r| <= |s|
    ensures forall i :: 0 <= i < |r| ==> !IsSpace(r[i])
    decreases |s|
  {
    if s == [] then []
    else if IsSpace(s[0]) then "-" + DashRuns(TrimStart(s))
    else [s[0]] + DashRuns(s[1..])
  }

  /** Every character of the result is a dash or a character of the input. */
  lemma {:induction false} DashRunsChars(s: string)
    ensures forall c :: c in DashRuns(s) ==> c == '-' || c in s
    decreases |s|
  {
    if s != [] {
      if IsSpace(s[0]) {
        var rest := TrimStart(s);
        DashRunsChars(rest);
        assert forall c :: c in rest ==> c in s;
      } else {
        DashRunsChars(s[1..]);
        assert forall c :: c in s[1..] ==> c in s;
      }
    }
  }

  /** A string without whitespace comes through unchanged. */
  lemma {:induction false} DashRunsOfWord(s: string)
    requires forall i :: 0 <= i < |s| ==> !IsSpace(s[i])
    ensures DashRuns(s) == s
  {
    if s != [] {
      assert forall i :: 0 <= i < |s| - 1 ==> s[1..][i] == s[i + 1];
      DashRunsOfWord(s[1..]);
    }
  }

  /** `title.toLowerCase().replace(/\s+/g, '-')`. */
  function Slug(title: string): string {
    DashRuns(Lower(title))
  }

  /** A slug holds no whitespace and no upper-case letter, and is never longer than its title. */
  lemma SlugShape(title: string)
    ensures var s := Slug(title);
      && |s| <= |title|
      && forall i :: 0 <= i < |s| ==> !IsSpace(s[i]) && !('A' <= s[i] <= 'Z')
  {
    var l := Lower(title);
    DashRunsChars(l);
    forall i | 0 <= i < |Slug(title)| ensures !('A' <= Slug(title)[i] <= 'Z') {
      var c := Slug(title)[i];
      assert c in DashRuns(l);
      if c != '-' {
        var k :| 0 <= k < |l| && l[k] == c;
      }
    }
  }

  /** Deriving a slug from a slug changes nothing. */
  lemma SlugIdempotent(title: string)
    ensures Slug(Slug(title)) == Slug(title)
  {
    var s := Slug(title);
    SlugShape(title);
    assert Lower(s) == s;
    DashRunsOfWord(s);
  }

  /** A title without whitespace only gets lower-cased. */
  lemma SlugOfOneWord(title: string)
    requires forall i :: 0 <= i < |title| ==> !IsSpace(title[i])
    ensures Slug(title) == Lower(title)
  {
    DashRunsOfWord(Lower(title));
  }

  /** A leading non-space character is kept as it is. */
  lemma DashRunsKeepsWord(s: string)
    requires s != [] && !IsSpace(s[0])
    ensures DashRuns(s) == [s[0]] + DashRuns(s[1..])
  {
  }

  /** A leading whitespace run becomes one dash. */
  lemma DashRunsCollapses(s: string)
    requires s != [] && IsSpace(s[0])
    ensures DashRuns(s) == "-" + DashRuns(TrimStart(s))
  {
  }

  /** The characters before the first whitespace come through unchanged. */
  lemma {:induction false} DashRunsPrefix(s: string, k: nat)
    requires k <= |s| && forall i :: 0 <= i < k ==> !IsSpace(s[i])
    ensures |DashRuns(s)| >= k && DashRuns(s)[..k] == s[..k]
  {
    if k > 0 {
      DashRunsKeepsWord(s);
      DashRunsPrefix(s[1..], k - 1);
    }
  }

  /** Trimming the start of a string that opens with the whitespace run `s[..j]` leaves `s[j..]`. */
  lemma TrimStartAtRun(s: string, j: nat)
    requires j <= |s| && forall i :: 0 <= i < j ==> IsSpace(s[i])
    requires j == |s| || !IsSpace(s[j])
    ensures TrimStart(s) == s[j..]
  {
    var r := TrimStart(s);
    assert |s| - |r| == j;
  }

  /** A leading whitespace run `s[..j]` becomes one dash. */
  lemma DashRunsLeadingRun(s: string, j: nat)
    requires 0 < j <= |s| && forall i :: 0 <= i < j ==> IsSpace(s[i])
    requires j == |s| || !IsSpace(s[j])
    ensures DashRuns(s) == "-" + DashRuns(s[j..])
  {
    DashRunsCollapses(s);
    TrimStartAtRun(s, j);
  }

  /** Prepending a character to a dash-joined pair. */
  lemma PrependJoined(c: char, u: string, x: string)
    ensures [c] + (u + "-" + x) == ([c] + u) + "-" + x
  {
  }

  /** A leading word character is copied in front of the result for the rest. */
  lemma DashRunsWordStep(s: string, k: nat, x: string)
    requires 0 < k <= |s| && !IsSpace(s[0])
    requires DashRuns(s[1..]) == s[1..k] + "-" + x
    ensures DashRuns(s) == s[..k] + "-" + x
  {
    DashRunsKeepsWord(s);
    assert s[..k] == [s[0]] + s[1..k];
    PrependJoined(s[0], s[1..k], x);
  }

  /** Dropping the first character of a word-then-run string shifts the word and the run by one. */
  lemma RunShifted(s: string, k: nat, j: nat)
    requires 0 < k < j <= |s|
    requires forall i :: 0 <= i < k ==> !IsSpace(s[i])
    requires forall i :: k <= i < j ==> IsSpace(s[i])
    requires j == |s| || !IsSpace(s[j])
    ensures var t := s[1..];
      && (forall i :: 0 <= i < k - 1 ==> !IsSpace(t[i]))
      && (forall i :: k - 1 <= i < j - 1 ==> IsSpace(t[i]))
      && (j - 1 == |t| || !IsSpace(t[j - 1]))
      && t[j - 1..] == s[j..]
  {
    var t := s[1..];
    assert forall i :: 0 <= i < |t| ==> t[i] == s[i + 1];
    assert t[j - 1..] == s[j..];
  }

  /**
   * Each maximal whitespace run becomes one dash: for a word `s[..k]` followed by the run
   * `s[k..j]`, the result is the word, one '-', and the result for what follows the run.
   */
  lemma {:induction false} DashRunsAtRun(s: string, k: nat, j: nat)
    requires k < j <= |s|
    requires forall i :: 0 <= i < k ==> !IsSpace(s[i])
    requires forall i :: k <= i < j ==> IsSpace(s[i])
    requires j == |s| || !IsSpace(s[j])
    ensures DashRuns(s) == s[..k] + "-" + DashRuns(s[j..])
  {
    var x := DashRuns(s[j..]);
    if k == 0 {
      DashRunsLeadingRun(s, j);
      assert s[..0] + "-" + x == "-" + x;
    } else {
      RunShifted(s, k, j);
      DashRunsAtRun(s[1..], k - 1, j - 1);
      assert s[1..][..k - 1] == s[1..k];
      DashRunsWordStep(s, k, x);
    }
  }

  /** Every character that is not whitespace survives into the result. */
  lemma {:induction false} DashRunsKeepsChars(s: string, c: char)
    requires c in s && !IsSpace(c)
    ensures c in DashRuns(s)
    decreases |s|
  {
    if s[0] == c {
      DashRunsKeepsWord(s);
    } else if IsSpace(s[0]) {
      var rest := TrimStart(s);
      var k :| 0 <= k < |s| && s[k] == c;
      assert k >= |s| - |rest|;
      assert rest[k - (|s| - |rest|)] == c;
      DashRunsCollapses(s);
      DashRunsKeepsChars(rest, c);
    } else {
      DashRunsKeepsWord(s);
      DashRunsKeepsChars(s[1..], c);
    }
  }

  /** A slug keeps every character of the title that is neither whitespace nor an upper-case letter. */
  lemma SlugKeepsChars(title: string, c: char)
    requires c in title && !IsSpace(c) && !('A' <= c <= 'Z')
    ensures c in Slug(title)
  {
    var k :| 0 <= k < |title| && title[k] == c;
    assert Lower(title)[k] == c;
    DashRunsKeepsChars(Lower(title), c);
  }

  /**
   * The sample product "Nature's Symphony" has the slug "natures-symphony", which this page
   * would not derive from its title: the apostrophe is kept.
   */
  lemma MockSlugNotDerived()
    ensures MockData.MockProducts[4].slug == "natures-symphony"
    ensures Slug(MockData.MockProducts[4].title) != MockData.MockProducts[4].slug
  {
    var p := MockData.MockProducts[4];
    assert p.title == "Nature's Symphony" && p.slug == "natures-symphony";
    assert p.title[6] == '\'';
    SlugKeepsChars(p.title, '\'');
    assert '\'' !in p.slug;
  }

  /** The search: the lower-cased query occurs in the lower-cased title or type. */
  predicate MatchesSearch(p: AdminProduct, query: string) {
    Contains(Lower(p.title), Lower(query)) || Contains(Lower(p.productType), Lower(query))
  }

  /** `filteredProducts`. */
  function Searched(products: seq<AdminProduct>, query: string): (r: seq<AdminProduct>)
    ensures forall p :: p in r <==> p in products && MatchesSearch(p, query)
  {
    Filter(products, p => MatchesSearch(p, query))
  }

  /** The add/edit form. Price and stock are the text typed into their fields. */
  datatype ProductForm = ProductForm(
    title: string, description: string, price: string, productType: string, stock: string, images: seq<string>)

  /** The form after a reset: every field empty and one empty image field. */
  const EmptyForm := ProductForm("", "", "", "", "", [""])

  /** The submit button is enabled only when title, price, type and stock are all non-empty. */
  predicate SubmitEnabled(f: ProductForm) {
    f.title != "" && f.price != "" && f.productType != "" && f.stock != ""
  }

  /** `images.filter(img => img.trim() !== '')`. */
  function SavedImages(images: seq<string>): (r: seq<string>)
    ensures forall u :: u in r <==> u in images && !IsBlank(u)
  {
    Filter(images, u => !IsBlank(u))
  }

  /** The product the form describes, with the given id, parsed numbers and creation time. */
  function FromForm(f: ProductForm, id: string, price: real, stock: int, createdAt: string): (p: AdminProduct)
    ensures p.id == id && p.createdAt == createdAt && p.title == f.title && p.slug == Slug(f.title)
    ensures p.description == f.description && p.productType == f.productType
    ensures p.price == price && p.stock == stock
    ensures p.images == SavedImages(f.images)
    ensures forall u :: u in p.images <==> u in f.images && !IsBlank(u)
  {
    AdminProduct(id, f.title, Slug(f.title), f.description, price, SavedImages(f.images), f.productType, stock, createdAt)
  }

  /** `prev.map(p => p.id === id ? updated : p)`. */
  function ReplaceById(products: seq<AdminProduct>, id: string, updated: AdminProduct): (r: seq<AdminProduct>)
    ensures |r| == |products|
    ensures forall i :: 0 <= i < |products| ==> r[i] == (if products[i].id == id then updated else products[i])
  {
    seq(|products|, i requires 0 <= i < |products| => if products[i].id == id then updated else products[i])
  }

  /** `prev.filter(p => p.id !== id)`. */
  function WithoutId(products: seq<AdminProduct>, id: string): (r: seq<AdminProduct>)
    ensures forall p :: p in r <==> p in products && p.id != id
  {
    Filter(products, (p: AdminProduct) => p.id != id)
  }

  /** Adding a product with a fresh id and then deleting it gives back the list. */
  lemma AddThenDeleteRestores(products: seq<AdminProduct>, p: AdminProduct)
    requires forall q :: q in products ==> q.id != p.id
    ensures WithoutId(products + [p], p.id) == products
  {
    var keep := (q: AdminProduct) => q.id != p.id;
    FilterAppend(products, [p], keep);
    FilterAll(products, keep);
    assert Filter([p], keep) == [];
  }

  /** Deleting an id no product has changes nothing. */
  lemma DeleteMissingIdKeepsAll(products: seq<AdminProduct>, id: string)
    requires forall q :: q in products ==> q.id != id
    ensures WithoutId(products, id) == products
  {
    FilterAll(products, (p: AdminProduct) => p.id != id);
  }

  /** `[...images, '']`. */
  function WithImageField(images: seq<string>): (r: seq<string>)
    ensures |r| == |images| + 1 && r[..|images|] == images && r[|images|] == ""
  {
    images + [""]
  }

  /** `images.map((img, j) => j === i ? value : img)`: an index outside the list changes nothing. */
  function WithImageAt(images: seq<string>, i: int, value: string): (r: seq<string>)
    ensures |r| == |images|
    ensures forall j :: 0 <= j < |images| ==> r[j] == (if j == i then value else images[j])
  {
    seq(|images|, j requires 0 <= j < |images| => if j == i then value else images[j])
  }

  /** `images.filter((_, j) => j !== i)`: the field at `i` removed, an index outside the list changes nothing. */
  function WithoutImageAt(images: seq<string>, i: int): (r: seq<string>)
    ensures 0 <= i < |images| ==> |r| == |images| - 1
    ensures 0 <= i < |images| ==> forall j :: 0 <= j < i ==> r[j] == images[j]
    ensures 0 <= i < |images| ==> forall j :: i <= j < |r| ==> r[j] == images[j + 1]
    ensures !(0 <= i < |images|) ==> r == images
  {
    if 0 <= i < |images| then images[..i] + images[i + 1..] else images
  }

  class ProductsPage {
    var products: seq<AdminProduct>
    var searchQuery: string
    var addDialogOpen: bool
    var editing: Option<AdminProduct>
    var form: ProductForm

    /** The form always shows at least one image field. */
    predicate Valid()
      reads this
    {
      |form.images| >= 1
    }

    constructor (initial: seq<AdminProduct>)
      ensures Valid()
      ensures products == initial && searchQuery == "" && !addDialogOpen && editing == None && form == EmptyForm
    {
      products := initial;
      searchQuery := "";
      addDialogOpen := false;
      editing := None;
      form := EmptyForm;
    }

    /** `handleAddProduct`: one new product at the end, the form reset, the dialog closed. */
    method AddProduct(newId: string, price: real, stock: int, now: string)
      requires Valid()
      modifies this
      ensures Valid()
      ensures products == old(products) + [FromForm(old(form), newId, price, stock, now)]
      ensures form == EmptyForm && !addDialogOpen && editing == old(editing) && searchQuery == old(searchQuery)
    {
      products := products + [FromForm(form, newId, price, stock, now)];
      form := EmptyForm;
      addDialogOpen := false;
    }

    /** `handleEditProduct`: the product is opened in the form, with one empty field when it has no image. */
    method EditProduct(p: AdminProduct, priceText: string, stockText: string)
      requires Valid()
      modifies this
      ensures Valid()
      ensures editing == Some(p) && products == old(products)
      ensures searchQuery == old(searchQuery) && addDialogOpen == old(addDialogOpen)
      ensures form == ProductForm(p.title, p.description, priceText, p.productType, stockText,
        if |p.images| > 0 then p.images else [""])
    {
      editing := Some(p);
      form := ProductForm(p.title, p.description, priceText, p.productType, stockText,
        if |p.images| > 0 then p.images else [""]);
    }

    /**
     * `handleUpdateProduct`: nothing without an open product; otherwise every product with its
     * id is replaced by the form's product, keeping that id and creation time, and the form resets.
     */
    method UpdateProduct(price: real, stock: int)
      requires Valid()
      modifies this
      ensures Valid()
      ensures old(editing).None? ==> products == old(products) && form == old(form) && editing == None
      ensures old(editing).Some? ==>
        && products == ReplaceById(old(products), old(editing).value.id,
             FromForm(old(form), old(editing).value.id, price, stock, old(editing).value.createdAt))
        && editing == None && form == EmptyForm
      ensures searchQuery == old(searchQuery) && addDialogOpen == old(addDialogOpen)
    {
      if editing.None? {
        return;
      }
      var e := editing.value;
      products := ReplaceById(products, e.id, FromForm(form, e.id, price, stock, e.createdAt));
      editing := None;
      form := EmptyForm;
    }

    /** `handleDeleteProduct`: after confirmation, every product with the id is removed. */
    method DeleteProduct(id: string, confirmed: bool)
      requires Valid()
      modifies this
      ensures Valid()
      ensures products == (if confirmed then WithoutId(old(products), id) else old(products))
      ensures form == old(form) && editing == old(editing)
      ensures searchQuery == old(searchQuery) && addDialogOpen == old(addDialogOpen)
    {
      if confirmed {
        products := WithoutId(products, id);
      }
    }

    /** `addImageField`: one more, empty, image field. */
    method AddImageField()
      requires Valid()
      modifies this
      ensures Valid()
      ensures form == old(form).(images := WithImageField(old(form).images)) && products == old(products)
      ensures editing == old(editing) && searchQuery == old(searchQuery) && addDialogOpen == old(addDialogOpen)
    {
      form := form.(images := WithImageField(form.images));
    }

    /** `updateImageField`: the field at `i` takes the typed value. */
    method UpdateImageField(i: int, value: string)
      requires Valid()
      modifies this
      ensures Valid()
      ensures form == old(form).(images := WithImageAt(old(form).images, i, value)) && products == old(products)
      ensures editing == old(editing) && searchQuery == old(searchQuery) && addDialogOpen == old(addDialogOpen)
    {
      form := form.(images := WithImageAt(form.images, i, value));
    }

    /** The remove button is shown only while there is more than one field, so the list never empties. */
    method RemoveImageField(i: int)
      requires Valid() && |form.images| > 1
      modifies this
      ensures Valid()
      ensures form == old(form).(images := WithoutImageAt(old(form).images, i)) && products == old(products)
      ensures editing == old(editing) && searchQuery == old(searchQuery) && addDialogOpen == old(addDialogOpen)
    {
      form := form.(images := WithoutImageAt(form.images, i));
    }
  }

  /** An update leaves every product with another id, the list's length and every id as they were. */
  lemma UpdateTouchesOnlyItsId(products: seq<AdminProduct>, id: string, f: ProductForm, price: real, stock: int, createdAt: string)
    ensures var r := ReplaceById(products, id, FromForm(f, id, price, stock, createdAt));
      && |r| == |products|
      && (forall i :: 0 <= i < |r| ==> r[i].id == products[i].id)
      && (forall i :: 0 <= i < |r| && products[i].id != id ==> r[i] == products[i])
  {
  }
}
