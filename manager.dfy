/**
 * The manager's in-memory state: the category list, the product objects and
 * the selected product, which is one of those objects (not a copy), so that
 * writing its tags is visible through `products` as well.
 */
module Manager {
  import opened Wrappers
  import opened Categories
  import opened Matching
  import opened Search

  /** A loaded product: its document id and its mutable `categories` property. */
  class Product {
    const id: string
    var categories: TagField

    constructor(id: string, categories: TagField)
      ensures this.id == id && this.categories == categories
    {
      this.id := id;
      this.categories := categories;
    }
  }

  /** `products.find(product => product.id === id)` and `findIndex`: the first product with the id. */
  function FindIndex(ps: seq<Product>, id: string): Option<nat> {
    FindFirst(ps, (p: Product) => p.id == id)
  }

  /** The products' `categories` properties, in order. */
  function TagFields(ps: seq<Product>): (r: seq<TagField>)
    reads ps
    ensures |r| == |ps| && forall i :: 0 <= i < |ps| ==> r[i] == ps[i].categories
    decreases |ps|
  {
    if ps == [] then [] else [ps[0].categories] + TagFields(ps[1..])
  }

  /** What the product update call did: there is no database object, it resolved, or it threw. */
  datatype DbOutcome = NoDatabase | Updated | UpdateThrew

  /** The message `saveProductCategories` ends with. */
  datatype SaveStatus = NoProductSelected | Saved | SaveFailed

  class CategoryManager {
    var categories: seq<Category>
    var products: seq<Product>
    var selectedProduct: Product?

    /** The selected product is the first product carrying its id, as `find` returned it. */
    ghost predicate Valid()
      reads this
    {
      selectedProduct != null ==>
        var i := FindIndex(products, selectedProduct.id);
        i.Some? && products[i.value] == selectedProduct
    }

    /** The manager after construction, holding the products `loadProducts` produced. */
    constructor(loaded: seq<Product>)
      ensures Valid()
      ensures categories == [] && products == loaded && selectedProduct == null
    {
      categories := [];
      products := loaded;
      selectedProduct := null;
    }

    /** `loadCategories`: the mapped documents, or the default list when none loaded or the query threw. */
    method LoadCategories(outcome: LoadOutcome)
      requires Valid()
      modifies this`categories
      ensures Valid()
      ensures categories == LoadedCategories(outcome)
    {
      match outcome {
        case Fetched(docs) =>
          categories := seq(|docs|, i requires 0 <= i < |docs| => ToCategory(docs[i]));
        case NoDatabase =>
          categories := DefaultCategories();
        case LoadFailed =>
          categories := DefaultCategories();
      }
      if |categories| == 0 {
        categories := DefaultCategories();
      }
    }

    /** `getProductCountForCategory(key)`. */
    function ProductCountFor(key: string): (n: nat)
      reads this, products
      ensures n <= |products|
      ensures n == |set i: nat | i < |products| && CountMatches(key, CountName(categories, key), products[i].categories)|
    {
      var fs := TagFields(products);
      assert MatchingPositions(key, CountName(categories, key), fs)
          == (set i: nat | i < |products| && CountMatches(key, CountName(categories, key), products[i].categories));
      ProductCount(categories, fs, key)
    }

    /**
     * `loadProductCategories`: given the checkbox state, the state after
     * every category's checkbox has been set from the selected product's tags.
     */
    method LoadProductCategories(boxes: map<string, bool>) returns (r: map<string, bool>)
      ensures r.Keys == boxes.Keys
      ensures selectedProduct == null ==> r == boxes
      ensures selectedProduct != null ==> r == ApplyCheckboxes(categories, selectedProduct.categories, boxes)
    {
      r := boxes;
      if selectedProduct == null {
        return;
      }
      var tags := selectedProduct.categories;
      for i := 0 to |categories|
        invariant r == ApplyCheckboxes(categories[..i], tags, boxes)
      {
        var c := categories[i];
        var key := Identifier(c);
        assert categories[..i + 1][..i] == categories[..i];
        if key in r {
          r := r[key := CheckboxChecked(c, tags)];
        }
      }
      assert categories[..|categories|] == categories;
    }

    /**
     * `selectProduct`: select the first product with the id (or nothing when
     * there is none) and, when one was found, refresh the checkboxes.
     */
    method SelectProduct(productId: string, boxes: map<string, bool>) returns (r: map<string, bool>)
      requires Valid()
      modifies this`selectedProduct
      ensures Valid()
      ensures FindIndex(products, productId).None? ==> selectedProduct == null && r == boxes
      ensures FindIndex(products, productId).Some? ==>
                selectedProduct == products[FindIndex(products, productId).value]
                && r == ApplyCheckboxes(categories, selectedProduct.categories, boxes)
    {
      var i := FindIndex(products, productId);
      selectedProduct := if i.Some? then products[i.value] else null;
      r := boxes;
      if selectedProduct != null {
        r := LoadProductCategories(boxes);
      }
    }

    /**
     * `saveProductCategories`: collect one tag per ticked category and, unless
     * the database update throws, replace the selected product's tags (and so
     * the tags of the first product with its id) by that list.
     */
    method SaveProductCategories(boxes: map<string, bool>, db: DbOutcome) returns (status: SaveStatus)
      requires Valid()
      modifies selectedProduct, products
      ensures Valid()
      ensures old(selectedProduct) == null ==> status == NoProductSelected
      ensures selectedProduct != null && db == UpdateThrew ==> status == SaveFailed
      ensures selectedProduct != null && db != UpdateThrew ==>
                status == Saved && selectedProduct.categories == Tags(SelectedTags(categories, boxes))
                && var i := FindIndex(products, selectedProduct.id);
                   i.Some? && products[i.value].categories == Tags(SelectedTags(categories, boxes))
      ensures status != Saved ==> forall j :: 0 <= j < |products| ==> products[j].categories == old(products[j].categories)
      ensures forall j :: 0 <= j < |products| && products[j] != selectedProduct ==>
                products[j].categories == old(products[j].categories)
    {
      if selectedProduct == null {
        return NoProductSelected;
      }
      var selected: seq<string> := [];
      for i := 0 to |categories|
        invariant selected == SelectedTags(categories[..i], boxes)
      {
        var c := categories[i];
        assert categories[..i + 1][..i] == categories[..i];
        if Identifier(c) in boxes && boxes[Identifier(c)] {
          var tag := Identifier(c);
          if c.name == TodaysOffersName {
            tag := TodayOfferTag;
          }
          selected := selected + [tag];
        }
      }
      assert categories[..|categories|] == categories;
      if db == UpdateThrew {
        return SaveFailed;
      }
      selectedProduct.categories := Tags(selected);
      var productIndex := FindIndex(products, selectedProduct.id);
      if productIndex.Some? {
        products[productIndex.value].categories := Tags(selected);
      }
      status := Saved;
    }
  }

  /**
   * Selecting a product, saving with a database that accepts the update, and
   * refreshing the checkboxes: the product now carries exactly the collected
   * tags, and every ticked checkbox that belongs to a category is still ticked.
   */
  method SelectSaveReload(m: CategoryManager, productId: string, boxes: map<string, bool>)
    returns (shown: map<string, bool>, reloaded: map<string, bool>)
    requires m.Valid()
    requires FindIndex(m.products, productId).Some?
    modifies m, m.products
    ensures m.Valid() && m.products == old(m.products) && m.categories == old(m.categories)
    ensures var p := m.products[FindIndex(m.products, productId).value];
            m.selectedProduct == p && p.categories == Tags(SelectedTags(m.categories, shown))
    ensures reloaded.Keys == shown.Keys
    ensures forall k :: k in shown && shown[k] && (exists i :: 0 <= i < |m.categories| && Identifier(m.categories[i]) == k)
              ==> reloaded[k]
  {
    shown := m.SelectProduct(productId, boxes);
    var status := m.SaveProductCategories(shown, Updated);
    reloaded := m.LoadProductCategories(shown);
    forall k | k in shown && shown[k] && exists i :: 0 <= i < |m.categories| && Identifier(m.categories[i]) == k
      ensures reloaded[k]
    {
      SaveThenReload(m.categories, shown, k);
    }
  }
}
