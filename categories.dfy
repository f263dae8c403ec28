/**
 * Category records as `loadCategories` builds them from stored documents,
 * the product-facing identifier, and the built-in default list.
 */
module Categories {
  import opened Wrappers
  import opened Text

  const UnnamedCategory: string := "Unnamed Category"
  const DefaultColor: string := "#667eea"
  /** The display name with the legacy tag exception. */
  const TodaysOffersName: string := "Today's Offers"
  /** The legacy tag that stands for Today's Offers on products. */
  const TodayOfferTag: string := "today offer"

  /**
   * A stored category document: the database's document id and the string
   * fields the document carries (`None` when the field is absent).
   */
  datatype StoredDoc = StoredDoc(
    docId: string,
    id: Option<string>,
    categoryId: Option<string>,
    name: Option<string>,
    image: Option<string>,
    icon: Option<string>,
    color: Option<string>,
    description: Option<string>)

  /** The in-memory category record; `None` stands for a property the object does not have. */
  datatype Category = Category(
    id: string,
    firebaseId: Option<string>,
    categoryId: Option<string>,
    name: string,
    image: string,
    color: string,
    description: Option<string>)

  /** JavaScript truthiness of an optional string field: present and non-empty. */
  predicate Truthy(o: Option<string>) {
    o.Some? && o.value != ""
  }

  /** `o || d` on an optional string field. */
  function OrElse(o: Option<string>, d: string): (r: string)
    ensures Truthy(o) ==> r == o.value
    ensures !Truthy(o) ==> r == d
  {
    if Truthy(o) then o.value else d
  }

  /**
   * `rawData.id || rawData.name?.toLowerCase().replace(/[^a-z0-9]/g, '-') || doc.id`:
   * the stored `id` when truthy, else the slug of a non-empty name, else the document id.
   */
  function DerivedId(doc: StoredDoc): (r: string)
    ensures Truthy(doc.id) ==> r == doc.id.value
    ensures !Truthy(doc.id) && Truthy(doc.name) ==> r == Slug(doc.name.value) && |r| == |doc.name.value|
    ensures !Truthy(doc.id) && !Truthy(doc.name) ==> r == doc.docId
    ensures r == "" ==> doc.docId == ""
  {
    if Truthy(doc.id) then doc.id.value
    else if doc.name.Some? && Slug(doc.name.value) != "" then Slug(doc.name.value)
    else doc.docId
  }

  /** The object literal before its final `...rawData`: document ids and `||` defaults. */
  function Base(doc: StoredDoc): Category {
    Category(
      id := doc.docId,
      firebaseId := Some(doc.docId),
      categoryId := Some(DerivedId(doc)),
      name := OrElse(doc.name, UnnamedCategory),
      image := OrElse(doc.image, OrElse(doc.icon, "")),
      color := OrElse(doc.color, DefaultColor),
      description := Some(OrElse(doc.description, "")))
  }

  /** `...rawData`: every field the document carries replaces the literal's value, empty or not. */
  function Spread(c: Category, doc: StoredDoc): Category {
    c.(id := doc.id.GetOr(c.id),
       categoryId := if doc.categoryId.Some? then doc.categoryId else c.categoryId,
       name := doc.name.GetOr(c.name),
       image := doc.image.GetOr(c.image),
       color := doc.color.GetOr(c.color),
       description := if doc.description.Some? then doc.description else c.description)
  }

  /**
   * The record `loadCategories` maps a document to. Because the spread comes
   * last, a field the document carries wins even when it is empty: the `||`
   * defaults only take effect for absent fields (and for `image`, for an
   * absent `image` whose `icon` decides).
   */
  function ToCategory(doc: StoredDoc): (c: Category)
    ensures c.id == doc.id.GetOr(doc.docId)
    ensures c.firebaseId == Some(doc.docId)
    ensures doc.categoryId.Some? ==> c.categoryId == doc.categoryId
    ensures doc.categoryId.None? ==> c.categoryId == Some(DerivedId(doc))
    ensures c.name == doc.name.GetOr(UnnamedCategory)
    ensures c.color == doc.color.GetOr(DefaultColor)
    ensures c.description == Some(doc.description.GetOr(""))
    ensures doc.image.Some? ==> c.image == doc.image.value
    ensures doc.image.None? ==> c.image == OrElse(doc.icon, "")
  {
    Spread(Base(doc), doc)
  }

  /** `category.categoryId || category.id`: the key of the category's checkbox and the tag saved for it. */
  function Identifier(c: Category): (r: string)
    ensures r == c.id || c.categoryId == Some(r)
    ensures r == "" ==> c.id == ""
  {
    OrElse(c.categoryId, c.id)
  }

  /**
   * For a document that carries no `categoryId` field, the record's identifier
   * is exactly the derived identifier: the stored id, the name slug or the
   * document id, in that order of preference.
   */
  lemma IdentifierOfStored(doc: StoredDoc)
    requires doc.categoryId.None?
    ensures Identifier(ToCategory(doc)) == DerivedId(doc)
    ensures Truthy(doc.id) ==> Identifier(ToCategory(doc)) == ToCategory(doc).id
  {
  }

  /** The tag `saveProductCategories` writes for a checked category. */
  function TagFor(c: Category): (t: string)
    ensures c.name == TodaysOffersName ==> t == TodayOfferTag
    ensures c.name != TodaysOffersName ==> t == Identifier(c)
  {
    if c.name == TodaysOffersName then TodayOfferTag else Identifier(c)
  }

  /** A built-in category: no document id, no `categoryId`, no description. */
  function Builtin(id: string, name: string, image: string, color: string): Category {
    Category(id, None, None, name, image, color, None)
  }

  /** `getDefaultCategories`. */
  function DefaultCategories(): (r: seq<Category>)
    ensures |r| == 8
    ensures r[1].id == TodayOfferTag && r[1].name == TodaysOffersName
    ensures forall i :: 0 <= i < |r| ==> Identifier(r[i]) == r[i].id && r[i].firebaseId.None?
    ensures forall i, j :: 0 <= i < j < |r| ==> r[i].id != r[j].id
  {
    [ Builtin("all", "All Products", "https://via.placeholder.com/60x60?text=ALL", "#667eea"),
      Category("today offer", None, None, "Today's Offers", "https://via.placeholder.com/60x60?text=OFFER", "#6c757d",
               Some("Limited time special offers and deals")),
      Builtin("nike", "Nike", "https://via.placeholder.com/60x60?text=NIKE", "#000000"),
      Builtin("adidas", "Adidas", "https://via.placeholder.com/60x60?text=ADIDAS", "#0066cc"),
      Builtin("shoes", "Shoes", "https://via.placeholder.com/60x60?text=SHOES", "#ff6b35"),
      Builtin("watches", "Watches", "https://via.placeholder.com/60x60?text=WATCH", "#28a745"),
      Builtin("accessories", "Accessories", "https://via.placeholder.com/60x60?text=ACC", "#6f42c1"),
      Builtin("out-of-stock", "Out of Stock", "https://via.placeholder.com/60x60?text=OUT", "#ef4444") ]
  }

  /** What the category query produced: no database object, the fetched documents, or an exception. */
  datatype LoadOutcome = NoDatabase | Fetched(docs: seq<StoredDoc>) | LoadFailed

  /**
   * The list `loadCategories` leaves in `categories`: the mapped documents when
   * the query returned at least one, the default list in every other case.
   */
  function LoadedCategories(outcome: LoadOutcome): (r: seq<Category>)
    ensures |r| > 0
    ensures outcome.Fetched? && |outcome.docs| > 0 ==>
              |r| == |outcome.docs| && forall i :: 0 <= i < |r| ==> r[i] == ToCategory(outcome.docs[i])
    ensures r == DefaultCategories() <==> !(outcome.Fetched? && |outcome.docs| > 0)
  {
    match outcome
    case Fetched(docs) =>
      if |docs| == 0 then DefaultCategories()
      else
        var r := seq(|docs|, i requires 0 <= i < |docs| => ToCategory(docs[i]));
        assert r[0].firebaseId.Some? && DefaultCategories()[0].firebaseId.None?;
        r
    case _ => DefaultCategories()
  }
}
