/**
 * Which product tags refer to which category: the checkbox predicate of
 * `loadProductCategories`, the count predicate of `getProductCountForCategory`,
 * the checkbox refresh, and the tag list `saveProductCategories` writes.
 */
module Matching {
  import opened Wrappers
  import opened Text
  import opened Categories
  import opened Search

  /**
   * A product's `categories` property: absent, an array of tags, or (legacy
   * data) a plain string, on which `includes` is a substring search.
   */
  datatype TagField = Absent | Tags(list: seq<string>) | Str(s: string)

  /** `(product.categories || []).includes(x)`; an empty string is falsy and becomes `[]`. */
  predicate Includes(f: TagField, x: string)
    ensures f.Absent? || f == Str("") ==> !Includes(f, x)
    ensures f.Str? && f.s != "" ==>
              (Includes(f, x) <==> exists i: nat :: OccursAt(f.s, x, i))
  {
    match f
    case Absent => false
    case Tags(ts) => x in ts
    case Str(s) => s != "" && (HasSubstringIff(s, x); HasSubstring(s, x))
  }

  /** The checkbox predicate of `loadProductCategories`. */
  predicate CheckboxChecked(c: Category, f: TagField)
    ensures f.Absent? ==> !CheckboxChecked(c, f)
    ensures f.Tags? && TagFor(c) in f.list ==> CheckboxChecked(c, f)
  {
    Includes(f, Identifier(c)) || Includes(f, c.id) || Includes(f, c.name) || Includes(f, Lower(c.name))
    || (c.name == TodaysOffersName && Includes(f, TodayOfferTag))
  }

  /** The strings that identify a category to the checkbox predicate. */
  function MatchKeys(c: Category): set<string> {
    {Identifier(c), c.id, c.name, Lower(c.name)} + (if c.name == TodaysOffersName then {TodayOfferTag} else {})
  }

  /**
   * On a tag array the checkbox is checked exactly when some tag equals one
   * of the category's keys: exact equality only, no case folding of the tag.
   */
  lemma CheckedIffSharesKey(c: Category, ts: seq<string>)
    ensures CheckboxChecked(c, Tags(ts)) <==> exists t :: t in ts && t in MatchKeys(c)
  {
  }

  /**
   * A missing tag list, or an empty string (falsy, so `|| []` applies), checks nothing.
   * This only gathers the first ensures of `CheckboxChecked` and of `Includes` in one statement.
   */
  lemma AbsentChecksNothing(c: Category)
    ensures !CheckboxChecked(c, Absent) && !CheckboxChecked(c, Str(""))
  {
  }

  /** Upper-case tags do not match a mixed-case name: "NIKE" does not check Nike. */
  lemma NoCaseFolding()
    ensures !CheckboxChecked(DefaultCategories()[2], Tags(["NIKE"]))
  {
    var nike := DefaultCategories()[2];
    assert Lower(nike.name) == "nike";
  }

  /**
   * On a legacy string field `includes` is a substring test, so a category
   * is checked by any string that merely contains one of its keys.
   */
  lemma StringFieldMatchesSubstring(c: Category, s: string, i: nat)
    requires s != "" && i + |c.id| <= |s| && s[i..i + |c.id|] == c.id
    ensures CheckboxChecked(c, Str(s))
  {
    HasSubstringAt(s, i, c.id);
  }

  /** Adding tags never unchecks a category. */
  lemma CheckedMonotone(c: Category, ts: seq<string>, us: seq<string>)
    requires forall t :: t in ts ==> t in us
    requires CheckboxChecked(c, Tags(ts))
    ensures CheckboxChecked(c, Tags(us))
  {
  }

  /** The index `categories.find(cat => cat.id === key)` lands on: the first category with that id. */
  function FindById(cats: seq<Category>, key: string): Option<nat> {
    FindFirst(cats, (c: Category) => c.id == key)
  }

  /** `category ? category.name : categoryId`: an unknown id is used as its own name. */
  function CountName(cats: seq<Category>, key: string): (r: string)
    ensures (forall i :: 0 <= i < |cats| ==> cats[i].id != key) ==> r == key
    ensures (exists i :: 0 <= i < |cats| && cats[i].id == key) ==>
              exists i :: 0 <= i < |cats| && cats[i].id == key && r == cats[i].name
                          && forall j :: 0 <= j < i ==> cats[j].id != key
  {
    match FindById(cats, key)
    case Some(i) => cats[i].name
    case None => key
  }

  /**
   * The count predicate of `getProductCountForCategory`: only a tag array
   * counts, and the identifier (`categoryId`) is not among the keys compared.
   */
  predicate CountMatches(key: string, name: string, f: TagField)
    ensures CountMatches(key, name, f) ==> f.Tags?
    ensures forall c: Category :: c.id == key && c.name == name && CountMatches(key, name, f) ==> CheckboxChecked(c, f)
  {
    f.Tags? && (key in f.list || name in f.list || Lower(name) in f.list
                || (name == TodaysOffersName && TodayOfferTag in f.list))
  }

  /** How many of `fs` satisfy the count predicate. */
  function CountWhere(key: string, name: string, fs: seq<TagField>): (n: nat)
    ensures n == |MatchingPositions(key, name, fs)|
    ensures n <= |fs|
    decreases |fs|
  {
    if fs == [] then
      assert MatchingPositions(key, name, fs) == {};
      0
    else
      MatchingPositionsStep(key, name, fs);
      CountWhere(key, name, fs[..|fs| - 1]) + (if CountMatches(key, name, fs[|fs| - 1]) then 1 else 0)
  }

  /** The positions of `fs` whose field satisfies the count predicate. */
  function MatchingPositions(key: string, name: string, fs: seq<TagField>): set<nat> {
    set i: nat | i < |fs| && CountMatches(key, name, fs[i])
  }

  lemma MatchingPositionsStep(key: string, name: string, fs: seq<TagField>)
    requires fs != []
    ensures var before := MatchingPositions(key, name, fs[..|fs| - 1]);
            |MatchingPositions(key, name, fs)|
              == |before| + (if CountMatches(key, name, fs[|fs| - 1]) then 1 else 0)
  {
    var before := MatchingPositions(key, name, fs[..|fs| - 1]);
    if CountMatches(key, name, fs[|fs| - 1]) {
      assert MatchingPositions(key, name, fs) == before + {|fs| - 1};
    } else {
      assert MatchingPositions(key, name, fs) == before;
    }
  }

  /**
   * `getProductCountForCategory(key)` over the products' tag fields: the
   * number of products whose tag array contains the key, the name, the
   * lower-cased name or (for Today's Offers) the legacy tag.
   */
  function ProductCount(cats: seq<Category>, fs: seq<TagField>, key: string): (n: nat)
    ensures n == |MatchingPositions(key, CountName(cats, key), fs)|
    ensures n <= |fs|
    ensures (forall i :: 0 <= i < |fs| ==> !fs[i].Tags?) ==> n == 0
  {
    var n := CountWhere(key, CountName(cats, key), fs);
    assert (forall i :: 0 <= i < |fs| ==> !fs[i].Tags?) ==> MatchingPositions(key, CountName(cats, key), fs) == {};
    n
  }

  /** How many of `fs` check category `c`'s checkbox. */
  function CheckedCount(c: Category, fs: seq<TagField>): (n: nat)
    ensures n <= |fs|
    decreases |fs|
  {
    if fs == [] then 0
    else CheckedCount(c, fs[..|fs| - 1]) + (if CheckboxChecked(c, fs[|fs| - 1]) then 1 else 0)
  }

  /**
   * For the category `find` returns, every product the count includes also
   * checks that category's checkbox, so the count never exceeds the number of
   * products whose checkbox would be ticked.
   */
  lemma {:induction false} CountAtMostChecked(cats: seq<Category>, fs: seq<TagField>, i: nat)
    requires i < |cats| && FindById(cats, cats[i].id) == Some(i)
    ensures ProductCount(cats, fs, cats[i].id) <= CheckedCount(cats[i], fs)
    decreases |fs|
  {
    if fs != [] {
      CountAtMostChecked(cats, fs[..|fs| - 1], i);
    }
  }

  /**
   * The converse fails: the count ignores `categoryId`. A stored category
   * "Nike Air" with document id "abc123" and no `id` field gets the slug
   * "nike-air" as identifier, so a product tagged by saving that checkbox is
   * checked but not counted.
   */
  lemma CountIgnoresIdentifier()
    ensures var c := ToCategory(StoredDoc("abc123", None, None, Some("Nike Air"), None, None, None, None));
            Identifier(c) == "nike-air"
            && CheckboxChecked(c, Tags(["nike-air"]))
            && ProductCount([c], [Tags(["nike-air"])], c.id) == 0
  {
    var doc := StoredDoc("abc123", None, None, Some("Nike Air"), None, None, None, None);
    var c := ToCategory(doc);
    assert Slug("Nike Air") == "nike-air";
    IdentifierOfStored(doc);
    assert Lower("Nike Air") == "nike air";
    assert FindById([c], c.id) == Some(0);
  }

  /** Whether the category's checkbox exists and is ticked (`checkbox && checkbox.checked`). */
  predicate Ticked(boxes: map<string, bool>, c: Category) {
    Identifier(c) in boxes && boxes[Identifier(c)]
  }

  /**
   * The checkbox state after `loadProductCategories`: visiting categories in
   * order, each category whose checkbox exists overwrites it with its own
   * predicate, so of several categories sharing an identifier the last wins.
   */
  function ApplyCheckboxes(cats: seq<Category>, f: TagField, boxes: map<string, bool>): (r: map<string, bool>)
    ensures r.Keys == boxes.Keys
    decreases |cats|
  {
    if cats == [] then boxes
    else
      var m := ApplyCheckboxes(cats[..|cats| - 1], f, boxes);
      var c := cats[|cats| - 1];
      if Identifier(c) in m then m[Identifier(c) := CheckboxChecked(c, f)] else m
  }

  /** A checkbox that belongs to no category keeps its state. */
  lemma {:induction false} ApplyKeepsForeignBoxes(cats: seq<Category>, f: TagField, boxes: map<string, bool>, k: string)
    requires k in boxes
    requires forall j :: 0 <= j < |cats| ==> Identifier(cats[j]) != k
    ensures ApplyCheckboxes(cats, f, boxes)[k] == boxes[k]
    decreases |cats|
  {
    if cats != [] {
      ApplyKeepsForeignBoxes(cats[..|cats| - 1], f, boxes, k);
    }
  }

  /** The state of a shared checkbox is the predicate of the last category with that identifier. */
  lemma {:induction false} ApplyLastWins(cats: seq<Category>, f: TagField, boxes: map<string, bool>, i: nat)
    requires i < |cats| && Identifier(cats[i]) in boxes
    requires forall j :: i < j < |cats| ==> Identifier(cats[j]) != Identifier(cats[i])
    ensures ApplyCheckboxes(cats, f, boxes)[Identifier(cats[i])] == CheckboxChecked(cats[i], f)
    decreases |cats|
  {
    if i < |cats| - 1 {
      ApplyLastWins(cats[..|cats| - 1], f, boxes, i);
    }
  }

  /** The tags `saveProductCategories` collects: one per ticked category, in category order. */
  function SelectedTags(cats: seq<Category>, boxes: map<string, bool>): (r: seq<string>)
    ensures |r| <= |cats|
    decreases |cats|
  {
    if cats == [] then []
    else
      var c := cats[|cats| - 1];
      SelectedTags(cats[..|cats| - 1], boxes) + (if Ticked(boxes, c) then [TagFor(c)] else [])
  }

  /** The ticked categories, in order (reference definition, recursing from the front). */
  function TickedCategories(cats: seq<Category>, boxes: map<string, bool>): (r: seq<Category>)
    ensures forall c :: c in r ==> c in cats && Ticked(boxes, c)
    decreases |cats|
  {
    if cats == [] then []
    else (if Ticked(boxes, cats[0]) then [cats[0]] else []) + TickedCategories(cats[1..], boxes)
  }

  lemma {:induction false} TickedCategoriesAppend(a: seq<Category>, b: seq<Category>, boxes: map<string, bool>)
    ensures TickedCategories(a + b, boxes) == TickedCategories(a, boxes) + TickedCategories(b, boxes)
    decreases |a|
  {
    if a != [] {
      assert (a + b)[1..] == a[1..] + b;
      TickedCategoriesAppend(a[1..], b, boxes);
    } else {
      assert a + b == b;
    }
  }

  /**
   * The saved list is the ticked categories mapped to their tags: its length
   * is the number of ticked categories and its order is the category order.
   * Nothing is deduplicated.
   */
  lemma {:induction false} SelectedTagsAreTickedTags(cats: seq<Category>, boxes: map<string, bool>)
    ensures var ticked := TickedCategories(cats, boxes);
            SelectedTags(cats, boxes) == seq(|ticked|, i requires 0 <= i < |ticked| => TagFor(ticked[i]))
    decreases |cats|
  {
    if cats != [] {
      var init, last := cats[..|cats| - 1], cats[|cats| - 1];
      SelectedTagsAreTickedTags(init, boxes);
      assert cats == init + [last];
      TickedCategoriesAppend(init, [last], boxes);
      assert TickedCategories([last], boxes) == (if Ticked(boxes, last) then [last] else []) by {
        assert [last][1..] == [];
      }
    }
  }

  /**
   * Replace semantics: each ticked category's tag is in the saved list, and
   * every saved tag is the tag of some ticked category, so earlier tags that
   * no category writes (orphans, names, lower-cased names) are gone.
   */
  lemma {:induction false} SelectedTagsMembers(cats: seq<Category>, boxes: map<string, bool>)
    ensures forall c :: c in cats && Ticked(boxes, c) ==> TagFor(c) in SelectedTags(cats, boxes)
    ensures forall t :: t in SelectedTags(cats, boxes) ==> exists c :: c in cats && Ticked(boxes, c) && TagFor(c) == t
    decreases |cats|
  {
    if cats != [] {
      var init, last := cats[..|cats| - 1], cats[|cats| - 1];
      SelectedTagsMembers(init, boxes);
      assert cats == init + [last];
      forall t | t in SelectedTags(cats, boxes)
        ensures exists c :: c in cats && Ticked(boxes, c) && TagFor(c) == t
      {
        if t in SelectedTags(init, boxes) {
          var c :| c in init && Ticked(boxes, c) && TagFor(c) == t;
          assert c in cats;
        } else {
          assert Ticked(boxes, last) && TagFor(last) == t;
        }
      }
    }
  }

  /** Saving and reloading: every category ticked at save time is checked by the saved list. */
  lemma SaveThenChecked(cats: seq<Category>, boxes: map<string, bool>, c: Category)
    requires c in cats && Ticked(boxes, c)
    ensures CheckboxChecked(c, Tags(SelectedTags(cats, boxes)))
  {
  }

  lemma {:induction false} ReloadKeepsTicks(cats: seq<Category>, ts: seq<string>, boxes: map<string, bool>, k: string)
    requires k in boxes && boxes[k]
    requires exists i :: 0 <= i < |cats| && Identifier(cats[i]) == k
    requires forall t :: t in SelectedTags(cats, boxes) ==> t in ts
    ensures ApplyCheckboxes(cats, Tags(ts), boxes)[k]
    decreases |cats|
  {
    var init, last := cats[..|cats| - 1], cats[|cats| - 1];
    if Identifier(last) == k {
      assert TagFor(last) in SelectedTags(cats, boxes);
    } else {
      var i :| 0 <= i < |cats| && Identifier(cats[i]) == k;
      assert i < |init| && Identifier(init[i]) == k;
      ReloadKeepsTicks(init, ts, boxes, k);
    }
  }

  /**
   * Round trip through the checkboxes: refreshing the checkboxes from the
   * saved list leaves every ticked category checkbox ticked.
   */
  lemma SaveThenReload(cats: seq<Category>, boxes: map<string, bool>, k: string)
    requires k in boxes && boxes[k]
    requires exists i :: 0 <= i < |cats| && Identifier(cats[i]) == k
    ensures ApplyCheckboxes(cats, Tags(SelectedTags(cats, boxes)), boxes)[k]
  {
    ReloadKeepsTicks(cats, SelectedTags(cats, boxes), boxes, k);
  }

  /**
   * The Today's Offers exception: a stored category named "Today's Offers"
   * with document id "abc123" and no `id` field saves the literal
   * "today offer", and that literal checks it again.
   */
  lemma TodaysOffersWritesLiteral()
    ensures var c := ToCategory(StoredDoc("abc123", None, None, Some(TodaysOffersName), None, None, None, None));
            Identifier(c) == "today-s-offers"
            && SelectedTags([c], map["today-s-offers" := true]) == [TodayOfferTag]
            && CheckboxChecked(c, Tags([TodayOfferTag]))
  {
    var doc := StoredDoc("abc123", None, None, Some(TodaysOffersName), None, None, None, None);
    var c := ToCategory(doc);
    assert Slug(TodaysOffersName) == "today-s-offers";
    IdentifierOfStored(doc);
    assert [c][..0] == [];
  }

  /**
   * No deduplication: two categories sharing the identifier "nike" share one
   * checkbox, and ticking it writes the tag twice.
   */
  lemma SharedIdentifierWritesTwice()
    ensures var nike := DefaultCategories()[2];
            var brand := Category("x1", Some("x1"), Some("nike"), "Nike Brand", "", DefaultColor, Some(""));
            SelectedTags([nike, brand], map["nike" := true]) == ["nike", "nike"]
  {
  }
}
