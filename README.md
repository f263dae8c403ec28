# Category reconciliation of the admin category manager

A Dafny model of the logic inside `AdminCategoryManager` (admin-categories.js) that decides
which categories a product belongs to and which tags are written back. The DOM and the
database calls around that logic are left out. It covers these parts:

- **Category records.** `loadCategories` turns each stored category document into an in-memory
  record. The record's product-facing identifier is `categoryId || id`. When nothing loads, or
  loading throws, the eight built-in default categories are used instead.
- **Identity matching.** A product's free-text `categories` list is matched against a category
  in two ways, which differ:
  - The checkbox predicate (`loadProductCategories`) accepts the identifier, the id, the exact
    name, the lower-cased name and, for "Today's Offers", the legacy tag `"today offer"`.
  - The count predicate (`getProductCountForCategory`) accepts the same keys except the
    identifier, and only counts products whose `categories` is an array.
- **Saving.** `saveProductCategories` collects one tag per category whose checkbox is ticked and replaces the
  product's tag list with it.
- **The manager's state.** `categories`, `products` and `selectedProduct` live in a class.
  Products are objects, so the selected product is the same object as its entry in `products`.

Modules:
- `Wrappers`: `Option`.
- `Search`: the first-match search behind `find` and `findIndex`.
- `Text`: ASCII lower-casing, the identifier slug, and substring search.
- `Categories`: stored documents, records, identifiers, defaults and the load fallback.
- `Matching`: both predicates, the checkbox refresh, the collected tag list, and the lemmas
  relating them.
- `Manager`: the `Product` and `CategoryManager` classes.

The checkbox state lives in the page, not in the manager. It is a `map<string, bool>` keyed by
category identifier (`cat_${identifier}` in the page). A missing key means no checkbox element
exists for that identifier. Categories that share an identifier share one checkbox. The
database is an outcome parameter: no database object, the call succeeded, or the call threw.

Four behaviours of admin-categories.js worth noting:
- The slug replaces every character outside `[a-z0-9]` with its own dash; it does not collapse
  runs.
- The saved list is not deduplicated.
- A failed load falls back to the default list, not to the previous snapshot.
- The count predicate does not test `categoryId`.

## Model

| member | source | states |
|---|---|---|
| Text.Lower | admin-categories.js:615 | each position becomes its character lower-cased ('A'..'Z' shifted by 32, everything else kept), so the result has the same length, no upper-case ASCII letter, and a string already in lower case is unchanged |
| Text.Slug | admin-categories.js:85 | the slug has the name's length (one dash per replaced character, no run collapsing; characters outside the Basic Multilingual Plane are one character here, see Left out), consists only of `[a-z0-9-]`, and is empty exactly when the name is |
| Text.SlugAt | admin-categories.js:85 | position by position, a lower-cased letter or digit survives and every other character becomes '-' |
| Text.SlugIsFixedPoint | admin-categories.js:85 | slugging a slug changes nothing |
| Text.HasSubstringAt | admin-categories.js:604-616 | string `includes` holds for any string occurring at some position |
| Text.SubstringPosition | admin-categories.js:604-616 | conversely, a string `includes` finds occurs at some position, which the lemma returns |
| Text.HasSubstringIff | admin-categories.js:604-616 | string `includes` holds exactly when the string occurs at some position |
| Categories.DerivedId | admin-categories.js:85 | the stored `id` when truthy, else the slug of a non-empty name (same length as the name), else the document id; never empty unless the document id is |
| Categories.ToCategory | admin-categories.js:80-94 | fields the document carries override the record's defaults and document ids, even when empty; absent ones get 'Unnamed Category', '#667eea', '' and the document id; `firebaseId` is the document id (for documents without a `firebaseId` field, the only kind modelled) |
| Categories.Identifier | admin-categories.js:608 | the identifier is either the record id or its `categoryId`, and is empty only when the id is |
| Categories.IdentifierOfStored | admin-categories.js:85 | for a document without a `categoryId` field, the record's identifier is the derived identifier, and equals the record id when the stored id is truthy |
| Categories.TagFor | admin-categories.js:634-639 | the saved tag is "today offer" for Today's Offers and the identifier otherwise |
| Categories.DefaultCategories | admin-categories.js:124-134 | eight categories with distinct ids, each its own identifier and none with a document id; entry 1 is `today offer` / Today's Offers |
| Categories.LoadedCategories | admin-categories.js:73-118 | never empty; the mapped documents when at least one was fetched; exactly the default list when there is no database, the query threw, or it returned nothing |
| Matching.Includes | admin-categories.js:604 | a missing or empty-string field includes nothing; on a non-empty string it holds exactly when `x` occurs at some position |
| Matching.CheckboxChecked | admin-categories.js:612-616 | a missing tag list checks nothing, and a tag array containing the tag that saving writes for the category always checks it |
| Matching.CheckedIffSharesKey | admin-categories.js:612-616 | on a tag array the checkbox is checked iff some tag equals one of identifier, id, name, lower-cased name, or "today offer" for Today's Offers |
| Matching.AbsentChecksNothing | admin-categories.js:604 | a missing (or empty-string) tag list checks no category |
| Matching.NoCaseFolding | admin-categories.js:612-616 | "NIKE" does not check the Nike category: matching is exact |
| Matching.StringFieldMatchesSubstring | admin-categories.js:604-616 | on a non-empty string field a category is checked by any string containing its id |
| Matching.CheckedMonotone | admin-categories.js:612-616 | adding tags never unchecks a category |
| Matching.CountName | admin-categories.js:486-487 | the name of the first category with the id, or the id itself when no category has it |
| Matching.CountMatches | admin-categories.js:489-497 | only a tag array can match, and whatever the count predicate accepts for a category's id and name also checks that category's checkbox |
| Matching.CountWhere | admin-categories.js:489-497 | the count is exactly the number of positions whose field satisfies the count predicate, hence at most the number of products |
| Matching.ProductCount | admin-categories.js:484-498 | exactly the number of products whose tag array contains the id, the name (of the first category with that id, else the id), the lower-cased name, or "today offer" for Today's Offers; at most the number of products; zero when no product has a tag array |
| Matching.CountAtMostChecked | admin-categories.js:484-498 | for the category `find` returns, the count is at most the number of products that check its checkbox |
| Matching.CountIgnoresIdentifier | admin-categories.js:493-496 | a stored "Nike Air" category has identifier "nike-air"; the tag "nike-air" checks it but the count is 0 |
| Matching.ApplyCheckboxes | admin-categories.js:607-618 | refreshing the checkboxes creates and removes none |
| Matching.ApplyKeepsForeignBoxes | admin-categories.js:607-618 | a checkbox whose key is no category's identifier keeps its state |
| Matching.ApplyLastWins | admin-categories.js:607-618 | a shared checkbox ends with the predicate of the last category carrying that identifier |
| Matching.SelectedTags | admin-categories.js:628-643 | the collected list has at most one tag per category |
| Matching.SelectedTagsAreTickedTags | admin-categories.js:628-643 | the collected list is the ticked categories, in category order, mapped to their tags, without deduplication |
| Matching.SelectedTagsMembers | admin-categories.js:628-643 | each ticked category's tag is in the list and each listed tag is some ticked category's tag, so old unrelated tags are dropped |
| Matching.SaveThenChecked | admin-categories.js:612-641 | every category ticked at save time is checked by the saved list |
| Matching.SaveThenReload | admin-categories.js:607-643 | refreshing the checkboxes from the saved list keeps every ticked category checkbox ticked |
| Matching.TodaysOffersWritesLiteral | admin-categories.js:636-639 | a stored Today's Offers category with id "abc123" has identifier "today-s-offers", saves "today offer", and that tag checks it |
| Matching.SharedIdentifierWritesTwice | admin-categories.js:630-641 | two categories sharing identifier "nike" both write "nike" when the shared box is ticked |
| Search.FindFirst | admin-categories.js:578 | the first element satisfying the test, or none when no element does; used for `find` on products (578) and categories (486) and for `findIndex` (656) |
| Manager.CategoryManager.constructor | admin-categories.js:3-8 | no categories and no selected product; holds the loaded products |
| Manager.CategoryManager.LoadCategories | admin-categories.js:70-121 | `categories` becomes the loaded list (with default fallback); products and selection are untouched |
| Manager.CategoryManager.ProductCountFor | admin-categories.js:484-498 | exactly the number of current products whose `categories` satisfies the count predicate for the key, hence at most their number |
| Manager.CategoryManager.LoadProductCategories | admin-categories.js:601-619 | without a selection the checkboxes are unchanged; otherwise each is set from the selected product's tags |
| Manager.CategoryManager.SelectProduct | admin-categories.js:565-584 | selects the first product with the id and refreshes the checkboxes; if there is none, the selection becomes empty and nothing further happens |
| Manager.CategoryManager.SaveProductCategories | admin-categories.js:621-667 | with no selection or a throwing update nothing changes; otherwise the selected product and the first product with its id get exactly the collected tags, and every other product is untouched |
| Manager.SelectSaveReload | admin-categories.js:565-667 | selecting, saving and refreshing leaves the product with exactly the collected tags and every ticked category checkbox ticked |

## Left out

- Database and local-storage access are left out, and so are `init` with its connection test, `loadProducts`, `handleAddCategory`, `handleEditCategory` and `deleteCategory`. These are I/O against external services. Products enter through the manager's constructor. Category loading and the product update are outcome parameters.
- Rendering is left out: `renderCategoriesTable`, `renderProductsList`, `renderSelectedProduct`, `renderCategoryCheckboxes` and `showMessage`. So are the live preview, the colour picker, the edit modal, the global wrappers and the page bootstrap. Which checkbox elements exist is given by the keys of the checkbox map.
- Logging, the `updatedAt` timestamp sent with the product update, `Date.now()` ids and the mock products are left out.
- Text.Lower: lower-cases only ASCII letters; full Unicode `toLowerCase` is not modelled.
- Text.Slug: strings are modelled as sequences of Unicode scalar values, while the page's strings are UTF-16 code units and the regular expression has no `u` flag. A character outside the Basic Multilingual Plane (an emoji, say) therefore becomes two dashes on the page and one in the model. For such names the checkbox key and the saved tag differ from the page's. String equality and `includes` agree either way.
- Document fields holding something other than a string (null, numbers, booleans) are not modelled. Fields other than `id`, `categoryId`, `name`, `image`, `icon`, `color` and `description` are not modelled either (such as `special`, or a stored `firebaseId` that the spread would copy over the document id), because the spread copies them but no modelled operation reads them.
- A product `categories` value other than absent, an array of strings or a string is not modelled. A falsy value (`null`, `false`, `0`) behaves like `Absent`: `|| []` turns it into an empty list for the checkbox, and the count rejects it as a non-array. A truthy non-array, non-string value is rejected by the count, and the checkbox refresh throws on it because it has no `includes`.
- Awaits are modelled as sequential steps. No interleaving of the asynchronous calls is modelled.
