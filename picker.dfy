/** The model picker of the chat header: the category buttons, the search filter and the lookup of the selected model. */
module Picker {
  import opened Wrappers
  import Seqs
  import Text
  import opened Catalog

  /** The keys of the category buttons, in display order. */
  const Categories: seq<string> :=
    ["all", "openai", "anthropic", "meta", "mistral", "google", "qwen", "microsoft", "deepseek", "free"]

  /** The category that selects every entry. */
  const AllCategory := "all"

  /** The category that also selects entries marked free. */
  const FreeCategory := "free"

  /** The lower-cased name or the lower-cased provider contains the lower-cased term; id and description are not searched. */
  predicate MatchesSearch(m: Model, term: string)
    ensures MatchesSearch(m, term) ==> |term| <= |m.name| || |term| <= |m.provider|
    ensures Text.Lower(term) <= Text.Lower(m.name) || Text.Lower(term) <= Text.Lower(m.provider) ==> MatchesSearch(m, term)
  {
    Text.Contains(Text.Lower(m.name), Text.Lower(term))
    || Text.Contains(Text.Lower(m.provider), Text.Lower(term))
  }

  /** The category rule: `all` admits every entry, `free` admits the free category and every entry marked free. */
  predicate MatchesCategory(m: Model, category: string)
    ensures category == AllCategory ==> MatchesCategory(m, category)
    ensures category != AllCategory && category != FreeCategory ==> (MatchesCategory(m, category) <==> m.category == category)
    ensures category == FreeCategory ==> (MatchesCategory(m, category) <==> m.category == FreeCategory || m.isFree)
  {
    category == AllCategory || m.category == category || (category == FreeCategory && m.isFree)
  }

  /** The filter's test on one entry. */
  function Criterion(term: string, category: string): Model -> bool {
    (m: Model) => MatchesSearch(m, term) && MatchesCategory(m, category)
  }

  /**
   * `filteredModels`: the catalog entries that match both the search term and the category,
   * in catalog order. An entry is kept exactly when it matches both.
   */
  function FilteredModels(term: string, category: string): (r: seq<Model>)
    ensures Seqs.IsSubsequence(r, AllModels)
    ensures forall m | m in r :: m in AllModels && MatchesSearch(m, term) && MatchesCategory(m, category)
    ensures forall m | m in AllModels && MatchesSearch(m, term) && MatchesCategory(m, category) :: m in r
  {
    Seqs.Filter(AllModels, Criterion(term, category))
  }

  /** The catalog's categories are exactly the buttons after `all`. */
  lemma CategoryKeys()
    ensures Categories == [AllCategory] + VendorCategories
    ensures AllCategory !in VendorCategories
  {
  }

  /** Every entry's category is one of the button keys other than `all`. */
  lemma CatalogCategoriesListed()
    ensures forall m | m in AllModels :: m.category in Categories[1..] && m.category != AllCategory
  {
    CatalogCategories();
    CategoryKeys();
  }

  /** The empty term matches every entry. */
  lemma EmptySearchMatches(m: Model)
    ensures MatchesSearch(m, "")
  {
    Text.ContainsEmpty(Text.Lower(m.name));
  }

  /** With an empty search term and the `all` category the picker lists the whole catalog. */
  lemma UnfilteredIsCatalog()
    ensures FilteredModels("", AllCategory) == AllModels
  {
    forall m | m in AllModels ensures Criterion("", AllCategory)(m) {
      EmptySearchMatches(m);
    }
    Seqs.FilterAll(AllModels, Criterion("", AllCategory));
  }

  /** Under a vendor category every listed entry has exactly that category. */
  lemma VendorCategoryExact(term: string, category: string)
    requires category != AllCategory && category != FreeCategory
    ensures forall m | m in FilteredModels(term, category) :: m.category == category
    ensures forall m | m in AllModels && m.category == category && MatchesSearch(m, term) :: m in FilteredModels(term, category)
  {
  }

  /**
   * Under the `free` category an entry is listed exactly when it matches the search and is in the
   * free category or marked free.
   */
  lemma FreeCategoryExact(term: string)
    ensures forall m | m in FilteredModels(term, FreeCategory) :: m.category == FreeCategory || m.isFree
    ensures forall m | m in AllModels && (m.category == FreeCategory || m.isFree) && MatchesSearch(m, term) ::
      m in FilteredModels(term, FreeCategory)
  {
  }

  /** The free filter lists Llama 3.1 8B, although its category is `meta`, because it is marked free. */
  lemma FreeFilterListsMarkedVendorEntry()
    ensures MetaModels[2].category == "meta" && MetaModels[2].isFree
    ensures MetaModels[2] in FilteredModels("", FreeCategory)
  {
    InFlatten(VendorGroups, 2, 2);
    assert VendorGroups[2] == MetaModels;
    EmptySearchMatches(MetaModels[2]);
  }

  /** The search ignores case: a term and its lower-cased form select the same entries. */
  lemma SearchIgnoresCase(term: string, category: string)
    ensures FilteredModels(term, category) == FilteredModels(Text.Lower(term), category)
  {
    Text.LowerIdempotent(term);
    Seqs.FilterAgree(AllModels, Criterion(term, category), Criterion(Text.Lower(term), category));
  }

  /** `selectedModel`: the first catalog entry whose id is `id`, absent when there is none. */
  function SelectedModel(id: string): (r: Option<Model>)
    ensures r.None? <==> forall i | 0 <= i < |AllModels| :: AllModels[i].id != id
    ensures r.Some? ==> r.value in AllModels && r.value.id == id
  {
    Seqs.Find(AllModels, (m: Model) => m.id == id)
  }

  /** Since identifiers are distinct, the lookup finds the one entry carrying the identifier. */
  lemma SelectedModelIsTheEntry(m: Model)
    requires m in AllModels
    ensures SelectedModel(m.id) == Some(m)
  {
    CatalogIdsDistinct();
    var k :| 0 <= k < |AllModels| && AllModels[k] == m;
    Seqs.FindFirst(AllModels, (x: Model) => x.id == m.id, k);
  }
}
