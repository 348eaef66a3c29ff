/**
 * The pharmacy catalogue page: the medicine record, the search-and-category
 * filter, the three-way stock badge and the stock-dependent parts of a card.
 */
module Pharmacy {
  import opened Wrappers
  import opened Text

  /** A catalogue entry. `form` is the record's `type` field (tablet, capsule, ...). */
  datatype Medicine = Medicine(
    id: int,
    name: string,
    genericName: string,
    form: string,
    price: int,
    stock: int,
    manufacturer: string,
    alternatives: Option<seq<string>>,
    prescription: bool)

  /** The page's own state: two strings, each replaced wholesale by its input control. */
  datatype View = View(searchQuery: string, selectedCategory: string)

  const InitialView := View("", "all")

  /** The category buttons, in display order. */
  const Categories: seq<string> := ["all", "Tablet", "Capsule", "Syrup", "Injection"]

  /** The hard-coded catalogue. */
  function Catalogue(): (ms: seq<Medicine>)
    ensures |ms| == 4
    ensures forall i, j :: 0 <= i < j < |ms| ==> ms[i].id != ms[j].id
  {
    [ Medicine(1, "Paracetamol 500mg", "Acetaminophen", "Tablet", 25, 150, "Sun Pharma",
               Some(["Crocin", "Dolo 650"]), false),
      Medicine(2, "Amoxicillin 250mg", "Amoxicillin", "Capsule", 85, 0, "Cipla",
               Some(["Augmentin", "Clavam"]), true),
      Medicine(3, "Cetirizine 10mg", "Cetirizine", "Tablet", 45, 75, "Dr. Reddy's",
               Some(["Zyrtec", "Alerid"]), false),
      Medicine(4, "Metformin 500mg", "Metformin", "Tablet", 120, 30, "Lupin",
               Some(["Glucophage", "Diabex"]), true) ]
  }

  // ---------------------------------------------------------------- filter

  /** The lower-cased query occurs in the lower-cased name or generic name. */
  predicate MatchesSearch(m: Medicine, query: string) {
    Contains(Lower(m.name), Lower(query)) || Contains(Lower(m.genericName), Lower(query))
  }

  /** The category is "all" or is exactly (case-sensitively) the medicine's form. */
  predicate MatchesCategory(m: Medicine, category: string) {
    category == "all" || m.form == category
  }

  predicate Passes(m: Medicine, query: string, category: string) {
    MatchesSearch(m, query) && MatchesCategory(m, category)
  }

  /** `medicines.filter(...)`: the medicines that pass both tests, in catalogue order. */
  function Filter(ms: seq<Medicine>, query: string, category: string): (r: seq<Medicine>)
    ensures |r| <= |ms|
    ensures forall m :: m in r ==> m in ms && Passes(m, query, category)
    ensures forall i :: 0 <= i < |ms| && Passes(ms[i], query, category) ==> ms[i] in r
  {
    if ms == [] then []
    else
      var rest := Filter(ms[1..], query, category);
      assert forall i :: 1 <= i < |ms| ==> ms[i] == ms[1..][i - 1];
      if Passes(ms[0], query, category) then [ms[0]] + rest else rest
  }

  /** `r` can be obtained from `s` by deleting elements. */
  predicate IsSubsequence<T(==)>(r: seq<T>, s: seq<T>)
    decreases |s|
  {
    if r == [] then true
    else if s == [] then false
    else (r[0] == s[0] && IsSubsequence(r[1..], s[1..])) || IsSubsequence(r, s[1..])
  }

  /** The filtered list keeps the catalogue's order: it is a subsequence. */
  lemma {:induction false} FilterIsSubsequence(ms: seq<Medicine>, query: string, category: string)
    ensures IsSubsequence(Filter(ms, query, category), ms)
  {
    if ms != [] {
      FilterIsSubsequence(ms[1..], query, category);
      var rest := Filter(ms[1..], query, category);
      if Passes(ms[0], query, category) {
        assert ([ms[0]] + rest)[1..] == rest;
      } else if rest != [] {
        assert IsSubsequence(rest, ms[1..]);
      }
    }
  }

  /** A medicine is listed exactly when it is in the catalogue and passes both tests. */
  lemma FilterMembership(ms: seq<Medicine>, query: string, category: string, m: Medicine)
    ensures m in Filter(ms, query, category) <==> m in ms && Passes(m, query, category)
  {
    if m in ms && Passes(m, query, category) {
      var i :| 0 <= i < |ms| && ms[i] == m;
    }
  }

  /** Each medicine is listed as many times as the catalogue holds it if it passes, and never otherwise. */
  lemma {:induction false} FilterMultiplicity(ms: seq<Medicine>, query: string, category: string, m: Medicine)
    ensures multiset(Filter(ms, query, category))[m]
            == if Passes(m, query, category) then multiset(ms)[m] else 0
  {
    if ms != [] {
      FilterMultiplicity(ms[1..], query, category, m);
      assert ms == [ms[0]] + ms[1..];
    }
  }

  /** Filtering a concatenation filters each part. */
  lemma {:induction false} FilterConcat(a: seq<Medicine>, b: seq<Medicine>, query: string, category: string)
    ensures Filter(a + b, query, category) == Filter(a, query, category) + Filter(b, query, category)
  {
    if a == [] {
      assert a + b == b;
    } else {
      assert (a + b)[0] == a[0] && (a + b)[1..] == a[1..] + b;
      FilterConcat(a[1..], b, query, category);
    }
  }

  /** An empty query and the "all" category list the whole catalogue, unchanged. */
  lemma {:induction false} FilterNoCriteria(ms: seq<Medicine>)
    ensures Filter(ms, "", "all") == ms
  {
    if ms != [] {
      ContainsEmpty(Lower(ms[0].name));
      FilterNoCriteria(ms[1..]);
    }
  }

  /** Filtering the filtered list again changes nothing. */
  lemma {:induction false} FilterIdempotent(ms: seq<Medicine>, query: string, category: string)
    ensures Filter(Filter(ms, query, category), query, category) == Filter(ms, query, category)
  {
    if ms != [] {
      FilterIdempotent(ms[1..], query, category);
    }
  }

  /** Only the search text is case-folded: a query and its lower-cased form list the same medicines. */
  lemma {:induction false} FilterIgnoresQueryCase(ms: seq<Medicine>, query: string, category: string)
    ensures Filter(ms, Lower(query), category) == Filter(ms, query, category)
  {
    LowerIdempotent(query);
    if ms != [] {
      FilterIgnoresQueryCase(ms[1..], query, category);
    }
  }

  /** Category matching is exact: a category that differs from every form, even only in case, lists nothing. */
  lemma {:induction false} FilterUnknownCategory(ms: seq<Medicine>, query: string, category: string)
    requires category != "all"
    requires forall i :: 0 <= i < |ms| ==> ms[i].form != category
    ensures Filter(ms, query, category) == []
  {
    if ms != [] {
      FilterUnknownCategory(ms[1..], query, category);
    }
  }

  /** The page as first shown lists the whole catalogue. */
  lemma InitialViewListsCatalogue()
    ensures Filter(Catalogue(), InitialView.searchQuery, InitialView.selectedCategory) == Catalogue()
  {
    FilterNoCriteria(Catalogue());
  }

  /** On the catalogue, selecting "tablet" (lower case) lists nothing although three medicines are "Tablet". */
  lemma CatalogueCategoryIsCaseSensitive()
    ensures Filter(Catalogue(), "", "tablet") == []
  {
    FilterUnknownCategory(Catalogue(), "", "tablet");
  }

  /** The "Syrup" and "Injection" buttons list nothing on the catalogue, whatever the search text. */
  lemma CatalogueHasNoSyrupOrInjection(query: string, k: nat)
    requires 3 <= k < |Categories|
    ensures Filter(Catalogue(), query, Categories[k]) == []
  {
    FilterUnknownCategory(Catalogue(), query, Categories[k]);
  }

  // ---------------------------------------------------------------- stock

  /** The stock badge. */
  datatype StockBadge = OutOfStock | LowStock | InStock

  /** The text each badge shows. */
  function BadgeLabel(b: StockBadge): string {
    match b
    case OutOfStock => "Out of Stock"
    case LowStock => "Low Stock"
    case InStock => "In Stock"
  }

  /** The three badges read differently. */
  lemma BadgeLabelsDistinct(a: StockBadge, b: StockBadge)
    ensures BadgeLabel(a) == BadgeLabel(b) <==> a == b
  {
  }

  /** `getStockBadge`: every count falls in exactly one class; negative counts are "Low Stock". */
  function StockBadgeFor(stock: int): (b: StockBadge)
    ensures b == OutOfStock <==> stock == 0
    ensures b == LowStock <==> stock < 50 && stock != 0
    ensures b == InStock <==> 50 <= stock
  {
    if stock == 0 then OutOfStock
    else if stock < 50 then LowStock
    else InStock
  }

  /** The action buttons of a card. */
  datatype Actions = AddToCartAndInfo | NotifyWhenAvailable

  /** What a card shows that depends on the record rather than on styling. */
  datatype Card = Card(
    badge: StockBadge,
    stockCount: Option<int>,
    actions: Actions,
    alternatives: Option<seq<string>>,
    rxTag: bool)

  /** One medicine card: the badge, the "Stock:" line, the buttons and the alternatives panel. */
  function CardFor(m: Medicine): (c: Card)
    ensures c.badge == StockBadgeFor(m.stock)
    ensures c.stockCount.Some? <==> 0 < m.stock
    ensures c.stockCount.Some? ==> c.stockCount.value == m.stock
    ensures c.actions == AddToCartAndInfo <==> c.stockCount.Some?
    ensures c.alternatives.Some? <==> m.alternatives.Some? && c.badge == OutOfStock
    ensures c.alternatives.Some? ==> c.alternatives == m.alternatives && c.actions == NotifyWhenAvailable
    ensures c.badge == InStock ==> c.actions == AddToCartAndInfo
    ensures c.rxTag == m.prescription
  {
    Card(
      StockBadgeFor(m.stock),
      if m.stock > 0 then Some(m.stock) else None,
      if m.stock > 0 then AddToCartAndInfo else NotifyWhenAvailable,
      if m.alternatives.Some? && m.stock == 0 then m.alternatives else None,
      m.prescription)
  }

  /** A negative count reads "Low Stock" yet offers only "Notify When Available" and no alternatives. */
  lemma NegativeStockCard(m: Medicine)
    requires m.stock < 0
    ensures CardFor(m).badge == LowStock
    ensures CardFor(m).actions == NotifyWhenAvailable && CardFor(m).stockCount == None
    ensures CardFor(m).alternatives == None
  {
  }

  /** The listing: one card per filtered medicine, in order. */
  function Listing(v: View, ms: seq<Medicine>): (cards: seq<Card>)
    ensures |cards| == |Filter(ms, v.searchQuery, v.selectedCategory)|
    ensures forall i :: 0 <= i < |cards| ==>
      cards[i] == CardFor(Filter(ms, v.searchQuery, v.selectedCategory)[i])
  {
    var f := Filter(ms, v.searchQuery, v.selectedCategory);
    seq(|f|, i requires 0 <= i < |f| => CardFor(f[i]))
  }

  /** In the initial view the only card offering alternatives is Amoxicillin's, the one item out of stock. */
  lemma InitialListingAlternatives()
    ensures var cards := Listing(InitialView, Catalogue());
      |cards| == 4 &&
      forall i :: 0 <= i < 4 ==> (cards[i].alternatives.Some? <==> i == 1)
  {
    InitialViewListsCatalogue();
  }
}
