/**
 * The artist directory page: a fixed list of artists narrowed by category,
 * location and price range, where a numeric `category` query parameter
 * takes precedence over the category picked in the drop-down.
 */
module Artists {
  import opened Wrappers
  import opened Sequences

  /** One bookable artist of the sample data. */
  datatype Artist = Artist(
    id: int,
    name: string,
    categoryId: int,
    categoryName: string,
    location: string,
    priceRange: string,
    image: string,
    ctaText: string)

  /** The three drop-down selections; `""` is "All ...". */
  datatype Selection = Selection(category: string, location: string, priceRange: string)

  const NoSelection := Selection("", "", "")

  // ---------------------------------------------------------------------
  // The `category` query parameter
  // ---------------------------------------------------------------------

  predicate IsDigit(c: char) {
    '0' <= c <= '9'
  }

  /** A non-empty run of decimal digits. */
  predicate IsDigits(s: string) {
    |s| > 0 && forall i :: 0 <= i < |s| ==> IsDigit(s[i])
  }

  /** The value of a string of decimal digits, most significant first. */
  function DigitsValue(s: string): nat
    requires forall i :: 0 <= i < |s| ==> IsDigit(s[i])
    decreases |s|
  {
    if s == [] then 0
    else DigitsValue(s[..|s| - 1]) * 10 + DigitValue(s[|s| - 1])
  }

  function DigitValue(c: char): (d: nat)
    requires IsDigit(c)
    ensures d < 10
  {
    (c as int) - ('0' as int)
  }

  /**
   * `Number(s)` for the strings that denote an integer in decimal notation:
   * an optional sign followed by digits. Every other string is not a number.
   */
  function ParseInteger(s: string): (r: Option<int>)
    ensures r.Some? <==> IsDigits(s) || (|s| > 0 && (s[0] == '-' || s[0] == '+') && IsDigits(s[1..]))
    ensures IsDigits(s) ==> r == Some(DigitsValue(s))
    ensures r.Some? && r.value < 0 ==> s[0] == '-'
    ensures |s| > 0 && s[0] == '-' && IsDigits(s[1..]) ==> r == Some(-(DigitsValue(s[1..]) as int))
    ensures |s| > 0 && s[0] == '+' && IsDigits(s[1..]) ==> r == Some(DigitsValue(s[1..]))
  {
    if |s| > 0 && (s[0] == '-' || s[0] == '+') then
      if IsDigits(s[1..]) then
        var magnitude: int := DigitsValue(s[1..]);
        Some(if s[0] == '-' then -magnitude else magnitude)
      else None
    else if IsDigits(s) then Some(DigitsValue(s))
    else None
  }

  /**
   * The category id carried by the query parameter: present only when the
   * parameter is present, non-empty (truthy) and numeric.
   */
  function CategoryIdParam(param: Option<string>): (r: Option<int>)
    ensures r.Some? ==> param.Some? && param.value != "" && ParseInteger(param.value) == r
    ensures param.Some? && param.value != "" ==> r == ParseInteger(param.value)
  {
    match param
    case None => None
    case Some(s) => if s == "" then None else ParseInteger(s)
  }

  /** The character of a decimal digit. */
  function DigitChar(d: nat): (c: char)
    requires d < 10
    ensures IsDigit(c) && DigitValue(c) == d
  {
    (('0' as int) + d) as char
  }

  /** The decimal digits of `n`, as a template literal `${n}` writes them. */
  function DecimalDigits(n: nat): (s: string)
    ensures IsDigits(s)
    decreases n
  {
    if n < 10 then [DigitChar(n)] else DecimalDigits(n / 10) + [DigitChar(n % 10)]
  }

  /** The decimal text of an integer id, with a `-` when it is negative. */
  function DecimalString(n: int): string {
    if n < 0 then "-" + DecimalDigits(-n) else DecimalDigits(n)
  }

  lemma {:induction false} DecimalDigitsValue(n: nat)
    ensures DigitsValue(DecimalDigits(n)) == n
    decreases n
  {
    var s := DecimalDigits(n);
    if n >= 10 {
      DecimalDigitsValue(n / 10);
      assert s[..|s| - 1] == DecimalDigits(n / 10);
    }
  }

  /** A category link written with an id is read back as that same id. */
  lemma CategoryIdParamRoundTrip(n: int)
    ensures CategoryIdParam(Some(DecimalString(n))) == Some(n)
  {
    var s := DecimalString(n);
    if n < 0 {
      DecimalDigitsValue(-n);
      assert s[1..] == DecimalDigits(-n);
    } else {
      DecimalDigitsValue(n);
      assert IsDigit(s[0]);
    }
  }

  // ---------------------------------------------------------------------
  // Filter stages
  // ---------------------------------------------------------------------

  /** The condition of one `.filter(...)` stage. */
  datatype Criterion =
    | CategoryIdIs(id: int)
    | CategoryNameIs(categoryName: string)
    | LocationIs(location: string)
    | PriceRangeIs(priceRange: string)

  predicate Satisfies(a: Artist, c: Criterion) {
    match c
    case CategoryIdIs(n) => a.categoryId == n
    case CategoryNameIs(name) => a.categoryName == name
    case LocationIs(loc) => a.location == loc
    case PriceRangeIs(price) => a.priceRange == price
  }

  /** One filter stage: the artists of `s` that satisfy `c`, in order. */
  function Keep(s: seq<Artist>, c: Criterion): (r: seq<Artist>)
    ensures IsSubsequence(r, s)
    ensures forall a :: a in r <==> a in s && Satisfies(a, c)
    decreases |s|
  {
    if s == [] then []
    else if Satisfies(s[0], c) then [s[0]] + Keep(s[1..], c)
    else Keep(s[1..], c)
  }

  predicate SatisfiesAll(a: Artist, cs: seq<Criterion>) {
    forall i :: 0 <= i < |cs| ==> Satisfies(a, cs[i])
  }

  /**
   * Reference definition of the filter: a single pass that keeps, in order,
   * the artists of `s` that satisfy every criterion of `cs`.
   */
  function Matching(s: seq<Artist>, cs: seq<Criterion>): (r: seq<Artist>)
    ensures IsSubsequence(r, s)
    ensures forall a :: a in r <==> a in s && SatisfiesAll(a, cs)
    decreases |s|
  {
    if s == [] then []
    else if SatisfiesAll(s[0], cs) then [s[0]] + Matching(s[1..], cs)
    else Matching(s[1..], cs)
  }

  /** A stage keeps every occurrence of a satisfying artist and none of the others. */
  lemma {:induction false} KeepCounts(s: seq<Artist>, c: Criterion)
    ensures forall a :: multiset(Keep(s, c))[a] == if Satisfies(a, c) then multiset(s)[a] else 0
    decreases |s|
  {
    if s != [] {
      assert s == [s[0]] + s[1..];
      KeepCounts(s[1..], c);
    }
  }

  /** The reference filter keeps every occurrence of a matching artist and none of the others. */
  lemma {:induction false} MatchingCounts(s: seq<Artist>, cs: seq<Criterion>)
    ensures forall a :: multiset(Matching(s, cs))[a] == if SatisfiesAll(a, cs) then multiset(s)[a] else 0
    decreases |s|
  {
    if s != [] {
      assert s == [s[0]] + s[1..];
      MatchingCounts(s[1..], cs);
    }
  }

  /** The stages the page runs, in order, for the given id and selections. */
  function ActiveCriteria(urlId: Option<int>, sel: Selection): seq<Criterion> {
    (match urlId
     case Some(n) => [CategoryIdIs(n)]
     case None => if sel.category != "" then [CategoryNameIs(sel.category)] else [])
    + (if sel.location != "" then [LocationIs(sel.location)] else [])
    + (if sel.priceRange != "" then [PriceRangeIs(sel.priceRange)] else [])
  }

  /**
   * What the directory shows for the given id and selections: in their
   * original order, exactly the artists that meet every active rule.
   */
  function Filtered(all: seq<Artist>, urlId: Option<int>, sel: Selection): (r: seq<Artist>)
    ensures IsSubsequence(r, all)
    ensures forall a :: a in r <==> a in all && Qualifies(a, urlId, sel)
  {
    ActiveCriteriaMeaning(urlId, sel);
    Matching(all, ActiveCriteria(urlId, sel))
  }

  /** The conditions an artist must meet to be listed, read off the page's rules. */
  predicate Qualifies(a: Artist, urlId: Option<int>, sel: Selection) {
    && (urlId.Some? ==> a.categoryId == urlId.value)
    && (urlId.None? && sel.category != "" ==> a.categoryName == sel.category)
    && (sel.location != "" ==> a.location == sel.location)
    && (sel.priceRange != "" ==> a.priceRange == sel.priceRange)
  }

  lemma ActiveCriteriaMeaning(urlId: Option<int>, sel: Selection)
    ensures forall a :: SatisfiesAll(a, ActiveCriteria(urlId, sel)) <==> Qualifies(a, urlId, sel)
  {
    forall a ensures SatisfiesAll(a, ActiveCriteria(urlId, sel)) <==> Qualifies(a, urlId, sel) {
      ActiveCriteriaMeaningAt(a, urlId, sel);
    }
  }

  lemma ActiveCriteriaMeaningAt(a: Artist, urlId: Option<int>, sel: Selection)
    ensures SatisfiesAll(a, ActiveCriteria(urlId, sel)) <==> Qualifies(a, urlId, sel)
  {
    var cs := ActiveCriteria(urlId, sel);
    var c0 := match urlId
      case Some(n) => [CategoryIdIs(n)]
      case None => if sel.category != "" then [CategoryNameIs(sel.category)] else [];
    var c1 := if sel.location != "" then [LocationIs(sel.location)] else [];
    var c2 := if sel.priceRange != "" then [PriceRangeIs(sel.priceRange)] else [];
    assert cs == c0 + c1 + c2;
    if SatisfiesAll(a, cs) {
      if c0 != [] { assert cs[0] == c0[0]; }
      if c1 != [] { assert cs[|c0|] == c1[0]; }
      if c2 != [] { assert cs[|c0| + |c1|] == c2[0]; }
    }
  }

  /**
   * The directory keeps every copy of an artist that meets every active
   * rule, and no copy of any other.
   */
  lemma FilteredCounts(all: seq<Artist>, urlId: Option<int>, sel: Selection)
    ensures forall a :: multiset(Filtered(all, urlId, sel))[a] == if Qualifies(a, urlId, sel) then multiset(all)[a] else 0
  {
    MatchingCounts(all, ActiveCriteria(urlId, sel));
    ActiveCriteriaMeaning(urlId, sel);
  }

  lemma {:induction false} MatchingNoCriteria(s: seq<Artist>)
    ensures Matching(s, []) == s
    decreases |s|
  {
    if s != [] {
      MatchingNoCriteria(s[1..]);
    }
  }

  /** With no id and all three selections empty, the whole list is shown. */
  lemma FilteredWithoutCriteria(all: seq<Artist>)
    ensures Filtered(all, None, NoSelection) == all
  {
    assert ActiveCriteria(None, NoSelection) == [];
    MatchingNoCriteria(all);
  }

  /**
   * A numeric id decides the category stage: every listed artist has that
   * id, and the drop-down category, even `""`, makes no difference.
   */
  lemma UrlIdOverridesSelectedCategory(all: seq<Artist>, n: int, sel: Selection, other: string)
    ensures forall a :: a in Filtered(all, Some(n), sel) ==> a.categoryId == n
    ensures Filtered(all, Some(n), sel) == Filtered(all, Some(n), sel.(category := other))
  {
  }

  /** Without an id, a non-empty drop-down category is matched by name. */
  lemma SelectedCategoryWithoutUrlId(all: seq<Artist>, sel: Selection)
    requires sel.category != ""
    ensures forall a :: a in Filtered(all, None, sel) ==> a.categoryName == sel.category
  {
  }

  /** Non-empty location and price selections are matched exactly. */
  lemma LocationAndPriceMatched(all: seq<Artist>, urlId: Option<int>, sel: Selection)
    ensures sel.location != "" ==> forall a :: a in Filtered(all, urlId, sel) ==> a.location == sel.location
    ensures sel.priceRange != "" ==> forall a :: a in Filtered(all, urlId, sel) ==> a.priceRange == sel.priceRange
  {
  }

  lemma {:induction false} MatchingIdempotent(s: seq<Artist>, cs: seq<Criterion>)
    ensures Matching(Matching(s, cs), cs) == Matching(s, cs)
    decreases |s|
  {
    if s != [] {
      MatchingIdempotent(s[1..], cs);
      if SatisfiesAll(s[0], cs) {
        assert ([s[0]] + Matching(s[1..], cs))[1..] == Matching(s[1..], cs);
      }
    }
  }

  /** Filtering what the directory shows again, with the same rules, changes nothing. */
  lemma FilteredIdempotent(all: seq<Artist>, urlId: Option<int>, sel: Selection)
    ensures Filtered(Filtered(all, urlId, sel), urlId, sel) == Filtered(all, urlId, sel)
  {
    MatchingIdempotent(all, ActiveCriteria(urlId, sel));
  }

  lemma SatisfiesAllSnoc(a: Artist, cs: seq<Criterion>, c: Criterion)
    ensures SatisfiesAll(a, cs + [c]) <==> SatisfiesAll(a, cs) && Satisfies(a, c)
  {
    assert (cs + [c])[|cs|] == c;
    assert forall i :: 0 <= i < |cs| ==> (cs + [c])[i] == cs[i];
  }

  /** Running one more stage on the output of earlier stages is one pass with all of them. */
  lemma {:induction false} KeepAfterMatching(s: seq<Artist>, cs: seq<Criterion>, c: Criterion)
    ensures Keep(Matching(s, cs), c) == Matching(s, cs + [c])
    decreases |s|
  {
    if s != [] {
      KeepAfterMatching(s[1..], cs, c);
      SatisfiesAllSnoc(s[0], cs, c);
      if SatisfiesAll(s[0], cs) {
        assert ([s[0]] + Matching(s[1..], cs))[1..] == Matching(s[1..], cs);
      }
    }
  }

  // ---------------------------------------------------------------------
  // Option lists, URL resolution, heading
  // ---------------------------------------------------------------------

  function CategoryNames(s: seq<Artist>): (r: seq<string>)
    ensures |r| == |s| && forall i :: 0 <= i < |s| ==> r[i] == s[i].categoryName
  {
    seq(|s|, i requires 0 <= i < |s| => s[i].categoryName)
  }

  function Locations(s: seq<Artist>): (r: seq<string>)
    ensures |r| == |s| && forall i :: 0 <= i < |s| ==> r[i] == s[i].location
  {
    seq(|s|, i requires 0 <= i < |s| => s[i].location)
  }

  function PriceRanges(s: seq<Artist>): (r: seq<string>)
    ensures |r| == |s| && forall i :: 0 <= i < |s| ==> r[i] == s[i].priceRange
  {
    seq(|s|, i requires 0 <= i < |s| => s[i].priceRange)
  }

  /** The category drop-down: each category name of the full list once. */
  function CategoryOptions(all: seq<Artist>): (r: seq<string>)
    ensures NoDuplicates(r)
    ensures forall c :: c in r <==> exists a :: a in all && a.categoryName == c
  {
    var names := CategoryNames(all);
    var r := Distinct(names);
    assert forall a :: a in all ==> a.categoryName in names by {
      forall a | a in all ensures a.categoryName in names {
        var k :| 0 <= k < |all| && all[k] == a;
        assert names[k] == a.categoryName;
      }
    }
    r
  }

  /** The location drop-down: each location of the full list once. */
  function LocationOptions(all: seq<Artist>): (r: seq<string>)
    ensures NoDuplicates(r)
    ensures forall l :: l in r <==> exists a :: a in all && a.location == l
  {
    var locs := Locations(all);
    var r := Distinct(locs);
    assert forall a :: a in all ==> a.location in locs by {
      forall a | a in all ensures a.location in locs {
        var k :| 0 <= k < |all| && all[k] == a;
        assert locs[k] == a.location;
      }
    }
    r
  }

  /** The price drop-down: each price range of the full list once. */
  function PriceRangeOptions(all: seq<Artist>): (r: seq<string>)
    ensures NoDuplicates(r)
    ensures forall p :: p in r <==> exists a :: a in all && a.priceRange == p
  {
    var prices := PriceRanges(all);
    var r := Distinct(prices);
    assert forall a :: a in all ==> a.priceRange in prices by {
      forall a | a in all ensures a.priceRange in prices {
        var k :| 0 <= k < |all| && all[k] == a;
        assert prices[k] == a.priceRange;
      }
    }
    r
  }

  /**
   * The category options keep the order of first appearance: an earlier
   * option is carried by some artist that comes before every artist
   * carrying a later one.
   */
  lemma CategoryOptionsInOrder(all: seq<Artist>, i: nat, j: nat)
    requires i < j < |CategoryOptions(all)|
    ensures exists p :: 0 <= p < |all| && all[p].categoryName == CategoryOptions(all)[i]
              && forall q :: 0 <= q <= p ==> all[q].categoryName != CategoryOptions(all)[j]
  {
    DistinctOrderAt(CategoryNames(all), i, j);
  }

  /**
   * The location options keep the order of first appearance: an earlier
   * option is carried by some artist that comes before every artist
   * carrying a later one.
   */
  lemma LocationOptionsInOrder(all: seq<Artist>, i: nat, j: nat)
    requires i < j < |LocationOptions(all)|
    ensures exists p :: 0 <= p < |all| && all[p].location == LocationOptions(all)[i]
              && forall q :: 0 <= q <= p ==> all[q].location != LocationOptions(all)[j]
  {
    DistinctOrderAt(Locations(all), i, j);
  }

  /**
   * The price range options keep the order of first appearance: an earlier
   * option is carried by some artist that comes before every artist
   * carrying a later one.
   */
  lemma PriceRangeOptionsInOrder(all: seq<Artist>, i: nat, j: nat)
    requires i < j < |PriceRangeOptions(all)|
    ensures exists p :: 0 <= p < |all| && all[p].priceRange == PriceRangeOptions(all)[i]
              && forall q :: 0 <= q <= p ==> all[q].priceRange != PriceRangeOptions(all)[j]
  {
    DistinctOrderAt(PriceRanges(all), i, j);
  }

  /**
   * The option lists come from the full list, so whatever is being shown,
   * every listed artist's values remain selectable.
   */
  lemma OptionsCoverFiltered(all: seq<Artist>, urlId: Option<int>, sel: Selection, a: Artist)
    requires a in Filtered(all, urlId, sel)
    ensures a.categoryName in CategoryOptions(all)
    ensures a.location in LocationOptions(all)
    ensures a.priceRange in PriceRangeOptions(all)
  {
  }

  /** The first artist of the list whose category id is `n`, if any. */
  function FindByCategoryId(all: seq<Artist>, n: int): (r: Option<Artist>)
    ensures r.None? ==> forall j :: 0 <= j < |all| ==> all[j].categoryId != n
    ensures r.Some? ==> exists k :: 0 <= k < |all| && all[k] == r.value && r.value.categoryId == n
                                   && forall j :: 0 <= j < k ==> all[j].categoryId != n
    decreases |all|
  {
    if all == [] then None
    else if all[0].categoryId == n then Some(all[0])
    else
      var r := FindByCategoryId(all[1..], n);
      assert r.Some? ==> exists k :: 0 <= k < |all[1..]| && all[1..][k] == r.value && r.value.categoryId == n
                                    && forall j :: 0 <= j < k ==> all[1..][j].categoryId != n;
      assert r.Some? ==> exists k :: 1 <= k < |all| && all[k] == r.value && r.value.categoryId == n
                                    && forall j :: 1 <= j < k ==> all[j].categoryId != n;
      r
  }

  /**
   * The drop-down category after the URL effect has run: the category name
   * of the first artist with the parsed id, or `current` when the parameter
   * is missing, not numeric, or names no artist's category.
   */
  function ResolvedCategory(all: seq<Artist>, urlId: Option<int>, current: string): (r: string)
    ensures r == current || exists k :: 0 <= k < |all| && urlId == Some(all[k].categoryId) && all[k].categoryName == r
  {
    match urlId
    case None => current
    case Some(n) =>
      match FindByCategoryId(all, n)
      case None => current
      case Some(a) => a.categoryName
  }

  lemma ResolvedCategorySpec(all: seq<Artist>, urlId: Option<int>, current: string)
    ensures urlId.None? ==> ResolvedCategory(all, urlId, current) == current
    ensures urlId.Some? && (forall a :: a in all ==> a.categoryId != urlId.value) ==>
              ResolvedCategory(all, urlId, current) == current
    ensures urlId.Some? && (exists a :: a in all && a.categoryId == urlId.value) ==>
              exists k :: 0 <= k < |all| && all[k].categoryId == urlId.value
                          && (forall j :: 0 <= j < k ==> all[j].categoryId != urlId.value)
                          && ResolvedCategory(all, urlId, current) == all[k].categoryName
  {
    if urlId.Some? {
      var n := urlId.value;
      if exists a :: a in all && a.categoryId == n {
        var a :| a in all && a.categoryId == n;
        var k :| 0 <= k < |all| && all[k] == a;
        assert FindByCategoryId(all, n).Some?;
      }
    }
  }

  /** The page heading: the selected category, or "All Artists"; never empty. */
  function Heading(selectedCategory: string): (h: string)
    ensures h != ""
    ensures selectedCategory != "" ==> h == selectedCategory
    ensures selectedCategory == "" ==> h == "All Artists"
  {
    if selectedCategory != "" then selectedCategory else "All Artists"
  }

  /** What the results area shows. */
  datatype ResultsView = Spinner | NoArtistsFound | ArtistCards(cards: seq<Artist>)

  function Results(loading: bool, artists: seq<Artist>): (v: ResultsView)
    ensures v.Spinner? <==> loading
    ensures v.NoArtistsFound? <==> !loading && artists == []
    ensures v.ArtistCards? ==> v.cards == artists && artists != []
  {
    if loading then Spinner
    else if |artists| == 0 then NoArtistsFound
    else ArtistCards(artists)
  }

  // ---------------------------------------------------------------------
  // The page component's state
  // ---------------------------------------------------------------------

  /** The directory component: the sample list, the query parameter and its state. */
  class ArtistPage {
    const all: seq<Artist>
    var categoryParam: Option<string>
    var selectedCategory: string
    var selectedLocation: string
    var selectedPriceRange: string
    var artists: seq<Artist>
    var loading: bool

    constructor (all: seq<Artist>, categoryParam: Option<string>)
      ensures this.all == all && this.categoryParam == categoryParam
      ensures Current() == NoSelection
      ensures artists == all && loading
    {
      this.all := all;
      this.categoryParam := categoryParam;
      selectedCategory, selectedLocation, selectedPriceRange := "", "", "";
      artists := all;
      loading := true;
    }

    function Current(): Selection
      reads this
    {
      Selection(selectedCategory, selectedLocation, selectedPriceRange)
    }

    /** The effect that copies the URL's category into the drop-down. */
    method ResolveUrlCategory()
      modifies this
      ensures categoryParam == old(categoryParam)
      ensures selectedCategory == ResolvedCategory(all, CategoryIdParam(categoryParam), old(selectedCategory))
      ensures selectedLocation == old(selectedLocation) && selectedPriceRange == old(selectedPriceRange)
      ensures artists == old(artists) && loading == old(loading)
    {
      var urlId := CategoryIdParam(categoryParam);
      if urlId.Some? {
        var item := FindByCategoryId(all, urlId.value);
        if item.Some? {
          selectedCategory := item.value.categoryName;
        }
      }
    }

    /** The effect that recomputes the listed artists, stage by stage. */
    method FetchArtists()
      modifies this
      ensures categoryParam == old(categoryParam)
      ensures artists == Filtered(all, CategoryIdParam(categoryParam), Current())
      ensures !loading
      ensures Current() == old(Current())
    {
      var urlId := CategoryIdParam(categoryParam);
      var filtered := all;
      ghost var applied: seq<Criterion> := [];
      MatchingNoCriteria(all);

      if urlId.Some? {
        KeepAfterMatching(all, applied, CategoryIdIs(urlId.value));
        filtered := Keep(filtered, CategoryIdIs(urlId.value));
        applied := applied + [CategoryIdIs(urlId.value)];
      } else if selectedCategory != "" {
        KeepAfterMatching(all, applied, CategoryNameIs(selectedCategory));
        filtered := Keep(filtered, CategoryNameIs(selectedCategory));
        applied := applied + [CategoryNameIs(selectedCategory)];
      }
      assert filtered == Matching(all, applied);
      assert applied == ActiveCriteria(urlId, NoSelection.(category := selectedCategory));

      if selectedLocation != "" {
        KeepAfterMatching(all, applied, LocationIs(selectedLocation));
        filtered := Keep(filtered, LocationIs(selectedLocation));
        applied := applied + [LocationIs(selectedLocation)];
      }
      assert filtered == Matching(all, applied);

      if selectedPriceRange != "" {
        KeepAfterMatching(all, applied, PriceRangeIs(selectedPriceRange));
        filtered := Keep(filtered, PriceRangeIs(selectedPriceRange));
        applied := applied + [PriceRangeIs(selectedPriceRange)];
      }

      assert applied == ActiveCriteria(urlId, Current());
      artists := filtered;
      loading := false;
    }

    /** "Reset Filters": all three selections back to `""`. */
    method HandleReset()
      modifies this
      ensures Current() == NoSelection
      ensures artists == old(artists) && loading == old(loading)
      ensures categoryParam == old(categoryParam)
    {
      selectedCategory := "";
      selectedLocation := "";
      selectedPriceRange := "";
    }

    method SelectCategory(value: string)
      modifies this
      ensures Current() == old(Current()).(category := value)
      ensures artists == old(artists) && loading == old(loading)
      ensures categoryParam == old(categoryParam)
    {
      selectedCategory := value;
    }

    method SelectLocation(value: string)
      modifies this
      ensures Current() == old(Current()).(location := value)
      ensures artists == old(artists) && loading == old(loading)
      ensures categoryParam == old(categoryParam)
    {
      selectedLocation := value;
    }

    method SelectPriceRange(value: string)
      modifies this
      ensures Current() == old(Current()).(priceRange := value)
      ensures artists == old(artists) && loading == old(loading)
      ensures categoryParam == old(categoryParam)
    {
      selectedPriceRange := value;
    }

    /**
     * A client-side navigation that changes only the query string: the page
     * stays mounted, so the selections and the listed artists are kept.
     */
    method ChangeQuery(param: Option<string>)
      modifies this
      ensures categoryParam == param
      ensures Current() == old(Current())
      ensures artists == old(artists) && loading == old(loading)
    {
      categoryParam := param;
    }

    /**
     * A new query string followed by the two effects that depend on it. A
     * parameter that resolves to no category leaves the drop-down at the
     * name an earlier parameter resolved to, and the list is then filtered
     * by that name.
     */
    method NavigateWithQuery(param: Option<string>)
      modifies this
      ensures categoryParam == param
      ensures selectedCategory == ResolvedCategory(all, CategoryIdParam(param), old(selectedCategory))
      ensures selectedLocation == old(selectedLocation) && selectedPriceRange == old(selectedPriceRange)
      ensures artists == Filtered(all, CategoryIdParam(param), Current())
      ensures CategoryIdParam(param).None? ==> selectedCategory == old(selectedCategory)
      ensures !loading
    {
      ChangeQuery(param);
      ResolveUrlCategory();
      FetchArtists();
    }

  }
}
