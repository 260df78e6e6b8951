/**
 * The listings page controller (src/components/listings/ListingsList.tsx).
 *
 * The component's state hooks are the fields of class `ListingsList`; each handler is a
 * method whose effect on that state is given by a transition function over `ListState`,
 * as the handler is written. The properties of the page are lemmas about those
 * functions: while reset loads succeed, paging yields a duplicate-free prefix of the
 * collection; a short page ends paging; the price view is a sorted permutation. A
 * corrected load, whose failure leaves the paging state alone, keeps the prefix through
 * failed reloads too (`StepFixed`). Every await is one atomic step that succeeds or
 * fails (`ok`), reading the collection `store` as it stands at that moment.
 */
module ListingsListComponent {
  import opened Wrappers
  import opened Types
  import opened JsString
  import opened Firestore

  /** Records per page: a 3x3 grid. */
  const ITEMS_PER_PAGE: nat := 9

  const LOAD_ERROR := "Failed to load listings. Please try again."
  const SEARCH_ERROR := "Search failed. Please try again."

  /** The price sort selector: "none", "high-to-low", "low-to-high". */
  datatype PriceFilter = NoSort | HighToLow | LowToHigh

  /** The component's state, one field per state hook (the derived price view aside). */
  datatype ListState = ListState(
    listings: seq<Listing>,
    loading: bool,
    error: string,
    searchTerm: string,
    searching: bool,
    currentPage: int,
    hasMore: bool,
    loadingMore: bool,
    lastDoc: Option<Cursor>,
    isSearchMode: bool,
    priceFilter: PriceFilter)

  /** The state hooks' initial values. */
  function Initial(): ListState {
    ListState([], true, "", "", false, 1, true, false, None, false, NoSort)
  }

  // ---------------------------------------------------------------------------
  // The price view: a sorted copy of `listings`

  /** `a` sorts strictly before `b` under the filter (the comparator is negative). */
  predicate Before(a: Listing, b: Listing, f: PriceFilter) {
    match f
    case HighToLow => a.price > b.price
    case LowToHigh => a.price < b.price
    case NoSort => false
  }

  /** No element sorts strictly before an element to its left. */
  ghost predicate Ordered(s: seq<Listing>, f: PriceFilter) {
    forall i, j :: 0 <= i < j < |s| ==> !Before(s[j], s[i], f)
  }

  /** Puts `x` in front of the first element that does not sort strictly before it. */
  function InsertByPrice(x: Listing, s: seq<Listing>, f: PriceFilter): seq<Listing> {
    if s == [] || !Before(s[0], x, f) then [x] + s else [s[0]] + InsertByPrice(x, s[1..], f)
  }

  /** A stable insertion sort by price, as `Array.prototype.sort` with the price comparator. */
  function SortByPrice(s: seq<Listing>, f: PriceFilter): seq<Listing> {
    if s == [] then [] else InsertByPrice(s[0], SortByPrice(s[1..], f), f)
  }

  /** The list the grid shows: `listings` itself when no filter is chosen, else sorted by price. */
  function PriceView(listings: seq<Listing>, f: PriceFilter): seq<Listing> {
    if f == NoSort then listings else SortByPrice(listings, f)
  }

  /** Inserting adds exactly `x`. */
  lemma {:induction false} InsertByPricePermutes(x: Listing, s: seq<Listing>, f: PriceFilter)
    ensures multiset(InsertByPrice(x, s, f)) == multiset(s) + multiset{x}
  {
    if s != [] && Before(s[0], x, f) {
      InsertByPricePermutes(x, s[1..], f);
      assert s == [s[0]] + s[1..];
    }
  }

  /** Inserting into an ordered list keeps it ordered. */
  lemma {:induction false} InsertByPriceOrdered(x: Listing, s: seq<Listing>, f: PriceFilter)
    requires Ordered(s, f)
    ensures Ordered(InsertByPrice(x, s, f), f)
  {
    if s != [] && Before(s[0], x, f) {
      OrderedTail(s, f);
      InsertByPriceOrdered(x, s[1..], f);
      NothingPassesHead(x, s, f);
      ConsOrdered(s[0], InsertByPrice(x, s[1..], f), f);
    } else {
      forall j | 0 <= j < |s| ensures !Before(s[j], x, f) {
        if j > 0 {
          assert !Before(s[j], s[0], f);
        }
      }
      ConsOrdered(x, s, f);
    }
  }

  /** What follows the head of an ordered list is ordered. */
  lemma OrderedTail(s: seq<Listing>, f: PriceFilter)
    requires s != [] && Ordered(s, f)
    ensures Ordered(s[1..], f)
  {
    forall i, j | 0 <= i < j < |s[1..]| ensures !Before(s[1..][j], s[1..][i], f) {
      assert s[1..][i] == s[i + 1] && s[1..][j] == s[j + 1];
    }
  }

  /** Putting in front of an ordered list an element nothing in it sorts before keeps it ordered. */
  lemma ConsOrdered(h: Listing, t: seq<Listing>, f: PriceFilter)
    requires Ordered(t, f)
    requires forall j :: 0 <= j < |t| ==> !Before(t[j], h, f)
    ensures Ordered([h] + t, f)
  {
    var r := [h] + t;
    forall i, j | 0 <= i < j < |r| ensures !Before(r[j], r[i], f) {
      assert r[j] == t[j - 1];
      if i > 0 {
        assert r[i] == t[i - 1];
      }
    }
  }

  /** When `x` goes after the head, nothing of the rest, `x` included, sorts before the head. */
  lemma NothingPassesHead(x: Listing, s: seq<Listing>, f: PriceFilter)
    requires s != [] && Ordered(s, f) && Before(s[0], x, f)
    ensures forall j :: 0 <= j < |InsertByPrice(x, s[1..], f)| ==>
      !Before(InsertByPrice(x, s[1..], f)[j], s[0], f)
  {
    var rest := InsertByPrice(x, s[1..], f);
    InsertByPricePermutes(x, s[1..], f);
    forall j | 0 <= j < |rest| ensures !Before(rest[j], s[0], f) {
      assert rest[j] in multiset(rest);
      if rest[j] != x {
        assert rest[j] in multiset(s[1..]);
        var k :| 0 <= k < |s[1..]| && s[1..][k] == rest[j];
        assert s[k + 1] == rest[j];
      }
    }
  }

  /** The sort is a permutation of its input and ordered by price. */
  lemma {:induction false} SortByPriceOrdered(s: seq<Listing>, f: PriceFilter)
    ensures multiset(SortByPrice(s, f)) == multiset(s)
    ensures Ordered(SortByPrice(s, f), f)
  {
    if s != [] {
      SortByPriceOrdered(s[1..], f);
      InsertByPricePermutes(s[0], SortByPrice(s[1..], f), f);
      InsertByPriceOrdered(s[0], SortByPrice(s[1..], f), f);
      assert s == [s[0]] + s[1..];
    }
  }

  /**
   * The price view holds the same records as `listings` (the list itself when no filter is
   * chosen), ordered by price descending for "high-to-low" and ascending for "low-to-high".
   */
  lemma PriceViewSorted(listings: seq<Listing>, f: PriceFilter)
    ensures f == NoSort ==> PriceView(listings, f) == listings
    ensures multiset(PriceView(listings, f)) == multiset(listings)
    ensures f == HighToLow ==> forall i, j :: 0 <= i < j < |PriceView(listings, f)| ==>
      PriceView(listings, f)[i].price >= PriceView(listings, f)[j].price
    ensures f == LowToHigh ==> forall i, j :: 0 <= i < j < |PriceView(listings, f)| ==>
      PriceView(listings, f)[i].price <= PriceView(listings, f)[j].price
  {
    SortByPriceOrdered(listings, f);
  }

  /** The records of a list that have a given price, in the list's order. */
  function WithPrice(s: seq<Listing>, p: real): seq<Listing> {
    if s == [] then [] else (if s[0].price == p then [s[0]] else []) + WithPrice(s[1..], p)
  }

  lemma {:induction false} InsertByPriceStable(x: Listing, s: seq<Listing>, f: PriceFilter, p: real)
    ensures WithPrice(InsertByPrice(x, s, f), p) == WithPrice([x] + s, p)
  {
    assert ([x] + s)[1..] == s;
    if s != [] && Before(s[0], x, f) {
      var rest := InsertByPrice(x, s[1..], f);
      assert ([s[0]] + rest)[1..] == rest;
      assert ([x] + s[1..])[1..] == s[1..];
      InsertByPriceStable(x, s[1..], f, p);
    }
  }

  /** Records of equal price keep their relative order in the price view: the sort is stable. */
  lemma {:induction false} PriceViewStable(listings: seq<Listing>, f: PriceFilter, p: real)
    ensures WithPrice(PriceView(listings, f), p) == WithPrice(listings, p)
  {
    if f != NoSort && listings != [] {
      PriceViewStable(listings[1..], f, p);
      InsertByPriceStable(listings[0], SortByPrice(listings[1..], f), f, p);
      assert ([listings[0]] + SortByPrice(listings[1..], f))[1..] == SortByPrice(listings[1..], f);
    }
  }

  // ---------------------------------------------------------------------------
  // Transitions

  /** The cursor a load fetches after: none for a reset load, `lastDoc` for an append load. */
  function LoadCursor(s: ListState, reset: bool): Option<Cursor> {
    if reset then None else s.lastDoc
  }

  /**
   * `loadListings(reset)` as the handler is written. Before the fetch a reset load goes
   * back to page 1 outside search mode with the cursor cleared and `hasMore` set; an
   * append load raises `loadingMore`. The fetch reads the page after the cursor: a reset
   * load shows it, an append load adds it, the cursor moves to its last record and
   * `hasMore` says whether it was full, so a short page means the collection has run out.
   * A failed fetch sets the message and keeps the records, and a failed reset load keeps
   * its resets (see `FailedReloadDuplicates`).
   */
  function LoadStep(s: ListState, reset: bool, store: seq<DocSnapshot>, ok: bool): (r: ListState)
    ensures !r.loading && !r.loadingMore
    ensures r.searchTerm == s.searchTerm && r.searching == s.searching && r.priceFilter == s.priceFilter
    ensures reset ==> r.currentPage == 1 && !r.isSearchMode
    ensures !reset ==> r.currentPage == s.currentPage && r.isSearchMode == s.isSearchMode
    ensures ok && reset ==> r.listings == Rows(PageOf(store, ITEMS_PER_PAGE, None))
    ensures ok && !reset ==> r.listings == s.listings + Rows(PageOf(store, ITEMS_PER_PAGE, s.lastDoc))
    ensures ok ==> r.error == s.error && r.lastDoc == NextCursor(store, ITEMS_PER_PAGE, LoadCursor(s, reset))
    ensures ok ==> (r.hasMore <==> |PageOf(store, ITEMS_PER_PAGE, LoadCursor(s, reset))| == ITEMS_PER_PAGE)
    ensures ok && !r.hasMore ==>
      PageStart(store, LoadCursor(s, reset)) + |PageOf(store, ITEMS_PER_PAGE, LoadCursor(s, reset))| == |store|
    ensures !ok ==> r.listings == s.listings && r.error == LOAD_ERROR
    ensures !ok && reset ==> r.lastDoc.None? && r.hasMore
    ensures !ok && !reset ==> r.lastDoc == s.lastDoc && r.hasMore == s.hasMore
  {
    LoadSettled(LoadStarted(s, reset), s.listings, reset, store, ok)
  }

  /** What `loadListings(reset)` sets before its await. */
  function LoadStarted(s: ListState, reset: bool): ListState {
    if reset then s.(loading := true, currentPage := 1, lastDoc := None, hasMore := true, isSearchMode := false)
    else s.(loadingMore := true)
  }

  /** What `loadListings(reset)` sets after its await, from the state it started and the records shown before. */
  function LoadSettled(started: ListState, prior: seq<Listing>, reset: bool, store: seq<DocSnapshot>, ok: bool): ListState {
    var page := Rows(PageOf(store, ITEMS_PER_PAGE, started.lastDoc));
    var awaited :=
      if !ok then started.(error := LOAD_ERROR)
      else started.(listings := if reset then page else prior + page,
                    lastDoc := NextCursor(store, ITEMS_PER_PAGE, started.lastDoc),
                    hasMore := |page| == ITEMS_PER_PAGE);
    awaited.(loading := false, loadingMore := false)
  }

  /**
   * `loadListings(reset)` with the reset's assignments made only once the fetch has
   * succeeded: a successful load is the written one, and a failed load of either kind
   * changes only the message and the loading flags.
   */
  function LoadStepFixed(s: ListState, reset: bool, store: seq<DocSnapshot>, ok: bool): (r: ListState)
    ensures ok ==> r == LoadStep(s, reset, store, true)
    ensures !ok ==> !r.loading && !r.loadingMore && r.error == LOAD_ERROR
    ensures !ok ==> r.listings == s.listings && r.lastDoc == s.lastDoc && r.hasMore == s.hasMore
    ensures !ok ==> r.currentPage == s.currentPage && r.isSearchMode == s.isSearchMode && r.searchTerm == s.searchTerm
  {
    if ok then LoadStep(s, reset, store, true) else s.(error := LOAD_ERROR, loading := false, loadingMore := false)
  }

  /**
   * The corrected load differs from the written one exactly in a failed reset load from
   * a state whose paging was not already reset.
   */
  lemma LoadStepDiffersOnlyOnFailedReset(s: ListState, reset: bool, store: seq<DocSnapshot>, ok: bool)
    ensures LoadStepFixed(s, reset, store, ok) != LoadStep(s, reset, store, ok) <==>
      reset && !ok && !(s.currentPage == 1 && s.lastDoc.None? && s.hasMore && !s.isSearchMode)
  {
  }

  /** `loadMore`: ignored in search mode, after the last page and while a load is in flight. */
  function LoadMoreStep(s: ListState, store: seq<DocSnapshot>, ok: bool): (r: ListState)
    ensures s.isSearchMode || !s.hasMore || s.loadingMore ==> r == s
    ensures !s.isSearchMode && s.hasMore && !s.loadingMore ==>
      && r.currentPage == s.currentPage + 1
      && (ok ==> r.listings == s.listings + Rows(PageOf(store, ITEMS_PER_PAGE, s.lastDoc)))
      && (!ok ==> r.listings == s.listings && r.error == LOAD_ERROR)
  {
    if !s.isSearchMode && s.hasMore && !s.loadingMore then
      LoadStep(s.(currentPage := s.currentPage + 1), false, store, ok)
    else s
  }

  /**
   * `handleSearch`: a term that is blank once trimmed reloads the first page; any other
   * term enters search mode and, if the search succeeds, shows its results.
   */
  function SearchStep(s: ListState, store: seq<DocSnapshot>, ok: bool): (r: ListState)
    ensures IsBlank(s.searchTerm) ==> r == LoadStep(s, true, store, ok)
    ensures !IsBlank(s.searchTerm) ==>
      r.isSearchMode && !r.searching && r.lastDoc.None? && r.currentPage == 1 && r.loadingMore == s.loadingMore
    ensures !IsBlank(s.searchTerm) && ok ==> r.listings == Keep(store, TextMatch(s.searchTerm))
    ensures !IsBlank(s.searchTerm) && !ok ==> r.listings == s.listings && r.error == SEARCH_ERROR
  {
    if IsBlank(s.searchTerm) then LoadStep(s, true, store, ok)
    else SearchSettled(SearchStarted(s), s.searchTerm, store, ok)
  }

  /** What `handleSearch` sets before its await: search mode on page 1, paging reset. */
  function SearchStarted(s: ListState): ListState {
    s.(searching := true, currentPage := 1, lastDoc := None, hasMore := true, isSearchMode := true)
  }

  /** What `handleSearch` sets after its await for `term`. */
  function SearchSettled(started: ListState, term: string, store: seq<DocSnapshot>, ok: bool): ListState {
    var awaited :=
      if ok then started.(listings := Keep(store, TextMatch(term)))
      else started.(error := SEARCH_ERROR);
    awaited.(searching := false)
  }

  /**
   * Search results are never paged: although a search sets `hasMore`, "Load More" leaves
   * the state after a search for a non-blank term as it is, whatever the collection.
   */
  lemma SearchResultsAreNotPaged(s: ListState, store: seq<DocSnapshot>, ok: bool, later: seq<DocSnapshot>, ok': bool)
    requires !IsBlank(s.searchTerm)
    ensures var r := SearchStep(s, store, ok);
      r.hasMore && LoadMoreStep(r, later, ok') == r
  {
  }

  /**
   * `handleClearSearch`: empties the term and reloads the first page. Search mode ends
   * whether or not the load succeeds; a failed load keeps the records on screen with the
   * cursor cleared and `hasMore` set.
   */
  function ClearSearchStep(s: ListState, store: seq<DocSnapshot>, ok: bool): (r: ListState)
    ensures r.searchTerm == "" && !r.isSearchMode && r.currentPage == 1
    ensures ok ==> r.listings == Rows(PageOf(store, ITEMS_PER_PAGE, None))
    ensures !ok ==> r.listings == s.listings && r.lastDoc.None? && r.hasMore && r.error == LOAD_ERROR
  {
    LoadStep(s.(searchTerm := ""), true, store, ok)
  }

  /** What can happen to the page; a card calls back `handleDelete` once it has deleted its listing. */
  datatype Event =
    | Mounted(ok: bool)
    | LoadMoreClicked(ok: bool)
    | SearchSubmitted(ok: bool)
    | ClearClicked(ok: bool)
    | ListingDeleted(id: string, ok: bool)
    | TermTyped(term: string)
    | FilterChosen(filter: PriceFilter)

  /** The collection after an event: a card's delete callback follows its listing's removal. */
  function StoreAfter(store: seq<DocSnapshot>, e: Event): seq<DocSnapshot> {
    if e.ListingDeleted? then DeleteListing(store, e.id) else store
  }

  /** One event, as the page is written; `store` is the collection before it. */
  function Step(s: ListState, e: Event, store: seq<DocSnapshot>): ListState {
    match e
    case Mounted(ok) => LoadStep(s, true, store, ok)
    case LoadMoreClicked(ok) => LoadMoreStep(s, store, ok)
    case SearchSubmitted(ok) => SearchStep(s, store, ok)
    case ClearClicked(ok) => ClearSearchStep(s, store, ok)
    case ListingDeleted(id, ok) => LoadStep(s, true, DeleteListing(store, id), ok)
    case TermTyped(term) => s.(searchTerm := term)
    case FilterChosen(f) => s.(priceFilter := f)
  }

  /** The collection after a sequence of events. */
  function FinalStore(store: seq<DocSnapshot>, events: seq<Event>): seq<DocSnapshot>
    decreases |events|
  {
    if events == [] then store else FinalStore(StoreAfter(store, events[0]), events[1..])
  }

  /** The state after a sequence of events, as the page is written. */
  function Run(s: ListState, events: seq<Event>, store: seq<DocSnapshot>): ListState
    decreases |events|
  {
    if events == [] then s else Run(Step(s, events[0], store), events[1..], StoreAfter(store, events[0]))
  }

  /** The event is a reset load whose fetch fails. */
  predicate ReloadFails(s: ListState, e: Event) {
    match e
    case Mounted(ok) => !ok
    case SearchSubmitted(ok) => !ok && IsBlank(s.searchTerm)
    case ClearClicked(ok) => !ok
    case ListingDeleted(_, ok) => !ok
    case _ => false
  }

  /**
   * One event with the corrected load: an event whose reset load fails changes only the
   * message, the loading flags and, for "Clear", the term; every other event is the
   * written one.
   */
  function StepFixed(s: ListState, e: Event, store: seq<DocSnapshot>): ListState {
    if ReloadFails(s, e) then
      LoadStepFixed(if e.ClearClicked? then s.(searchTerm := "") else s, true, store, false)
    else Step(s, e, store)
  }

  /** The state after a sequence of events, with the corrected load. */
  function RunFixed(s: ListState, events: seq<Event>, store: seq<DocSnapshot>): ListState
    decreases |events|
  {
    if events == [] then s else RunFixed(StepFixed(s, events[0], store), events[1..], StoreAfter(store, events[0]))
  }

  // ---------------------------------------------------------------------------
  // The paging invariant

  /** The cursor that resumes after the first `n` records of the collection. */
  function CursorAfter(n: nat): Option<Cursor> {
    if n == 0 then None else Some(Cursor(n - 1))
  }

  /**
   * Outside search mode the loaded list is the first records of the collection, at most
   * one page per page number; while more may follow, the cursor marks the last loaded
   * record; once paging has ended, the whole collection is loaded.
   */
  ghost predicate Paged(s: ListState, store: seq<DocSnapshot>) {
    && !s.loadingMore
    && (!s.isSearchMode ==>
      && |s.listings| <= |store|
      && s.listings == Rows(store[..|s.listings|])
      && |s.listings| <= ITEMS_PER_PAGE * s.currentPage
      && (s.hasMore ==> s.lastDoc == CursorAfter(|s.listings|))
      && (!s.hasMore ==> |s.listings| == |store|))
  }

  lemma InitialPaged(store: seq<DocSnapshot>)
    ensures Paged(Initial(), store)
  {
  }

  /** A successful reset load establishes the paging invariant, whatever the state before. */
  lemma ResetLoadPaged(s: ListState, store: seq<DocSnapshot>)
    ensures Paged(LoadStep(s, true, store, true), store)
  {
    var page := PageOf(store, ITEMS_PER_PAGE, None);
    assert page == store[..|page|];
  }

  /** An append load that `loadMore` lets through extends the loaded prefix by the next page. */
  lemma AppendLoadPaged(s: ListState, store: seq<DocSnapshot>, ok: bool)
    requires Paged(s, store) && !s.isSearchMode && s.hasMore
    ensures Paged(LoadStep(s.(currentPage := s.currentPage + 1), false, store, ok), store)
  {
    if ok {
      var n := |s.listings|;
      var page := PageOf(store, ITEMS_PER_PAGE, s.lastDoc);
      assert PageStart(store, s.lastDoc) == n;
      assert store[..n + |page|] == store[..n] + page;
      RowsConcat(store[..n], page);
    }
  }

  /**
   * As the page is written, every event keeps the paging invariant, for the collection
   * after it, unless it is a reset load whose fetch fails.
   */
  lemma StepKeepsPaged(s: ListState, e: Event, store: seq<DocSnapshot>)
    requires Paged(s, store) && !ReloadFails(s, e)
    ensures Paged(Step(s, e, store), StoreAfter(store, e))
  {
    match e
    case Mounted(_) => ResetLoadPaged(s, store);
    case ListingDeleted(id, _) => ResetLoadPaged(s, DeleteListing(store, id));
    case ClearClicked(_) => ResetLoadPaged(s.(searchTerm := ""), store);
    case SearchSubmitted(_) => if IsBlank(s.searchTerm) { ResetLoadPaged(s, store); }
    case LoadMoreClicked(ok) =>
      if !s.isSearchMode && s.hasMore && !s.loadingMore { AppendLoadPaged(s, store, ok); }
    case TermTyped(_) =>
    case FilterChosen(_) =>
  }

  /** Every reset load of the sequence of events, each met in the state it finds, succeeds. */
  ghost predicate ResetsSucceed(s: ListState, events: seq<Event>, store: seq<DocSnapshot>)
    decreases |events|
  {
    events == [] ||
    (!ReloadFails(s, events[0]) && ResetsSucceed(Step(s, events[0], store), events[1..], StoreAfter(store, events[0])))
  }

  /** As the page is written, the paging invariant survives every sequence of events whose reset loads succeed. */
  lemma {:induction false} RunKeepsPaged(s: ListState, events: seq<Event>, store: seq<DocSnapshot>)
    requires Paged(s, store) && ResetsSucceed(s, events, store)
    ensures Paged(Run(s, events, store), FinalStore(store, events))
    decreases |events|
  {
    if events != [] {
      StepKeepsPaged(s, events[0], store);
      RunKeepsPaged(Step(s, events[0], store), events[1..], StoreAfter(store, events[0]));
    }
  }

  /**
   * With the corrected load every event keeps the paging invariant, failed reloads
   * included, unless the reload after a delete fails: the deleted record then stays on
   * screen.
   */
  lemma StepFixedKeepsPaged(s: ListState, e: Event, store: seq<DocSnapshot>)
    requires Paged(s, store)
    requires e.ListingDeleted? ==> e.ok
    ensures Paged(StepFixed(s, e, store), StoreAfter(store, e))
  {
    if !ReloadFails(s, e) {
      StepKeepsPaged(s, e, store);
    }
  }

  /** Every reload that follows a delete succeeds. */
  predicate DeleteReloadsSucceed(events: seq<Event>) {
    forall k :: 0 <= k < |events| && events[k].ListingDeleted? ==> events[k].ok
  }

  /** With the corrected load the paging invariant survives every sequence of events whose reloads after a delete succeed. */
  lemma {:induction false} RunFixedKeepsPaged(s: ListState, events: seq<Event>, store: seq<DocSnapshot>)
    requires Paged(s, store) && DeleteReloadsSucceed(events)
    ensures Paged(RunFixed(s, events, store), FinalStore(store, events))
    decreases |events|
  {
    if events != [] {
      assert events[0].ListingDeleted? ==> events[0].ok;
      StepFixedKeepsPaged(s, events[0], store);
      assert forall k :: 0 <= k < |events[1..]| ==> events[1..][k] == events[k + 1];
      RunFixedKeepsPaged(StepFixed(s, events[0], store), events[1..], StoreAfter(store, events[0]));
    }
  }

  /** Deletes keep the collection well formed. */
  lemma {:induction false} FinalStoreWellFormed(store: seq<DocSnapshot>, events: seq<Event>)
    requires WellFormed(store)
    ensures WellFormed(FinalStore(store, events))
    decreases |events|
  {
    if events != [] {
      if events[0].ListingDeleted? {
        DeleteKeepsWellFormed(store, events[0].id);
      }
      FinalStoreWellFormed(StoreAfter(store, events[0]), events[1..]);
    }
  }

  /**
   * Outside search mode the loaded list of a well-formed collection is a prefix of it in
   * its order: newest first and without a repeated record.
   */
  lemma PagedListIsDuplicateFreePrefix(s: ListState, store: seq<DocSnapshot>)
    requires Paged(s, store) && !s.isSearchMode && WellFormed(store)
    ensures NewestFirst(s.listings) && UniqueIds(s.listings)
    ensures !s.hasMore ==> s.listings == Rows(store)
  {
    var n := |s.listings|;
    forall i, j | 0 <= i < j < n
      ensures s.listings[i].createdAt >= s.listings[j].createdAt && s.listings[i].id != s.listings[j].id
    {
      assert s.listings[i] == Rows(store)[i] && s.listings[j] == Rows(store)[j];
    }
    assert store[..|store|] == store;
  }

  /**
   * As the page is written, from its first render on, as long as every reset load
   * succeeds, the page outside search mode shows a duplicate-free prefix of the
   * collection as it stands after the page's own deletes.
   */
  lemma EveryRunShowsPrefix(events: seq<Event>, store: seq<DocSnapshot>)
    requires WellFormed(store) && ResetsSucceed(Initial(), events, store)
    ensures var s := Run(Initial(), events, store);
      var now := FinalStore(store, events);
      !s.isSearchMode ==>
        && NewestFirst(s.listings) && UniqueIds(s.listings)
        && |s.listings| <= |now| && s.listings == Rows(now[..|s.listings|])
  {
    InitialPaged(store);
    RunKeepsPaged(Initial(), events, store);
    FinalStoreWellFormed(store, events);
    var s := Run(Initial(), events, store);
    if !s.isSearchMode { PagedListIsDuplicateFreePrefix(s, FinalStore(store, events)); }
  }

  /**
   * With the corrected load the same holds through failed blank searches and clears;
   * only the reloads after a delete must succeed.
   */
  lemma EveryFixedRunShowsPrefix(events: seq<Event>, store: seq<DocSnapshot>)
    requires WellFormed(store) && DeleteReloadsSucceed(events)
    ensures var s := RunFixed(Initial(), events, store);
      var now := FinalStore(store, events);
      !s.isSearchMode ==>
        && NewestFirst(s.listings) && UniqueIds(s.listings)
        && |s.listings| <= |now| && s.listings == Rows(now[..|s.listings|])
  {
    InitialPaged(store);
    RunFixedKeepsPaged(Initial(), events, store);
    FinalStoreWellFormed(store, events);
    var s := RunFixed(Initial(), events, store);
    if !s.isSearchMode { PagedListIsDuplicateFreePrefix(s, FinalStore(store, events)); }
  }

  /** `k` successful clicks on "Load More". */
  function MoreClicks(s: ListState, store: seq<DocSnapshot>, k: nat): ListState
    decreases k
  {
    if k == 0 then s else MoreClicks(LoadMoreStep(s, store, true), store, k - 1)
  }

  /**
   * Paging ends with the whole collection loaded: from a paged state with `n` records
   * loaded, (|store| - n) / 9 + 1 successful "Load More" clicks load every record and
   * clear `hasMore` (the last one may fetch an empty page).
   */
  lemma {:induction false} LoadMoreReachesEnd(s: ListState, store: seq<DocSnapshot>, k: nat)
    requires Paged(s, store) && !s.isSearchMode
    requires s.hasMore ==> k >= (|store| - |s.listings|) / ITEMS_PER_PAGE + 1
    ensures MoreClicks(s, store, k).listings == Rows(store)
    ensures !MoreClicks(s, store, k).hasMore
    decreases k
  {
    if k == 0 {
      assert store[..|store|] == store;
    } else {
      var next := LoadMoreStep(s, store, true);
      if s.hasMore {
        AppendLoadPaged(s, store, true);
      }
      LoadMoreReachesEnd(next, store, k - 1);
    }
  }

  /**
   * As written, a failed reset load loses the paging invariant. After the first page of
   * a collection of nine or more records has loaded, a search with the term still empty
   * reloads, and when that reload fails the page stays on screen with the cursor cleared
   * and `hasMore` set; the next "Load More" appends the first page a second time. The
   * corrected load keeps the invariant there.
   */
  lemma FailedReloadDuplicates(store: seq<DocSnapshot>)
    requires |store| >= ITEMS_PER_PAGE
    ensures var shown := Step(Initial(), Mounted(true), store);
      var failed := Step(shown, SearchSubmitted(false), store);
      var more := Step(failed, LoadMoreClicked(true), store);
      && Paged(shown, store) && !Paged(failed, store)
      && Paged(StepFixed(shown, SearchSubmitted(false), store), store)
      && |more.listings| == 2 * ITEMS_PER_PAGE
      && more.listings[0] == more.listings[ITEMS_PER_PAGE]
  {
    var shown := Step(Initial(), Mounted(true), store);
    ResetLoadPaged(Initial(), store);
    assert IsBlank(shown.searchTerm);
    StepFixedKeepsPaged(shown, SearchSubmitted(false), store);
    assert |shown.listings| == ITEMS_PER_PAGE;
  }

  /**
   * As written, a failed "Clear" after a search leaves search mode with the search
   * results on screen and paging open from the start, so the next "Load More" appends
   * the collection's first page after them. The "Load More" button shows only while the
   * view is not empty, so on the page this needs a search that found something.
   */
  lemma FailedClearAppendsFirstPage(s: ListState, store: seq<DocSnapshot>)
    ensures var cleared := ClearSearchStep(s, store, false);
      var more := LoadMoreStep(cleared, store, true);
      && !cleared.isSearchMode && cleared.hasMore && cleared.listings == s.listings
      && more.listings == s.listings + Rows(PageOf(store, ITEMS_PER_PAGE, None))
  {
  }

  // ---------------------------------------------------------------------------
  // The component

  class ListingsList {
    var listings: seq<Listing>
    var loading: bool
    var error: string
    var searchTerm: string
    var searching: bool
    var currentPage: int
    var hasMore: bool
    var loadingMore: bool
    var lastDoc: Option<Cursor>
    var isSearchMode: bool
    var priceFilter: PriceFilter
    var filteredListings: seq<Listing>

    ghost function State(): ListState
      reads this`listings, this`loading, this`error, this`searchTerm, this`searching, this`currentPage
      reads this`hasMore, this`loadingMore, this`lastDoc, this`isSearchMode, this`priceFilter
    {
      ListState(listings, loading, error, searchTerm, searching, currentPage, hasMore,
                loadingMore, lastDoc, isSearchMode, priceFilter)
    }

    /** The derived price view is up to date. */
    ghost predicate Valid()
      reads this
    {
      filteredListings == PriceView(listings, priceFilter)
    }

    constructor ()
      ensures Valid() && State() == Initial()
    {
      listings, loading, error, searchTerm, searching := [], true, "", "", false;
      currentPage, hasMore, loadingMore, lastDoc, isSearchMode := 1, true, false, None, false;
      priceFilter, filteredListings := NoSort, [];
    }

    /**
     * The effect that re-derives the price view whenever `listings` or `priceFilter`
     * change; it runs after the handler that changed them.
     */
    method ApplyPriceFilter()
      modifies this`filteredListings
      ensures Valid()
    {
      if priceFilter == NoSort {
        filteredListings := listings;
      } else {
        filteredListings := SortByPrice(listings, priceFilter);
      }
    }

    /**
     * One event: its handler updates the state hooks, then the price effect runs. `store`
     * is the collection before the event; a card's delete callback comes after its
     * listing was removed from it.
     */
    method Dispatch(e: Event, store: seq<DocSnapshot>)
      modifies this
      ensures Valid() && State() == Step(old(State()), e, store)
    {
      match e {
        case Mounted(ok) => LoadListings(true, store, ok);
        case LoadMoreClicked(ok) => LoadMore(store, ok);
        case SearchSubmitted(ok) => HandleSearch(store, ok);
        case ClearClicked(ok) => HandleClearSearch(store, ok);
        case ListingDeleted(id, ok) => HandleDelete(DeleteListing(store, id), ok);
        case TermTyped(term) => SetSearchTerm(term);
        case FilterChosen(f) => SetPriceFilter(f);
      }
      ApplyPriceFilter();
    }

    /**
     * `loadListings(reset)`. The in-flight flags are raised before the await and lowered
     * after it; with the await taken as one step only the lowered flags are seen.
     */
    method LoadListings(reset: bool, store: seq<DocSnapshot>, ok: bool)
      modifies this
      ensures State() == LoadStep(old(State()), reset, store, ok)
      ensures filteredListings == old(filteredListings)
    {
      var before := listings;
      StartLoad(reset);
      SettleLoad(before, reset, store, ok);
    }

    /** The part of `loadListings(reset)` before its await. */
    method StartLoad(reset: bool)
      modifies this
      ensures State() == LoadStarted(old(State()), reset)
      ensures filteredListings == old(filteredListings)
    {
      if reset {
        loading, currentPage, lastDoc, hasMore, isSearchMode := true, 1, None, true, false;
      } else {
        loadingMore := true;
      }
    }

    /** The part of `loadListings(reset)` from its await on; `before` is the records shown when it began. */
    method SettleLoad(before: seq<Listing>, reset: bool, store: seq<DocSnapshot>, ok: bool)
      modifies this
      ensures State() == LoadSettled(old(State()), before, reset, store, ok)
      ensures filteredListings == old(filteredListings)
    {
      if ok {
        var page, next := GetListingsWithPagination(store, ITEMS_PER_PAGE, lastDoc);
        listings := if reset then page else before + page;
        lastDoc, hasMore := next, |page| == ITEMS_PER_PAGE;
      } else {
        error := LOAD_ERROR;
      }
      loading, loadingMore := false, false;
    }

    /** `handleSearch`: a blank term reloads the first page, any other term is searched for. */
    method HandleSearch(store: seq<DocSnapshot>, ok: bool)
      modifies this
      ensures State() == SearchStep(old(State()), store, ok)
      ensures filteredListings == old(filteredListings)
    {
      if IsBlank(searchTerm) {
        LoadListings(true, store, ok);
        return;
      }
      var term := searchTerm;
      StartSearch();
      SettleSearch(term, store, ok);
    }

    /** The part of `handleSearch` before its await. */
    method StartSearch()
      modifies this
      ensures State() == SearchStarted(old(State()))
      ensures filteredListings == old(filteredListings)
    {
      searching, currentPage, lastDoc, hasMore, isSearchMode := true, 1, None, true, true;
    }

    /** The part of `handleSearch` from its await on. */
    method SettleSearch(term: string, store: seq<DocSnapshot>, ok: bool)
      modifies this
      ensures State() == SearchSettled(old(State()), term, store, ok)
      ensures filteredListings == old(filteredListings)
    {
      if ok {
        listings := SearchListings(store, term);
      } else {
        error := SEARCH_ERROR;
      }
      searching := false;
    }

    /** The callback a card runs after deleting its listing: reload the first page of `store`. */
    method HandleDelete(store: seq<DocSnapshot>, ok: bool)
      modifies this
      ensures State() == LoadStep(old(State()), true, store, ok)
      ensures filteredListings == old(filteredListings)
    {
      LoadListings(true, store, ok);
    }

    method HandleClearSearch(store: seq<DocSnapshot>, ok: bool)
      modifies this
      ensures State() == ClearSearchStep(old(State()), store, ok)
      ensures filteredListings == old(filteredListings)
    {
      searchTerm := "";
      LoadListings(true, store, ok);
    }

    method LoadMore(store: seq<DocSnapshot>, ok: bool)
      modifies this
      ensures State() == LoadMoreStep(old(State()), store, ok)
      ensures filteredListings == old(filteredListings)
    {
      if !isSearchMode && hasMore && !loadingMore {
        currentPage := currentPage + 1;
        LoadListings(false, store, ok);
      }
    }

    /** The search box's `onChange`. */
    method SetSearchTerm(term: string)
      modifies this`searchTerm
      ensures State() == old(State()).(searchTerm := term)
    {
      searchTerm := term;
    }

    /** The price selector's `onChange` and its "Clear Filter" button. */
    method SetPriceFilter(f: PriceFilter)
      modifies this`priceFilter
      ensures State() == old(State()).(priceFilter := f)
    {
      priceFilter := f;
    }
  }
}
