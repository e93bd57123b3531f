/** The card-visibility engine of the accountant marketplace page: the
    listing of cards, the six search and filter controls, the published
    result count and the "Load More" button, with the handlers that
    recompute which cards are shown. */
module Marketplace {
  import opened Text
  import opened Cards

  /** Every card carries exactly one of the `visible` and `hidden` classes. */
  predicate WellFormed(cs: seq<Card>) {
    forall i :: 0 <= i < |cs| ==> cs[i].classes.ExactlyOne()
  }

  /** Two listings hold the same records in the same order; only their
      classes may differ. */
  predicate SameRecords(a: seq<Card>, b: seq<Card>) {
    |a| == |b| && forall i :: 0 <= i < |a| ==> a[i].record == b[i].record
  }

  /** The show or hide branch of a handler, applied to one card. */
  function Toggle(c: Card, show: bool): Card {
    c.(classes := if show then c.classes.Show() else c.classes.Hide())
  }

  /** The listing after `handleSearch` with the search box holding `input`. */
  function SearchCards(cs: seq<Card>, input: string): seq<Card> {
    seq(|cs|, i requires 0 <= i < |cs| => Toggle(cs[i], MatchesSearch(cs[i].record, input)))
  }

  /** The listing after `handleFilterChange` with the selection `f`. */
  function FilterCards(cs: seq<Card>, f: Filters): seq<Card> {
    seq(|cs|, i requires 0 <= i < |cs| => Toggle(cs[i], IsVisible(cs[i].record.data, f)))
  }

  /** The listing after `clearFilters`. */
  function ShowAll(cs: seq<Card>): seq<Card> {
    seq(|cs|, i requires 0 <= i < |cs| => Toggle(cs[i], true))
  }

  /** The number of cards carrying the `visible` class: the length of
      `querySelectorAll('.accountant-card.visible')`. */
  function CountVisible(cs: seq<Card>): (n: nat)
    ensures n <= |cs|
  {
    if cs == [] then 0
    else CountVisible(cs[..|cs| - 1]) + (if cs[|cs| - 1].classes.visible then 1 else 0)
  }

  /** The positions of the visible cards. */
  function VisibleIndices(cs: seq<Card>): set<int> {
    set i | 0 <= i < |cs| && cs[i].classes.visible
  }

  /** The published count is the number of positions holding a visible card. */
  lemma {:induction false} CountIsVisibleIndices(cs: seq<Card>)
    ensures CountVisible(cs) == |VisibleIndices(cs)|
  {
    if cs != [] {
      var n := |cs| - 1;
      CountIsVisibleIndices(cs[..n]);
      var last: set<int> := if cs[n].classes.visible then {n} else {};
      assert VisibleIndices(cs) == VisibleIndices(cs[..n]) + last;
      assert VisibleIndices(cs[..n]) !! last;
    }
  }

  /** Counting visible cards distributes over concatenation. */
  lemma {:induction false} CountAppend(a: seq<Card>, b: seq<Card>)
    ensures CountVisible(a + b) == CountVisible(a) + CountVisible(b)
  {
    if b != [] {
      var n := |b| - 1;
      assert (a + b)[..|a + b| - 1] == a + b[..n];
      CountAppend(a, b[..n]);
    } else {
      assert a + b == a;
    }
  }

  /** The count equals the number of cards iff every card is visible. */
  lemma {:induction false} CountAllVisible(cs: seq<Card>)
    ensures CountVisible(cs) == |cs| <==> forall i :: 0 <= i < |cs| ==> cs[i].classes.visible
  {
    if cs != [] {
      var n := |cs| - 1;
      CountAllVisible(cs[..n]);
      if forall i :: 0 <= i < |cs| ==> cs[i].classes.visible {
        assert forall i :: 0 <= i < n ==> cs[..n][i].classes.visible;
      }
      if CountVisible(cs) == |cs| {
        assert CountVisible(cs[..n]) == n;
        forall i | 0 <= i < |cs| ensures cs[i].classes.visible {
          if i < n {
            assert cs[..n][i] == cs[i];
          }
        }
      }
    }
  }

  /** After a search, card i keeps its record, carries exactly one class,
      and is visible iff the lower-cased input is a substring of the card's
      lower-cased name, designation, location and tags joined by spaces. */
  lemma SearchVisibleIff(cs: seq<Card>, input: string)
    ensures SameRecords(SearchCards(cs, input), cs)
    ensures WellFormed(SearchCards(cs, input))
    ensures forall i :: 0 <= i < |cs| ==>
      (SearchCards(cs, input)[i].classes.visible <==> IsSubstring(Lower(input), Lower(FullText(cs[i].record))))
  {
    forall i | 0 <= i < |cs|
      ensures SearchCards(cs, input)[i].classes.visible <==> IsSubstring(Lower(input), Lower(FullText(cs[i].record)))
    {
      MatchesSearchIff(cs[i].record, input);
    }
  }

  /** After a filter change, card i keeps its record, carries exactly one
      class, and is visible iff its attributes pass every selected field. */
  lemma FilterVisibleIff(cs: seq<Card>, f: Filters)
    ensures SameRecords(FilterCards(cs, f), cs)
    ensures WellFormed(FilterCards(cs, f))
    ensures forall i :: 0 <= i < |cs| ==> (FilterCards(cs, f)[i].classes.visible <==> Passes(cs[i].record.data, f))
  {
  }

  /** An empty search shows every card, as clearing does. */
  lemma EmptySearchShowsAll(cs: seq<Card>)
    ensures SearchCards(cs, "") == ShowAll(cs)
  {
    forall i | 0 <= i < |cs| ensures MatchesSearch(cs[i].record, "") {
      EmptySearchMatches(cs[i].record);
    }
  }

  /** A filter change with nothing selected shows every card, as clearing does. */
  lemma NoFiltersShowAll(cs: seq<Card>)
    ensures FilterCards(cs, NO_FILTERS) == ShowAll(cs)
  {
    forall i | 0 <= i < |cs| ensures IsVisible(cs[i].record.data, NO_FILTERS) {
      NoFiltersPass(cs[i].record.data);
    }
  }

  /** After clearing, the count is the number of cards. */
  lemma ShowAllCount(cs: seq<Card>)
    ensures WellFormed(ShowAll(cs)) && SameRecords(ShowAll(cs), cs)
    ensures CountVisible(ShowAll(cs)) == |cs|
  {
    CountAllVisible(ShowAll(cs));
  }

  /** The search result depends on the records and the input only, never on
      the classes the cards carried before. */
  lemma SearchIgnoresPriorClasses(a: seq<Card>, b: seq<Card>, input: string)
    requires SameRecords(a, b)
    ensures SearchCards(a, input) == SearchCards(b, input)
  {
  }

  /** The filter result depends on the records and the selection only. */
  lemma FilterIgnoresPriorClasses(a: seq<Card>, b: seq<Card>, f: Filters)
    requires SameRecords(a, b)
    ensures FilterCards(a, f) == FilterCards(b, f)
  {
  }

  /** Searching twice with the same input is searching once. */
  lemma SearchIdempotent(cs: seq<Card>, input: string)
    ensures SearchCards(SearchCards(cs, input), input) == SearchCards(cs, input)
  {
    SearchVisibleIff(cs, input);
    SearchIgnoresPriorClasses(SearchCards(cs, input), cs, input);
  }

  /** Filtering twice with the same selection is filtering once. */
  lemma FilterIdempotent(cs: seq<Card>, f: Filters)
    ensures FilterCards(FilterCards(cs, f), f) == FilterCards(cs, f)
  {
    FilterIgnoresPriorClasses(FilterCards(cs, f), cs, f);
  }

  /** Search and filter do not compose: a filter change discards what the
      last search hid ... */
  lemma FilterOverridesSearch(cs: seq<Card>, input: string, f: Filters)
    ensures FilterCards(SearchCards(cs, input), f) == FilterCards(cs, f)
  {
    SearchVisibleIff(cs, input);
    FilterIgnoresPriorClasses(SearchCards(cs, input), cs, f);
  }

  /** ... and a search discards what the last filter change hid. */
  lemma SearchOverridesFilter(cs: seq<Card>, input: string, f: Filters)
    ensures SearchCards(FilterCards(cs, f), input) == SearchCards(cs, input)
  {
    SearchIgnoresPriorClasses(FilterCards(cs, f), cs, input);
  }

  /** The fixed batch `addMoreAccountants` appends. */
  const MORE_ACCOUNTANTS: seq<Accountant> := [
    Accountant(
      "Arjun Mehta", "Chartered Accountant (CA)", "Kolkata, West Bengal",
      "6 years experience", 4.5, 98, ["GST Filing", "Tax Returns", "Compliance"],
      "\U{20B9}7,500", "../assets/images/accountants/accountant-7.jpg",
      Attributes("kolkata", "gst,tax", "6-10", 4.0, "5000-15000")),
    Accountant(
      "Deepika Agarwal", "Senior Chartered Accountant", "Ahmedabad, Gujarat",
      "11 years experience", 4.8, 145, ["Business Advisory", "Audit", "Tax Planning"],
      "\U{20B9}22,000", "../assets/images/accountants/accountant-8.jpg",
      Attributes("ahmedabad", "advisory,audit", "10+", 4.0, "15000-30000")),
    Accountant(
      "Rohit Gupta", "Chartered Accountant (CA)", "Jaipur, Rajasthan",
      "3 years experience", 4.3, 67, ["Bookkeeping", "Payroll", "GST Filing"],
      "\U{20B9}4,800", "../assets/images/accountants/accountant-9.jpg",
      Attributes("jaipur", "bookkeeping,payroll", "3-5", 4.0, "0-5000"))
  ]

  /** The cards `createAccountantCard` renders for a list of accountants. */
  function RenderAll(accountants: seq<Accountant>): seq<Card> {
    seq(|accountants|, i requires 0 <= i < |accountants| => CreateAccountantCard(accountants[i]))
  }

  /** Rendered cards are well formed and all visible, so appending them
      raises the count by their number. */
  lemma AppendRenderedCount(cs: seq<Card>, accountants: seq<Accountant>)
    ensures WellFormed(RenderAll(accountants))
    ensures CountVisible(cs + RenderAll(accountants)) == CountVisible(cs) + |accountants|
  {
    var batch := RenderAll(accountants);
    CountAllVisible(batch);
    CountAppend(cs, batch);
  }

  /** The rating filter reads the `data-rating` bucket, not the displayed
      rating: Arjun Mehta is shown as 4.5 but carries `data-rating="4"`, so
      selecting 4.5 hides him. */
  lemma RatingFilterReadsBucket()
    ensures MORE_ACCOUNTANTS[0].rating >= 4.5
    ensures !IsVisible(MORE_ACCOUNTANTS[0].dataAttributes, Filters("", "", "", Some(4.5), ""))
  {
  }

  /** The fixed batch holds three accountants. */
  lemma BatchSize()
    ensures |MORE_ACCOUNTANTS| == 3
  {
  }

  /** Selecting the location "kolkata" over the appended batch leaves only
      the Kolkata accountant visible. */
  lemma KolkataFilterOnBatch()
    ensures var r := FilterCards(RenderAll(MORE_ACCOUNTANTS), Filters("kolkata", "", "", None, ""));
      |r| == 3 && r[0].classes.visible && !r[1].classes.visible && !r[2].classes.visible
      && CountVisible(r) == 1
  {
    var f := Filters("kolkata", "", "", None, "");
    var batch := RenderAll(MORE_ACCOUNTANTS);
    var r := FilterCards(batch, f);
    assert batch[0].record.data.location == "kolkata";
    assert batch[1].record.data.location == "ahmedabad";
    assert batch[2].record.data.location == "jaipur";
    CountOneOfThree(r);
  }

  lemma CountOneOfThree(r: seq<Card>)
    requires |r| == 3 && r[0].classes.visible && !r[1].classes.visible && !r[2].classes.visible
    ensures CountVisible(r) == 1
  {
    var one, two := r[..1], r[..2];
    assert one[..0] == [] && one[0] == r[0];
    assert CountVisible(one) == 1;
    assert two[..1] == one && two[1] == r[1];
    assert CountVisible(two) == 1;
    assert r[..2] == two;
  }

  /** The `forEach` of `handleSearch`: every card is shown or hidden by
      the search test, in order. */
  method ApplySearch(accountantCards: seq<Card>, input: string) returns (result: seq<Card>)
    ensures result == SearchCards(accountantCards, input)
  {
    var searchTerm := Lower(input);
    result := accountantCards;
    var i := 0;
    while i < |result|
      invariant 0 <= i <= |result| == |accountantCards|
      invariant forall j :: 0 <= j < i ==> result[j] == SearchCards(accountantCards, input)[j]
      invariant forall j :: i <= j < |result| ==> result[j] == accountantCards[j]
    {
      var card := result[i];
      var classes := card.classes;
      if Includes(SearchableText(card.record), searchTerm) {
        classes := classes.Show();
      } else {
        classes := classes.Hide();
      }
      result := result[i := card.(classes := classes)];
      i := i + 1;
    }
  }

  /** The `forEach` of `handleFilterChange`: every card is shown or hidden
      by the filter test, in order. */
  method ApplyFilters(accountantCards: seq<Card>, f: Filters) returns (result: seq<Card>)
    ensures result == FilterCards(accountantCards, f)
  {
    result := accountantCards;
    var i := 0;
    while i < |result|
      invariant 0 <= i <= |result| == |accountantCards|
      invariant forall j :: 0 <= j < i ==> result[j] == FilterCards(accountantCards, f)[j]
      invariant forall j :: i <= j < |result| ==> result[j] == accountantCards[j]
    {
      var card := result[i];
      var classes := card.classes;
      if IsVisible(card.record.data, f) {
        classes := classes.Show();
      } else {
        classes := classes.Hide();
      }
      result := result[i := card.(classes := classes)];
      i := i + 1;
    }
  }

  /** The `forEach` of `clearFilters`: every card is shown. */
  method ApplyShowAll(accountantCards: seq<Card>) returns (result: seq<Card>)
    ensures result == ShowAll(accountantCards)
  {
    result := accountantCards;
    var i := 0;
    while i < |result|
      invariant 0 <= i <= |result| == |accountantCards|
      invariant forall j :: 0 <= j < i ==> result[j] == ShowAll(accountantCards)[j]
      invariant forall j :: i <= j < |result| ==> result[j] == accountantCards[j]
    {
      var card := result[i];
      result := result[i := card.(classes := card.classes.Show())];
      i := i + 1;
    }
  }

  /** The `forEach` of `addMoreAccountants`: each accountant is rendered
      and inserted at the end of the grid, in list order. */
  method AppendRendered(grid: seq<Card>, accountants: seq<Accountant>) returns (result: seq<Card>)
    ensures result == grid + RenderAll(accountants)
  {
    result := grid;
    var k := 0;
    while k < |accountants|
      invariant 0 <= k <= |accountants|
      invariant result == grid + RenderAll(accountants[..k])
    {
      assert RenderAll(accountants[..k + 1])
        == RenderAll(accountants[..k]) + [CreateAccountantCard(accountants[k])];
      result := result + [CreateAccountantCard(accountants[k])];
      k := k + 1;
    }
    assert accountants[..k] == accountants;
  }

  const LOAD_MORE_LABEL := "Load More Accountants"
  const LOADING_LABEL := "<i class=\"lni lni-spinner-arrow\"></i> Loading..."

  /** The page: the listing in `#accountantsGrid`, the values of the search
      box and the five filter selects, the `#resultsCount` text and the
      `.load-more-btn` button. */
  class MarketplacePage {
    var cards: seq<Card>
    var resultsCount: nat
    var searchInput: string
    /** The values of `#locationFilter`, `#expertiseFilter`,
        `#experienceFilter`, `#ratingFilter` and `#priceFilter`. */
    var filters: Filters
    var loadMoreLabel: string
    var loadMoreDisabled: bool
    /** The 1500 ms timer of a load-more click is scheduled. */
    var loadPending: bool

    /** Every card has exactly one of the two classes, the published count
        is the number of visible cards, and the button is consistent. */
    ghost predicate Valid()
      reads this
    {
      && WellFormed(cards)
      && resultsCount == CountVisible(cards)
      && ButtonValid()
    }

    /** The button is disabled and shows the loading label exactly while a
        load is pending. */
    ghost predicate ButtonValid()
      reads this`loadMoreLabel, this`loadMoreDisabled, this`loadPending
    {
      && loadMoreDisabled == loadPending
      && loadMoreLabel == (if loadPending then LOADING_LABEL else LOAD_MORE_LABEL)
    }

    /** `initializeMarketplace`: the page's cards with empty controls and
        an idle button; the count is published once. */
    constructor (initial: seq<Card>)
      requires WellFormed(initial)
      ensures Valid()
      ensures cards == initial && resultsCount == CountVisible(initial)
      ensures searchInput == "" && filters == NO_FILTERS
      ensures !loadPending
    {
      cards := initial;
      resultsCount := 0;
      searchInput := "";
      filters := NO_FILTERS;
      loadMoreLabel := LOAD_MORE_LABEL;
      loadMoreDisabled := false;
      loadPending := false;
      new;
      UpdateResultsCount();
    }

    /** `updateResultsCount`: publish the number of visible cards. */
    method UpdateResultsCount()
      modifies this`resultsCount
      ensures resultsCount == CountVisible(cards)
    {
      resultsCount := CountVisible(cards);
    }

    /** `handleSearch`: show each card whose searchable text includes the
        lower-cased search box value, hide the others, republish the count. */
    method HandleSearch()
      requires Valid()
      modifies this`cards, this`resultsCount
      ensures Valid()
      ensures cards == SearchCards(old(cards), searchInput)
      ensures resultsCount == CountVisible(cards)
    {
      SearchVisibleIff(cards, searchInput);
      cards := ApplySearch(cards, searchInput);
      UpdateResultsCount();
    }

    /** `handleFilterChange`: show each card passing every selected filter,
        hide the others, republish the count. */
    method HandleFilterChange()
      requires Valid()
      modifies this`cards, this`resultsCount
      ensures Valid()
      ensures cards == FilterCards(old(cards), filters)
      ensures resultsCount == CountVisible(cards)
    {
      FilterVisibleIff(cards, filters);
      cards := ApplyFilters(cards, filters);
      UpdateResultsCount();
    }

    /** `clearFilters`: empty all six controls, show every card, republish
        the count, which is then the number of cards. */
    method ClearFilters()
      requires Valid()
      modifies this`cards, this`resultsCount, this`searchInput, this`filters
      ensures Valid()
      ensures searchInput == "" && filters == NO_FILTERS
      ensures cards == ShowAll(old(cards))
      ensures resultsCount == |cards|
    {
      filters := NO_FILTERS;
      searchInput := "";

      ShowAllCount(cards);
      cards := ApplyShowAll(cards);
      UpdateResultsCount();
    }

    /** The body of `addMoreAccountants` for a given batch: render each
        accountant and insert its card at the end of the grid, in order,
        then republish the count, which grows by the batch size. */
    method AppendAccountants(accountants: seq<Accountant>)
      requires Valid()
      modifies this`cards, this`resultsCount
      ensures Valid()
      ensures cards == old(cards) + RenderAll(accountants)
      ensures resultsCount == old(resultsCount) + |accountants|
    {
      AppendRenderedCount(cards, accountants);
      cards := AppendRendered(cards, accountants);
      UpdateResultsCount();
    }

    /** `addMoreAccountants`: append the three rendered cards of the fixed
        batch after the existing ones; the count grows by exactly three. */
    method AddMoreAccountants()
      requires Valid()
      modifies this`cards, this`resultsCount
      ensures Valid()
      ensures cards == old(cards) + RenderAll(MORE_ACCOUNTANTS)
      ensures resultsCount == old(resultsCount) + 3
    {
      BatchSize();
      AppendAccountants(MORE_ACCOUNTANTS);
    }

    /** The click half of `handleLoadMore`: show the loading label, disable
        the button and schedule the load. A disabled button receives no
        clicks, so the button is enabled when this runs. */
    method HandleLoadMore()
      requires Valid() && !loadMoreDisabled
      modifies this`loadMoreLabel, this`loadMoreDisabled, this`loadPending
      ensures Valid()
      ensures loadMoreLabel == LOADING_LABEL && loadMoreDisabled && loadPending
    {
      loadMoreLabel := LOADING_LABEL;
      loadMoreDisabled := true;
      loadPending := true;
    }

    /** The timer half of `handleLoadMore`: append the batch, then restore
        the button's label and enable it. */
    method CompleteLoadMore()
      requires Valid() && loadPending
      modifies this`cards, this`resultsCount, this`loadMoreLabel, this`loadMoreDisabled, this`loadPending
      ensures Valid()
      ensures cards == old(cards) + RenderAll(MORE_ACCOUNTANTS)
      ensures resultsCount == old(resultsCount) + 3
      ensures loadMoreLabel == LOAD_MORE_LABEL && !loadMoreDisabled && !loadPending
    {
      AddMoreAccountants();
      loadMoreLabel := LOAD_MORE_LABEL;
      loadMoreDisabled := false;
      loadPending := false;
    }
  }
}
