/** One accountant card of the listing: the record it displays, the
    `data-*` attributes the structured filter reads, and the pair of classes
    (`visible`, `hidden`) the handlers toggle. Also the per-card tests the
    search and the filter apply. */
module Cards {
  import opened Text
  import opened Stars

  datatype Option<T> = None | Some(value: T)

  /** The `data-location`, `data-expertise`, `data-experience`,
      `data-rating` and `data-price` attributes of a card. The rating is the
      value `parseFloat` reads from `data-rating`. */
  datatype Attributes = Attributes(
    location: string,
    expertise: string,
    experience: string,
    rating: real,
    price: string)

  /** An accountant object as `addMoreAccountants` lists it, before rendering. */
  datatype Accountant = Accountant(
    name: string,
    designation: string,
    location: string,
    experience: string,
    rating: real,
    reviews: nat,
    specializations: seq<string>,
    price: string,
    image: string,
    dataAttributes: Attributes)

  /** What a rendered card shows and carries: the texts the search reads
      (`h3`, `.designation`, `.location span`, `.specialization-tag`), the
      filter attributes, the profile-link key and the star strip. */
  datatype Record = Record(
    name: string,
    designation: string,
    location: string,
    specializations: seq<string>,
    data: Attributes,
    profileKey: string,
    stars: seq<Star>)

  /** The `visible` and `hidden` entries of a card's class list. */
  datatype ClassList = ClassList(visible: bool, hidden: bool) {
    /** Exactly one of the two classes is present. */
    predicate ExactlyOne() {
      visible != hidden
    }

    /** `classList.remove('hidden'); classList.add('visible')`. */
    function Show(): ClassList {
      this.(hidden := false).(visible := true)
    }

    /** `classList.add('hidden'); classList.remove('visible')`. */
    function Hide(): ClassList {
      this.(hidden := true).(visible := false)
    }
  }

  datatype Card = Card(record: Record, classes: ClassList)

  /** The selected values of the five filter controls; "" (for the rating,
      None) is the unselected option, which imposes nothing. */
  datatype Filters = Filters(
    location: string,
    expertise: string,
    experience: string,
    rating: Option<real>,
    price: string)

  const NO_FILTERS := Filters("", "", "", None, "")

  const EMAIL_SUFFIX := "@example.com"

  /** The key in a card's "View Profile" link:
      `name.toLowerCase().replace(/\s+/g, '') + '@example.com'`. */
  function ProfileKey(name: string): (key: string)
    ensures |key| >= |EMAIL_SUFFIX| && key[|key| - |EMAIL_SUFFIX|..] == EMAIL_SUFFIX
    ensures HasNoWhitespace(key)
    ensures IsLowered(key)
  {
    LowerIsLowered(name);
    assert HasNoWhitespace(EMAIL_SUFFIX) && IsLowered(EMAIL_SUFFIX);
    AppendClean(RemoveWhitespace(Lower(name)), EMAIL_SUFFIX);
    RemoveWhitespace(Lower(name)) + EMAIL_SUFFIX
  }

  /** Where whitespace stood in a name does not change its key. */
  lemma ProfileKeyIgnoresWhitespace(first: string, space: string, last: string)
    requires forall i :: 0 <= i < |space| ==> IsWhitespace(space[i])
    ensures ProfileKey(first + space + last) == ProfileKey(first + last)
  {
    var f, s, l := Lower(first), Lower(space), Lower(last);
    LowerAppend(first, space);
    LowerAppend(first + space, last);
    LowerAppend(first, last);
    LoweredSpaceRemoved(space);
    calc {
      RemoveWhitespace(Lower(first + space + last));
      RemoveWhitespace(f + s + l);
      { RemoveWhitespaceAppend(f + s, l); RemoveWhitespaceAppend(f, s); }
      RemoveWhitespace(f) + RemoveWhitespace(l);
      { RemoveWhitespaceAppend(f, l); }
      RemoveWhitespace(Lower(first + last));
    }
  }

  /** Lower-casing keeps whitespace, so a lower-cased run of whitespace is
      removed entirely. */
  lemma LoweredSpaceRemoved(space: string)
    requires forall i :: 0 <= i < |space| ==> IsWhitespace(space[i])
    ensures RemoveWhitespace(Lower(space)) == []
  {
    var s := Lower(space);
    forall i | 0 <= i < |s| ensures IsWhitespace(s[i]) {
      assert s[i] == LowerChar(space[i]);
    }
    SpaceOnlyRemoved(s);
  }

  lemma {:induction false} SpaceOnlyRemoved(s: string)
    requires forall i :: 0 <= i < |s| ==> IsWhitespace(s[i])
    ensures RemoveWhitespace(s) == []
  {
    if s != [] {
      SpaceOnlyRemoved(s[1..]);
    }
  }

  /** `createAccountantCard`: the card carries the accountant's texts and
      data attributes unchanged, the profile key of its name and the star
      strip of its rating, and is rendered with the `visible` class only. */
  function CreateAccountantCard(a: Accountant): (c: Card)
    ensures c.classes.visible && c.classes.ExactlyOne()
    ensures c.record.data == a.dataAttributes
    ensures c.record.name == a.name && c.record.designation == a.designation
    ensures c.record.location == a.location && c.record.specializations == a.specializations
    ensures c.record.profileKey == ProfileKey(a.name) && HasNoWhitespace(c.record.profileKey)
    ensures c.record.stars == StarsOf(a.rating)
    ensures 0.0 <= a.rating <= 5.0 ==> |c.record.stars| == 5
  {
    assert 0.0 <= a.rating <= 5.0 ==> |StarsOf(a.rating)| == 5 by {
      if 0.0 <= a.rating <= 5.0 {
        StarCounts(a.rating);
      }
    }
    Card(
      Record(a.name, a.designation, a.location, a.specializations, a.dataAttributes,
             ProfileKey(a.name), StarsOf(a.rating)),
      ClassList(true, false))
  }

  /** The card's texts before lower-casing, joined with single spaces. */
  function FullText(r: Record): string {
    r.name + " " + r.designation + " " + r.location + " " + Join(r.specializations, " ")
  }

  /** `searchableText` as `handleSearch` builds it: each text lower-cased on
      its own, the tags lower-cased and joined with spaces. */
  function SearchableText(r: Record): string {
    Lower(r.name) + " " + Lower(r.designation) + " " + Lower(r.location) + " "
      + Join(LowerEach(r.specializations), " ")
  }

  /** Building the text piece by piece is the same as lower-casing the whole
      joined text. */
  lemma SearchableTextIsLowerFullText(r: Record)
    ensures SearchableText(r) == Lower(FullText(r))
  {
    assert IsLowered(" ");
    LowerJoin(r.specializations, " ");
    LowerIsLowered(" ");
    var n, d, l, j := r.name, r.designation, r.location, Join(r.specializations, " ");
    LowerAppend(n, " ");
    LowerAppend(n + " ", d);
    LowerAppend(n + " " + d, " ");
    LowerAppend(n + " " + d + " ", l);
    LowerAppend(n + " " + d + " " + l, " ");
    LowerAppend(n + " " + d + " " + l + " ", j);
  }

  /** The search test of one card: `searchableText.includes(searchTerm)`
      with the term lower-cased. */
  function MatchesSearch(r: Record, input: string): bool {
    Includes(SearchableText(r), Lower(input))
  }

  /** A card matches a search iff the lower-cased input is a substring of
      its lower-cased name, designation, location and tags joined by spaces. */
  lemma MatchesSearchIff(r: Record, input: string)
    ensures MatchesSearch(r, input) <==> IsSubstring(Lower(input), Lower(FullText(r)))
  {
    SearchableTextIsLowerFullText(r);
  }

  /** The search is case-insensitive in its input. */
  lemma SearchIgnoresInputCase(r: Record, input: string)
    ensures MatchesSearch(r, Lower(input)) == MatchesSearch(r, input)
  {
    LowerIdempotent(input);
  }

  /** The empty search matches every card. */
  lemma EmptySearchMatches(r: Record)
    ensures MatchesSearch(r, "")
  {
    IncludesEmpty(SearchableText(r));
  }

  /** A card passes a filter selection iff it passes every selected field:
      location, experience and price by exact equality, expertise by
      substring of the comma-joined `data-expertise`, rating by
      `data-rating >= selected`. */
  ghost predicate Passes(d: Attributes, f: Filters) {
    && (f.location != "" ==> d.location == f.location)
    && (f.expertise != "" ==> IsSubstring(f.expertise, d.expertise))
    && (f.experience != "" ==> d.experience == f.experience)
    && (f.rating.Some? ==> d.rating >= f.rating.value)
    && (f.price != "" ==> d.price == f.price)
  }

  /** `isVisible` as `handleFilterChange` computes it: start from true and
      clear it on each selected field the card fails. */
  function IsVisible(d: Attributes, f: Filters): (isVisible: bool)
    ensures isVisible <==> Passes(d, f)
  {
    var v0 := true;
    var v1 := if f.location != "" && d.location != f.location then false else v0;
    var v2 := if f.expertise != "" && !Includes(d.expertise, f.expertise) then false else v1;
    var v3 := if f.experience != "" && d.experience != f.experience then false else v2;
    var v4 := if f.rating.Some? && d.rating < f.rating.value then false else v3;
    var v5 := if f.price != "" && d.price != f.price then false else v4;
    v5
  }

  /** With no field selected every card passes. */
  lemma NoFiltersPass(d: Attributes)
    ensures IsVisible(d, NO_FILTERS)
  {
  }

  /** The expertise test is substring containment, not tag membership: a
      selected "gst" passes a card whose only tag is "budgst". */
  lemma ExpertiseMatchesInsideTag()
    ensures IsVisible(Attributes("", "budgst", "", 0.0, ""), Filters("", "gst", "", None, ""))
  {
    assert OccursAt("gst", "budgst", 3);
  }
}
