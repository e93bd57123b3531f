/** The star-rating strip of a profile card: `generateStars` renders
    ⌊rating⌋ full stars, one half star when the rating is not whole, and
    5 − ⌈rating⌉ empty stars. */
module Stars {

  /** One glyph of the strip: `lni-star-filled`, `lni-star-half`, `lni-star`. */
  datatype Star = Full | Half | Empty

  /** `rating % 1 !== 0`: the rating is not a whole number. */
  predicate HasHalfStar(rating: real) {
    rating != rating.Floor as real
  }

  /** `Math.ceil(rating)`. */
  function Ceil(rating: real): int {
    if HasHalfStar(rating) then rating.Floor + 1 else rating.Floor
  }

  /** `Math.ceil` is the least integer not below the rating. */
  lemma CeilIsLeastAbove(rating: real)
    ensures rating <= Ceil(rating) as real < rating + 1.0
  {
  }

  /** `n` copies of a glyph; a count at or below zero gives none, as a
      counting `for` loop that never enters its body. */
  function Repeat(s: Star, n: int): (r: seq<Star>)
    ensures |r| == if n < 0 then 0 else n
    ensures forall i :: 0 <= i < |r| ==> r[i] == s
  {
    if n <= 0 then [] else seq(n, _ => s)
  }

  /** The strip `generateStars` builds for a rating. */
  function StarsOf(rating: real): seq<Star> {
    Repeat(Full, rating.Floor)
      + (if HasHalfStar(rating) then [Half] else [])
      + Repeat(Empty, 5 - Ceil(rating))
  }

  /** The position of a glyph in the strip: full stars come first. */
  function Rank(s: Star): nat {
    match s
    case Full => 0
    case Half => 1
    case Empty => 2
  }

  /** For a rating in [0, 5] the strip has exactly five glyphs: ⌊rating⌋
      full ones, a half one iff the rating is not whole, 5 − ⌈rating⌉ empty
      ones. */
  lemma StarCounts(rating: real)
    requires 0.0 <= rating <= 5.0
    ensures |StarsOf(rating)| == 5
    ensures multiset(StarsOf(rating))[Full] == rating.Floor
    ensures multiset(StarsOf(rating))[Half] == if HasHalfStar(rating) then 1 else 0
    ensures multiset(StarsOf(rating))[Empty] == 5 - Ceil(rating)
  {
    var f := Repeat(Full, rating.Floor);
    var h: seq<Star> := if HasHalfStar(rating) then [Half] else [];
    var e := Repeat(Empty, 5 - Ceil(rating));
    var full, empty := rating.Floor, 5 - Ceil(rating);
    assert 0 <= full && 0 <= empty;
    RepeatCount(Full, full);
    RepeatCount(Empty, empty);
    assert multiset(StarsOf(rating)) == multiset(f) + multiset(h) + multiset(e);
  }

  /** Full stars come first, then the half star, then the empty ones. */
  lemma StarsOrdered(rating: real)
    ensures forall i, j :: 0 <= i < j < |StarsOf(rating)| ==> Rank(StarsOf(rating)[i]) <= Rank(StarsOf(rating)[j])
  {
    var f := Repeat(Full, rating.Floor);
    var h: seq<Star> := if HasHalfStar(rating) then [Half] else [];
    var e := Repeat(Empty, 5 - Ceil(rating));
    var s := StarsOf(rating);
    forall i | 0 <= i < |s|
      ensures Rank(s[i]) == if i < |f| then 0 else if i < |f| + |h| then 1 else 2
    {
      if i < |f| {
        assert s[i] == f[i];
      } else if i < |f| + |h| {
        assert s[i] == h[i - |f|];
      } else {
        assert s[i] == e[i - |f| - |h|];
      }
    }
  }

  lemma {:induction false} RepeatCount(s: Star, n: int)
    ensures multiset(Repeat(s, n)) == multiset{}[s := if n > 0 then n else 0]
  {
    if n > 0 {
      RepeatCount(s, n - 1);
      assert Repeat(s, n) == Repeat(s, n - 1) + [s];
    }
  }

  /** The boundary cases: 0, 2.5, 4.0, 4.5 and 5. */
  lemma StarExamples()
    ensures StarsOf(0.0) == [Empty, Empty, Empty, Empty, Empty]
    ensures StarsOf(2.5) == [Full, Full, Half, Empty, Empty]
    ensures StarsOf(4.0) == [Full, Full, Full, Full, Empty]
    ensures StarsOf(4.5) == [Full, Full, Full, Full, Half]
    ensures StarsOf(5.0) == [Full, Full, Full, Full, Full]
  {
    assert (2.5).Floor == 2;
    assert (4.5).Floor == 4;
  }

  /** `generateStars(rating)`: two counting loops around the optional half
      star. */
  method GenerateStars(rating: real) returns (stars: seq<Star>)
    ensures stars == StarsOf(rating)
    ensures 0.0 <= rating <= 5.0 ==> |stars| == 5
  {
    var fullStars := rating.Floor;
    var hasHalfStar := rating != fullStars as real;
    stars := [];

    var i := 0;
    while i < fullStars
      invariant 0 <= i && (i <= fullStars || i == 0)
      invariant stars == Repeat(Full, i)
    {
      stars := stars + [Full];
      i := i + 1;
    }
    assert stars == Repeat(Full, fullStars);

    if hasHalfStar {
      stars := stars + [Half];
    }
    ghost var prefix := stars;

    var emptyStars := 5 - Ceil(rating);
    i := 0;
    while i < emptyStars
      invariant 0 <= i && (i <= emptyStars || i == 0)
      invariant stars == prefix + Repeat(Empty, i)
    {
      stars := stars + [Empty];
      i := i + 1;
    }
    assert stars == prefix + Repeat(Empty, emptyStars);
    if 0.0 <= rating <= 5.0 {
      StarCounts(rating);
    }
  }
}
