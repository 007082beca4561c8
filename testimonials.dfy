/**
 * The star row of a testimonial (`Testimonials`' `renderStars`): five icons,
 * keyed 1 to 5, the i-th filled when i is at most the rating.
 */
module Testimonials {

  /** One icon of the row, with its React key. */
  datatype Star = Filled(key: int) | Empty(key: int)

  /** Five stars keyed 1..5 in order, the i-th filled exactly when i <= rating. */
  predicate IsRendering(stars: seq<Star>, rating: int) {
    && |stars| == 5
    && (forall k :: 0 <= k < 5 ==> stars[k].key == k + 1)
    && (forall k :: 0 <= k < 5 ==> (stars[k].Filled? <==> k + 1 <= rating))
  }

  /** `renderStars(rating)`: the loop pushes one icon per slot. */
  method RenderStars(rating: int) returns (stars: seq<Star>)
    ensures IsRendering(stars, rating)
  {
    stars := [];
    var i := 1;
    while i <= 5
      invariant 1 <= i <= 6 && |stars| == i - 1
      invariant forall k :: 0 <= k < |stars| ==> stars[k].key == k + 1
      invariant forall k :: 0 <= k < |stars| ==> (stars[k].Filled? <==> k + 1 <= rating)
    {
      if i <= rating {
        stars := stars + [Filled(i)];
      } else {
        stars := stars + [Empty(i)];
      }
      i := i + 1;
    }
  }

  function FilledCount(stars: seq<Star>): (n: nat)
    ensures n <= |stars|
  {
    if stars == [] then 0
    else FilledCount(stars[..|stars| - 1]) + (if stars[|stars| - 1].Filled? then 1 else 0)
  }

  /** `rating` limited to the range 0..5. */
  function Clamp(rating: int): (n: nat)
    ensures n <= 5
  {
    if rating < 0 then 0 else if rating > 5 then 5 else rating
  }

  /** The filled stars come first: no empty star precedes a filled one. */
  lemma FilledPrefix(stars: seq<Star>, rating: int)
    requires IsRendering(stars, rating)
    ensures forall j, k :: 0 <= j < k < 5 && stars[k].Filled? ==> stars[j].Filled?
  {
  }

  /** The row has as many filled stars as the rating, limited to 0..5. */
  lemma FilledCountIsClamp(stars: seq<Star>, rating: int)
    requires IsRendering(stars, rating)
    ensures FilledCount(stars) == Clamp(rating)
    ensures |stars| - FilledCount(stars) == 5 - Clamp(rating)
  {
    FilledUpTo(stars, Clamp(rating), 5);
    assert stars[..5] == stars;
  }

  /** When exactly the first `n` stars are filled, the first `m` of them hold min(n, m) filled ones. */
  lemma {:induction false} FilledUpTo(stars: seq<Star>, n: nat, m: nat)
    requires m <= |stars|
    requires forall k :: 0 <= k < |stars| ==> (stars[k].Filled? <==> k < n)
    ensures FilledCount(stars[..m]) == if n < m then n else m
    decreases m
  {
    if m > 0 {
      assert stars[..m][..m - 1] == stars[..m - 1];
      FilledUpTo(stars, n, m - 1);
    }
  }

  /** The hero testimonial's `renderStars(5)` shows five filled stars. */
  method HeroStars() returns (stars: seq<Star>)
    ensures stars == [Filled(1), Filled(2), Filled(3), Filled(4), Filled(5)]
  {
    stars := RenderStars(5);
    assert stars[0] == Filled(1) && stars[1] == Filled(2) && stars[2] == Filled(3);
    assert stars[3] == Filled(4) && stars[4] == Filled(5);
  }

}
