/**
 * The pricing results view: the lowest / average / highest figures over
 * the cards' prices and mileages, and the one card shown per region.
 * Prices and mileages are whole numbers here; 0 stands for a value that
 * is missing, null or zero, all of which the page treats as falsy.
 */
module Results {
  import opened Wrappers
  import opened Text

  /** One pricing card as the pricing endpoint returns it (`adjusted_whole_clean` is `price`). */
  datatype Card = Card(
    province: string,
    year: int,
    make: string,
    model: string,
    vin: string,
    mileage: int,
    price: int,
    publishDate: string)

  /** The three figures a summary row shows. */
  datatype Summary = Summary(lowest: int, average: int, highest: int)

  /** `.filter(v => v)`: drops the falsy values, keeping the others in order. */
  function Present(xs: seq<int>): (r: seq<int>)
    ensures forall x :: x in r <==> x in xs && x != 0
    ensures forall x :: multiset(r)[x] == if x == 0 then 0 else multiset(xs)[x]
    ensures IsSubsequence(r, xs)
  {
    if xs == [] then []
    else
      assert xs == [xs[0]] + xs[1..];
      if xs[0] != 0 then [xs[0]] + Present(xs[1..])
      else Present(xs[1..])
  }

  function Prices(cards: seq<Card>): (r: seq<int>)
    ensures |r| == |cards| && forall i :: 0 <= i < |cards| ==> r[i] == cards[i].price
  {
    seq(|cards|, i requires 0 <= i < |cards| => cards[i].price)
  }

  function Mileages(cards: seq<Card>): (r: seq<int>)
    ensures |r| == |cards| && forall i :: 0 <= i < |cards| ==> r[i] == cards[i].mileage
  {
    seq(|cards|, i requires 0 <= i < |cards| => cards[i].mileage)
  }

  /** `Math.min(...xs)`. */
  function Min(xs: seq<int>): (m: int)
    requires xs != []
    ensures m in xs
    ensures forall x :: x in xs ==> m <= x
  {
    if |xs| == 1 then xs[0]
    else
      var rest := Min(xs[1..]);
      assert forall x :: x in xs ==> x == xs[0] || x in xs[1..];
      if xs[0] <= rest then xs[0] else rest
  }

  /** `Math.max(...xs)`. */
  function Max(xs: seq<int>): (m: int)
    requires xs != []
    ensures m in xs
    ensures forall x :: x in xs ==> x <= m
  {
    if |xs| == 1 then xs[0]
    else
      var rest := Max(xs[1..]);
      assert forall x :: x in xs ==> x == xs[0] || x in xs[1..];
      if xs[0] >= rest then xs[0] else rest
  }

  /** `xs.reduce((a, b) => a + b)`. */
  function Sum(xs: seq<int>): int
  {
    if xs == [] then 0 else xs[0] + Sum(xs[1..])
  }

  /**
   * `Math.round(sum / n)`: Math.round is floor(x + 1/2), and with a positive
   * divisor Dafny's division is the floor, so no real arithmetic is needed.
   */
  function RoundedMean(xs: seq<int>): (r: int)
    requires xs != []
    ensures 2 * |xs| * r - |xs| <= 2 * Sum(xs) < 2 * |xs| * r + |xs|
  {
    var n := |xs|;
    var q := (2 * Sum(xs) + n) / (2 * n);
    assert 2 * Sum(xs) + n == 2 * n * q + (2 * Sum(xs) + n) % (2 * n);
    q
  }

  lemma {:induction false} SumBounds(xs: seq<int>, lo: int, hi: int)
    requires forall x :: x in xs ==> lo <= x <= hi
    ensures |xs| * lo <= Sum(xs) <= |xs| * hi
  {
    if xs != [] {
      var t := xs[1..];
      var m := |t|;
      assert xs[0] in xs;
      assert forall x :: x in t ==> x in xs;
      SumBounds(t, lo, hi);
      assert Sum(xs) == xs[0] + Sum(t);
      assert |xs| == m + 1;
      assert (m + 1) * lo == m * lo + lo;
      assert (m + 1) * hi == m * hi + hi;
    }
  }

  /** A positive multiple of a negative whole number is at most minus the multiplier. */
  lemma MulNegative(n: int, d: int)
    requires n > 0 && d <= -1
    ensures n * d <= -n
  {
  }

  /** A whole number within half a unit of a mean of values in [lo, hi] is itself in [lo, hi]. */
  lemma RoundedWithin(s: int, n: int, lo: int, hi: int, r: int)
    requires n > 0
    requires n * lo <= s <= n * hi
    requires 2 * n * r - n <= 2 * s < 2 * n * r + n
    ensures lo <= r <= hi
  {
    var k := 2 * n;
    assert k * r - n <= 2 * s < k * r + n;
    assert k * lo <= 2 * s <= k * hi;
    if r < lo {
      assert k * (r - lo) == k * r - k * lo;
      MulNegative(k, r - lo);
    }
    if r > hi {
      assert k * (hi - r) == k * hi - k * r;
      MulNegative(k, hi - r);
    }
  }

  /** The rounded mean lies between the lowest and the highest value. */
  lemma MeanBetween(xs: seq<int>)
    requires xs != []
    ensures Min(xs) <= RoundedMean(xs) <= Max(xs)
  {
    SumBounds(xs, Min(xs), Max(xs));
    RoundedWithin(Sum(xs), |xs|, Min(xs), Max(xs), RoundedMean(xs));
  }

  /**
   * One summary row of `displayResults`: None when no value survives the
   * falsy filter, in which case the page leaves the row as it was.
   */
  function Summarise(values: seq<int>): (r: Option<Summary>)
    ensures r.None? <==> forall x :: x in values ==> x == 0
    ensures r.Some? ==> r.value.lowest in values && r.value.lowest != 0
    ensures r.Some? ==> r.value.highest in values && r.value.highest != 0
    ensures r.Some? ==> r.value.lowest <= r.value.average <= r.value.highest
    ensures r.Some? ==> forall x :: x in values && x != 0 ==> r.value.lowest <= x <= r.value.highest
    ensures r.Some? ==> var p := Present(values);
      2 * |p| * r.value.average - |p| <= 2 * Sum(p) < 2 * |p| * r.value.average + |p|
  {
    var p := Present(values);
    if p == [] then None
    else
      MeanBetween(p);
      Some(Summary(Min(p), RoundedMean(p), Max(p)))
  }

  /** No card before position `i` has the given province. */
  predicate IsFirstOf(cards: seq<Card>, i: nat, province: string)
    requires i <= |cards|
  {
    forall j :: 0 <= j < i ==> cards[j].province != province
  }

  /** `cards.find(c => c.province === province)`: the first card of that province, in list order. */
  function FindProvince(cards: seq<Card>, province: string): (r: Option<Card>)
    ensures r.Some? ==> r.value.province == province
    ensures r.Some? ==>
      exists i :: 0 <= i < |cards| && cards[i] == r.value && IsFirstOf(cards, i, province)
    ensures r.None? <==> forall c :: c in cards ==> c.province != province
  {
    match FirstIndex(cards, (c: Card) => c.province == province)
    case None => None
    case Some(i) => Some(cards[i])
  }
}
