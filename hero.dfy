/**
 * The hero carousel: which destination slide is shown, advanced by an
 * interval tick and set directly by the indicator buttons.
 */
module Hero {

  datatype Destination = Destination(country: string, city: string, image: string)

  /** The slides, in display order. */
  const Destinations: seq<Destination> := [
    Destination("United States", "New York",
      "https://images.unsplash.com/photo-1496442226666-8d4d0e62e6e9?q=80&w=2670&auto=format&fit=crop"),
    Destination("United Kingdom", "London",
      "https://images.unsplash.com/photo-1513635269975-59663e0ac1ad?q=80&w=2670&auto=format&fit=crop"),
    Destination("Germany", "Berlin",
      "https://images.unsplash.com/photo-1560969184-10fe8719e047?q=80&w=2670&auto=format&fit=crop")
  ]

  /** The interval callback's update `(prev + 1) % destinations.length`. */
  function Next(i: nat): (j: nat)
    ensures j < |Destinations|
    ensures i < |Destinations| ==> j == if i + 1 < |Destinations| then i + 1 else 0
  {
    (i + 1) % |Destinations|
  }

  /** The index after `k` ticks from `i`. */
  function Ticks(i: nat, k: nat): nat {
    if k == 0 then i else Next(Ticks(i, k - 1))
  }

  /** `k` ticks from `i` land on `(i + k) mod length`. */
  lemma {:induction false} TicksAreModular(i: nat, k: nat)
    requires i < |Destinations|
    ensures Ticks(i, k) == (i + k) % |Destinations|
  {
    if k > 0 {
      TicksAreModular(i, k - 1);
      SuccessorMod(i + k - 1);
      assert i + k - 1 + 1 == i + k;
    }
  }

  lemma SuccessorMod(a: nat)
    ensures Next(a % |Destinations|) == (a + 1) % |Destinations|
  {
    assert |Destinations| == 3;
  }

  /** After one tick per slide the carousel is back where it started. */
  lemma FullCycleReturns(i: nat)
    requires i < |Destinations|
    ensures Ticks(i, |Destinations|) == i
  {
    TicksAreModular(i, |Destinations|);
  }

  /** The opacity (and z-index) of slide `index` when `current` is shown. */
  function Opacity(index: nat, current: nat): (o: nat)
    ensures o <= 1
    ensures o == 1 <==> index == current
  {
    if current == index then 1 else 0
  }

  class Carousel {
    var current: nat

    ghost predicate Valid()
      reads this
    {
      current < |Destinations|
    }

    /** The carousel starts on the first slide. */
    constructor ()
      ensures Valid() && current == 0
    {
      current := 0;
    }

    /** The interval callback: move to the next slide, wrapping after the last. */
    method Tick()
      requires Valid()
      modifies this
      ensures Valid() && current == Next(old(current))
    {
      current := (current + 1) % |Destinations|;
    }

    /** Clicking indicator `index`: show exactly that slide. */
    method SelectIndicator(index: nat)
      requires index < |Destinations|
      modifies this
      ensures Valid() && current == index
    {
      current := index;
    }

    /** The slides drawn with opacity 1: exactly the current one. */
    function VisibleSlides(): (s: set<nat>)
      requires Valid()
      reads this
      ensures s == {current}
    {
      set i: nat | i < |Destinations| && Opacity(i, current) == 1
    }
  }
}
