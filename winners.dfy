/**
 * The winners page: the two-step filter its effect applies to the winners
 * list, the de-duplicated country and destination option lists, and the
 * year and month that `formatMonth` builds a date from.
 */
module Winners {
  import opened Basics
  import opened Strings

  datatype Winner = Winner(id: int, name: string, country: string, destination: string, date: string, image: string)

  /** The sentinel a filter holds when it is off. */
  const All: string := "all"

  /** `ws.filter(w => w.country === c)`. */
  function ByCountry(ws: seq<Winner>, c: string): (r: seq<Winner>)
    ensures |r| <= |ws|
    ensures forall w :: w in r <==> w in ws && w.country == c
  {
    if ws == [] then []
    else (if ws[0].country == c then [ws[0]] else []) + ByCountry(ws[1..], c)
  }

  /** `ws.filter(w => w.destination === d)`. */
  function ByDestination(ws: seq<Winner>, d: string): (r: seq<Winner>)
    ensures |r| <= |ws|
    ensures forall w :: w in r <==> w in ws && w.destination == d
  {
    if ws == [] then []
    else (if ws[0].destination == d then [ws[0]] else []) + ByDestination(ws[1..], d)
  }

  /** A winner passes both filters; a filter set to `'all'` passes everyone. */
  predicate Matches(w: Winner, countryFilter: string, destinationFilter: string) {
    (countryFilter == All || w.country == countryFilter)
    && (destinationFilter == All || w.destination == destinationFilter)
  }

  /** The reference definition: one pass keeping the winners that pass both filters. */
  function Selected(ws: seq<Winner>, countryFilter: string, destinationFilter: string): seq<Winner> {
    if ws == [] then []
    else
      var head := if Matches(ws[0], countryFilter, destinationFilter) then [ws[0]] else [];
      head + Selected(ws[1..], countryFilter, destinationFilter)
  }

  /** `s` is `t` with some elements left out, the rest in their order. */
  predicate IsSubsequence(s: seq<Winner>, t: seq<Winner>)
    decreases |t|
  {
    if t == [] then s == []
    else (s != [] && s[0] == t[0] && IsSubsequence(s[1..], t[1..])) || IsSubsequence(s, t[1..])
  }

  /**
   * The filter effect: starting from a copy of the list, narrow it by country
   * when that filter is on, then by destination when that one is on.
   */
  method FilterWinners(winners: seq<Winner>, countryFilter: string, destinationFilter: string)
    returns (filtered: seq<Winner>)
    ensures filtered == Selected(winners, countryFilter, destinationFilter)
  {
    filtered := winners;
    if countryFilter != All {
      filtered := ByCountry(filtered, countryFilter);
    }
    if destinationFilter != All {
      filtered := ByDestination(filtered, destinationFilter);
    }
    FilterStepsAgree(winners, countryFilter, destinationFilter);
  }

  /** The two filtering steps the effect takes give the reference selection. */
  lemma {:induction false} FilterStepsAgree(ws: seq<Winner>, countryFilter: string, destinationFilter: string)
    ensures var afterCountry := if countryFilter != All then ByCountry(ws, countryFilter) else ws;
      (if destinationFilter != All then ByDestination(afterCountry, destinationFilter) else afterCountry)
      == Selected(ws, countryFilter, destinationFilter)
  {
    if ws != [] {
      FilterStepsAgree(ws[1..], countryFilter, destinationFilter);
      if countryFilter != All {
        var head := if ws[0].country == countryFilter then [ws[0]] else [];
        ByDestinationAppend(head, ByCountry(ws[1..], countryFilter), destinationFilter);
      } else {
        ByDestinationAppend([ws[0]], ws[1..], destinationFilter);
        assert ws == [ws[0]] + ws[1..];
      }
    }
  }

  lemma {:induction false} ByDestinationAppend(s: seq<Winner>, t: seq<Winner>, d: string)
    ensures ByDestination(s + t, d) == ByDestination(s, d) + ByDestination(t, d)
  {
    if s != [] {
      assert (s + t)[1..] == s[1..] + t;
      ByDestinationAppend(s[1..], t, d);
    } else {
      assert s + t == t;
    }
  }

  /** With both filters off the effect shows the whole list, in its order. */
  lemma {:induction false} BothOffKeepsAll(ws: seq<Winner>)
    ensures Selected(ws, All, All) == ws
  {
    if ws != [] {
      BothOffKeepsAll(ws[1..]);
    }
  }

  /** The selection holds exactly the winners of the list that pass both active filters. */
  lemma {:induction false} SelectedMembership(ws: seq<Winner>, countryFilter: string, destinationFilter: string, w: Winner)
    ensures w in Selected(ws, countryFilter, destinationFilter) <==> w in ws && Matches(w, countryFilter, destinationFilter)
  {
    if ws != [] {
      SelectedMembership(ws[1..], countryFilter, destinationFilter, w);
      assert ws == [ws[0]] + ws[1..];
    }
  }

  /** Every winner shown has the chosen country when the country filter is on, and the chosen destination when that one is. */
  lemma SelectedSatisfiesFilters(ws: seq<Winner>, countryFilter: string, destinationFilter: string, i: nat)
    requires i < |Selected(ws, countryFilter, destinationFilter)|
    ensures var w := Selected(ws, countryFilter, destinationFilter)[i];
      (countryFilter != All ==> w.country == countryFilter)
      && (destinationFilter != All ==> w.destination == destinationFilter)
  {
    SelectedMembership(ws, countryFilter, destinationFilter, Selected(ws, countryFilter, destinationFilter)[i]);
  }

  /** The selection keeps the order of the list: it is a subsequence of it. */
  lemma {:induction false} SelectedIsSubsequence(ws: seq<Winner>, countryFilter: string, destinationFilter: string)
    ensures IsSubsequence(Selected(ws, countryFilter, destinationFilter), ws)
  {
    if ws != [] {
      var rest := Selected(ws[1..], countryFilter, destinationFilter);
      SelectedIsSubsequence(ws[1..], countryFilter, destinationFilter);
      if Matches(ws[0], countryFilter, destinationFilter) {
        var r := Selected(ws, countryFilter, destinationFilter);
        assert r == [ws[0]] + rest && r[1..] == rest;
      } else {
        assert Selected(ws, countryFilter, destinationFilter) == rest;
      }
    }
  }

  /** Narrowing by country then destination equals narrowing by destination then country. */
  lemma {:induction false} FiltersCommute(ws: seq<Winner>, c: string, d: string)
    ensures ByDestination(ByCountry(ws, c), d) == ByCountry(ByDestination(ws, d), c)
  {
    if ws != [] {
      FiltersCommute(ws[1..], c, d);
      var headC := if ws[0].country == c then [ws[0]] else [];
      var headD := if ws[0].destination == d then [ws[0]] else [];
      ByDestinationAppend(headC, ByCountry(ws[1..], c), d);
      ByCountryAppend(headD, ByDestination(ws[1..], d), c);
    }
  }

  lemma {:induction false} ByCountryAppend(s: seq<Winner>, t: seq<Winner>, c: string)
    ensures ByCountry(s + t, c) == ByCountry(s, c) + ByCountry(t, c)
  {
    if s != [] {
      assert (s + t)[1..] == s[1..] + t;
      ByCountryAppend(s[1..], t, c);
    } else {
      assert s + t == t;
    }
  }

  // ----- Filter options -----

  /** The index of the first occurrence of `x` in `xs`. */
  function FirstIndex(xs: seq<string>, x: string): (k: nat)
    requires x in xs
    ensures k < |xs| && xs[k] == x && x !in xs[..k]
  {
    if xs[0] == x then 0 else 1 + FirstIndex(xs[1..], x)
  }

  /**
   * `[...new Set(xs)]` with the values in `seen` already taken: each value
   * once, in the order of its first occurrence.
   */
  function Distinct(xs: seq<string>, seen: set<string>): (r: seq<string>)
    ensures forall x :: x in r <==> x in xs && x !in seen
  {
    if xs == [] then []
    else if xs[0] in seen then Distinct(xs[1..], seen)
    else [xs[0]] + Distinct(xs[1..], seen + {xs[0]})
  }

  predicate NoRepeats(r: seq<string>) {
    forall i, j :: 0 <= i < j < |r| ==> r[i] != r[j]
  }

  /** `r` lists values of `xs` in the order of their first occurrence in `xs`. */
  predicate FirstOccurrenceOrdered(xs: seq<string>, r: seq<string>) {
    (forall k :: 0 <= k < |r| ==> r[k] in xs)
    && forall i, j :: 0 <= i < j < |r| && r[i] in xs && r[j] in xs ==> FirstIndex(xs, r[i]) < FirstIndex(xs, r[j])
  }

  /** No value of the option list repeats. */
  lemma {:induction false} DistinctHasNoRepeats(xs: seq<string>, seen: set<string>)
    ensures NoRepeats(Distinct(xs, seen))
  {
    if xs != [] {
      if xs[0] in seen {
        DistinctHasNoRepeats(xs[1..], seen);
        assert Distinct(xs, seen) == Distinct(xs[1..], seen);
      } else {
        var rest := Distinct(xs[1..], seen + {xs[0]});
        DistinctHasNoRepeats(xs[1..], seen + {xs[0]});
        assert xs[0] !in rest;
        var r := Distinct(xs, seen);
        assert r == [xs[0]] + rest;
        forall i, j | 0 <= i < j < |r| ensures r[i] != r[j] {
          assert r[j] == rest[j - 1] && r[j] in rest;
          if i > 0 { assert r[i] == rest[i - 1]; }
        }
      }
    }
  }

  lemma FirstIndexInTail(xs: seq<string>, y: string)
    requires xs != [] && y in xs[1..] && y != xs[0]
    ensures y in xs && FirstIndex(xs, y) == 1 + FirstIndex(xs[1..], y)
  {
    assert xs == [xs[0]] + xs[1..];
  }

  /** Values from the tail other than the head keep their relative order in the whole list. */
  lemma OrderedInTail(xs: seq<string>, rt: seq<string>)
    requires xs != [] && FirstOccurrenceOrdered(xs[1..], rt)
    requires forall k :: 0 <= k < |rt| ==> rt[k] != xs[0]
    ensures FirstOccurrenceOrdered(xs, rt)
  {
    forall k | 0 <= k < |rt| ensures rt[k] in xs && FirstIndex(xs, rt[k]) == 1 + FirstIndex(xs[1..], rt[k]) {
      FirstIndexInTail(xs, rt[k]);
    }
  }

  /** Putting the head first keeps a tail-ordered list ordered. */
  lemma OrderedWithHead(xs: seq<string>, rt: seq<string>)
    requires xs != [] && FirstOccurrenceOrdered(xs, rt)
    requires forall k :: 0 <= k < |rt| ==> rt[k] != xs[0]
    ensures FirstOccurrenceOrdered(xs, [xs[0]] + rt)
  {
    var r := [xs[0]] + rt;
    forall i, j | 0 <= i < j < |r| ensures FirstIndex(xs, r[i]) < FirstIndex(xs, r[j]) {
      assert r[j] == rt[j - 1];
      if i > 0 {
        assert r[i] == rt[i - 1];
      } else {
        assert FirstIndex(xs, r[i]) == 0;
        assert FirstIndex(xs, r[j]) != 0;
      }
    }
  }

  /** The option list follows the order in which the values first occur. */
  lemma {:induction false} DistinctKeepsFirstOccurrenceOrder(xs: seq<string>, seen: set<string>)
    ensures FirstOccurrenceOrdered(xs, Distinct(xs, seen))
  {
    if xs != [] {
      var seen' := if xs[0] in seen then seen else seen + {xs[0]};
      var rt := Distinct(xs[1..], seen');
      DistinctKeepsFirstOccurrenceOrder(xs[1..], seen');
      assert forall k :: 0 <= k < |rt| ==> rt[k] in rt && rt[k] != xs[0];
      OrderedInTail(xs, rt);
      if xs[0] !in seen {
        OrderedWithHead(xs, rt);
      }
    }
  }

  function CountriesOf(ws: seq<Winner>): (cs: seq<string>)
    ensures |cs| == |ws| && forall i :: 0 <= i < |ws| ==> cs[i] == ws[i].country
  {
    seq(|ws|, i requires 0 <= i < |ws| => ws[i].country)
  }

  function DestinationsOf(ws: seq<Winner>): (ds: seq<string>)
    ensures |ds| == |ws| && forall i :: 0 <= i < |ws| ==> ds[i] == ws[i].destination
  {
    seq(|ws|, i requires 0 <= i < |ws| => ws[i].destination)
  }

  /** `['all', ...new Set(winners.map(w => w.country))]`. */
  function CountryOptions(ws: seq<Winner>): (r: seq<string>)
    ensures |r| >= 1 && r[0] == All
    ensures forall c :: c in r[1..] <==> exists w :: w in ws && w.country == c
  {
    var r := [All] + Distinct(CountriesOf(ws), {});
    assert r[1..] == Distinct(CountriesOf(ws), {});
    forall c | c in r[1..] ensures exists w :: w in ws && w.country == c {
      var k := FirstIndex(CountriesOf(ws), c);
      assert ws[k] in ws;
    }
    r
  }

  /** `['all', ...new Set(winners.map(w => w.destination))]`. */
  function DestinationOptions(ws: seq<Winner>): (r: seq<string>)
    ensures |r| >= 1 && r[0] == All
    ensures forall d :: d in r[1..] <==> exists w :: w in ws && w.destination == d
  {
    var r := [All] + Distinct(DestinationsOf(ws), {});
    assert r[1..] == Distinct(DestinationsOf(ws), {});
    forall d | d in r[1..] ensures exists w :: w in ws && w.destination == d {
      var k := FirstIndex(DestinationsOf(ws), d);
      assert ws[k] in ws;
    }
    r
  }

  /** After `'all'`, each country appears once, in the order the list first mentions it. */
  lemma CountryOptionsDistinctInOrder(ws: seq<Winner>)
    ensures NoRepeats(CountryOptions(ws)[1..])
    ensures FirstOccurrenceOrdered(CountriesOf(ws), CountryOptions(ws)[1..])
  {
    assert CountryOptions(ws)[1..] == Distinct(CountriesOf(ws), {});
    DistinctHasNoRepeats(CountriesOf(ws), {});
    DistinctKeepsFirstOccurrenceOrder(CountriesOf(ws), {});
  }

  /** After `'all'`, each destination appears once, in the order the list first mentions it. */
  lemma DestinationOptionsDistinctInOrder(ws: seq<Winner>)
    ensures NoRepeats(DestinationOptions(ws)[1..])
    ensures FirstOccurrenceOrdered(DestinationsOf(ws), DestinationOptions(ws)[1..])
  {
    assert DestinationOptions(ws)[1..] == Distinct(DestinationsOf(ws), {});
    DistinctHasNoRepeats(DestinationsOf(ws), {});
    DistinctKeepsFirstOccurrenceOrder(DestinationsOf(ws), {});
  }

  // ----- formatMonth -----

  /** The year and zero-based month a `Date` is built for. */
  datatype YearMonth = YearMonth(year: int, monthIndex: int)

  /** `new Date(y, m)`'s year rule: a year from 0 to 99 means 1900 to 1999. */
  function FullYear(y: int): int {
    if 0 <= y <= 99 then 1900 + y else y
  }

  /** The month `new Date(y, m)` denotes: a month index outside 0..11 carries into the year. */
  function DateFromParts(y: int, m: int): (r: YearMonth)
    ensures 0 <= r.monthIndex < 12
    ensures r.year * 12 + r.monthIndex == FullYear(y) * 12 + m
  {
    YearMonth(FullYear(y) + m / 12, m % 12)
  }

  /**
   * `formatMonth` up to the locale formatting: split at `'-'`, `parseInt` both
   * parts and build the date from the year and month − 1; `None` is the
   * invalid date a missing or non-numeric part gives.
   */
  function FormatMonth(dateString: string): (r: Option<YearMonth>)
    ensures r.Some? ==> 0 <= r.value.monthIndex < 12
  {
    var parts := Split(dateString, '-');
    var year := ParseInt(parts[0]);
    var month := if |parts| > 1 then ParseInt(parts[1]) else None;
    if year.None? || month.None? then None
    else Some(DateFromParts(year.value, month.value - 1))
  }

  /** The two-digit month of a `"YYYY-MM"` string. */
  function TwoDigits(m: nat): (s: string)
    ensures AllDigits(s)
  {
    if m < 10 then "0" + NatToString(m) else NatToString(m)
  }

  lemma NoSeparatorInDigits(s: string)
    requires AllDigits(s)
    ensures '-' !in s
  {
  }

  lemma SplitYearMonth(ys: string, ms: string)
    requires AllDigits(ys) && AllDigits(ms)
    ensures Split(ys + "-" + ms, '-') == [ys, ms]
  {
    NoSeparatorInDigits(ys);
    NoSeparatorInDigits(ms);
    SplitAtSeparator(ys, '-', ms);
    SplitWithoutSeparator(ms, '-');
  }

  lemma ParseTwoDigits(m: nat)
    ensures ParseInt(TwoDigits(m)) == Some(m)
  {
    if m < 10 {
      ParseIntLeadingZero(m, "");
      assert "0" + NatToString(m) + "" == TwoDigits(m);
    } else {
      ParseIntReadsNatToString(m, "");
      assert NatToString(m) + "" == TwoDigits(m);
    }
  }

  /**
   * For a year written as `y` after `k` padding zeros and a month 01..12, the
   * date is year `y` read by the Date constructor's year rule (0..99 means
   * 1900..1999), so `"0050-01"` is January 1950, and month index month − 1.
   */
  lemma FormatMonthOfYearMonth(k: nat, y: nat, m: nat)
    requires 1 <= m <= 12
    ensures FormatMonth(Zeros(k) + NatToString(y) + "-" + TwoDigits(m)) == Some(YearMonth(FullYear(y), m - 1))
  {
    var ys, ms := Zeros(k) + NatToString(y), TwoDigits(m);
    SplitYearMonth(ys, ms);
    ParseIntLeadingZeros(k, y, "");
    assert ys + "" == ys;
    ParseTwoDigits(m);
    DateFromPartsIdentity(y, m - 1);
    var parts := Split(ys + "-" + ms, '-');
    assert parts[0] == ys && parts[1] == ms;
  }

  /** A month index already in 0..11 is kept, and only the year rule applies. */
  lemma DateFromPartsIdentity(y: int, m: int)
    requires 0 <= m < 12
    ensures DateFromParts(y, m) == YearMonth(FullYear(y), m)
  {
  }

  /** A date string without a month part gives the invalid date. */
  lemma FormatMonthWithoutMonth(s: string)
    requires '-' !in s
    ensures FormatMonth(s) == None
  {
    SplitWithoutSeparator(s, '-');
  }

  // ----- Page state -----

  /** The list the simulated fetch delivers. */
  const MockWinners: seq<Winner> := [
    Winner(1, "Aminata Diallo", "Senegal", "United States", "2023-07",
      "https://images.unsplash.com/photo-1531123897727-8f129e1688ce?q=80&w=2574&auto=format&fit=crop"),
    Winner(2, "Emmanuel Okafor", "Nigeria", "United Kingdom", "2023-06",
      "https://images.unsplash.com/photo-1507003211169-0a1dd7228f2d?q=80&w=2574&auto=format&fit=crop"),
    Winner(3, "Sarah Mensah", "Ghana", "Germany", "2023-05",
      "https://images.unsplash.com/photo-1499952127939-9bbf5af6c51c?q=80&w=2576&auto=format&fit=crop"),
    Winner(4, "Kofi Adu", "Ghana", "United States", "2023-04",
      "https://images.unsplash.com/photo-1500648767791-00dcc994a43e?q=80&w=2574&auto=format&fit=crop"),
    Winner(5, "Fatou Sow", "Senegal", "Germany", "2023-03",
      "https://images.unsplash.com/photo-1494790108377-be9c29b29330?q=80&w=2574&auto=format&fit=crop"),
    Winner(6, "Jean Biyogo", "Cameroon", "United Kingdom", "2023-02",
      "https://images.unsplash.com/photo-1504257432389-52343af06ae3?q=80&w=2574&auto=format&fit=crop"),
    Winner(7, "Ama Darko", "Ghana", "United States", "2023-01",
      "https://images.unsplash.com/photo-1573496359142-b8d87734a5a2?q=80&w=2576&auto=format&fit=crop"),
    Winner(8, "Omar Diop", "Senegal", "Germany", "2022-12",
      "https://images.unsplash.com/photo-1506277886164-e25aa3f4ef7f?q=80&w=2575&auto=format&fit=crop"),
    Winner(9, "Chinwe Okoro", "Nigeria", "United Kingdom", "2022-11",
      "https://images.unsplash.com/photo-1519011985187-444d62641929?q=80&w=2564&auto=format&fit=crop")
  ]

  /**
   * The page's state. The filter effect re-runs whenever the list or a filter
   * changes, so each method below ends by running it, and the shown list is
   * always the selection of the current list under the current filters.
   */
  class WinnersPage {
    var winners: seq<Winner>
    var filteredWinners: seq<Winner>
    var countryFilter: string
    var destinationFilter: string
    var isLoading: bool

    ghost predicate Valid()
      reads this
    {
      filteredWinners == Selected(winners, countryFilter, destinationFilter)
    }

    constructor ()
      ensures Valid()
      ensures winners == [] && filteredWinners == [] && isLoading
      ensures countryFilter == All && destinationFilter == All
    {
      winners := [];
      filteredWinners := [];
      countryFilter := All;
      destinationFilter := All;
      isLoading := true;
    }

    /** The filter effect: recompute the shown list from the list and the two filters. */
    method RunFilterEffect()
      modifies this`filteredWinners
      ensures Valid()
    {
      filteredWinners := FilterWinners(winners, countryFilter, destinationFilter);
    }

    /** The simulated fetch completing: the list and the shown list become the mock list, then the effect runs. */
    method OnWinnersFetched()
      modifies this
      ensures Valid() && winners == MockWinners && !isLoading
      ensures countryFilter == old(countryFilter) && destinationFilter == old(destinationFilter)
    {
      winners := MockWinners;
      filteredWinners := MockWinners;
      isLoading := false;
      RunFilterEffect();
    }

    /** Choosing a country option. */
    method SetCountryFilter(c: string)
      modifies this
      ensures Valid() && countryFilter == c
      ensures winners == old(winners) && destinationFilter == old(destinationFilter) && isLoading == old(isLoading)
    {
      countryFilter := c;
      RunFilterEffect();
    }

    /** Choosing a destination option. */
    method SetDestinationFilter(d: string)
      modifies this
      ensures Valid() && destinationFilter == d
      ensures winners == old(winners) && countryFilter == old(countryFilter) && isLoading == old(isLoading)
    {
      destinationFilter := d;
      RunFilterEffect();
    }

    /** The options the country select lists. */
    function Countries(): (r: seq<string>)
      reads this
      ensures |r| >= 1 && r[0] == All
      ensures forall c :: c in r[1..] <==> exists w :: w in winners && w.country == c
      ensures NoRepeats(r[1..]) && FirstOccurrenceOrdered(CountriesOf(winners), r[1..])
    {
      CountryOptionsDistinctInOrder(winners);
      CountryOptions(winners)
    }

    /** The options the destination select lists. */
    function Destinations(): (r: seq<string>)
      reads this
      ensures |r| >= 1 && r[0] == All
      ensures forall d :: d in r[1..] <==> exists w :: w in winners && w.destination == d
      ensures NoRepeats(r[1..]) && FirstOccurrenceOrdered(DestinationsOf(winners), r[1..])
    {
      DestinationOptionsDistinctInOrder(winners);
      DestinationOptions(winners)
    }
  }
}
