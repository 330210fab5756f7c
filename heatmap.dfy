/**
 * Heatmap statistics: the count of data points by type, and the sentence
 * spoken when one of the type buttons is pressed.
 *
 * `getTypeStats` folds the data into a dictionary that it updates in place;
 * here that dictionary is a `map` the method `GetTypeStats` reassigns in a
 * loop, proved against the specification function `Tally`.
 */
module Heatmap {
  import opened Text

  datatype Location = Location(latitude: real, longitude: real)

  /** One heatmap data point; `kind` is the point's `type`. */
  datatype HeatPoint = HeatPoint(location: Location, frequency: real, kind: string)

  function KindsOf(data: seq<HeatPoint>): (kinds: seq<string>)
    ensures |kinds| == |data|
    ensures forall i :: 0 <= i < |data| ==> kinds[i] == data[i].kind
  {
    seq(|data|, i requires 0 <= i < |data| => data[i].kind)
  }

  /** `stats.x || 0`: the recorded count, or 0 for a type with no entry. */
  function StatOrZero(stats: map<string, nat>, kind: string): (n: nat)
    ensures kind in stats ==> n == stats[kind]
    ensures kind !in stats ==> n == 0
  {
    if kind in stats then stats[kind] else 0
  }

  /** One step of the reduction: `acc[type] = (acc[type] || 0) + 1`. */
  function Bump(acc: map<string, nat>, kind: string): map<string, nat>
  {
    acc[kind := StatOrZero(acc, kind) + 1]
  }

  /** A step adds the type if it is new, counts it once more, and leaves every other type alone. */
  lemma BumpCountsOneMore(acc: map<string, nat>, kind: string)
    ensures Bump(acc, kind).Keys == acc.Keys + {kind}
    ensures kind in acc ==> Bump(acc, kind)[kind] == acc[kind] + 1
    ensures kind !in acc ==> Bump(acc, kind)[kind] == 1
    ensures forall other :: other in acc && other != kind ==> Bump(acc, kind)[other] == acc[other]
  {
  }

  /**
   * The reduction over the data, left to right from the empty dictionary;
   * each point adds at most one type, so there are no more types than points.
   */
  function Tally(data: seq<HeatPoint>): (r: map<string, nat>)
    ensures |r| <= |data|
  {
    if |data| == 0 then map[]
    else
      var init := Tally(data[..|data| - 1]);
      var kind := data[|data| - 1].kind;
      assert Bump(init, kind).Keys == init.Keys + {kind};
      Bump(init, kind)
  }

  /**
   * The tally maps each type to exactly its number of occurrences, has a key
   * only for the types that occur, and so shows an absent type as 0.
   */
  lemma {:induction false} TallyCounts(data: seq<HeatPoint>)
    ensures forall kind :: kind in Tally(data) <==> kind in multiset(KindsOf(data))
    ensures forall kind :: StatOrZero(Tally(data), kind) == multiset(KindsOf(data))[kind]
  {
    if |data| > 0 {
      var init := data[..|data| - 1];
      var last := data[|data| - 1].kind;
      TallyCounts(init);
      assert KindsOf(data) == KindsOf(init) + [last];
      assert multiset(KindsOf(data)) == multiset(KindsOf(init)) + multiset{last};
    }
  }

  // ---------------------------------------------------------------------
  // The counts add up to the number of points
  // ---------------------------------------------------------------------

  ghost function SumOfCounts(m: map<string, nat>): nat
    decreases |m|
  {
    if m == map[] then 0
    else
      var k :| k in m;
      assert |m - {k}| < |m| by { assert (m - {k}).Keys == m.Keys - {k}; }
      m[k] + SumOfCounts(m - {k})
  }

  /** The sum does not depend on which key is taken out first. */
  lemma {:induction false} SumOfCountsRemove(m: map<string, nat>, k: string)
    requires k in m
    ensures SumOfCounts(m) == m[k] + SumOfCounts(m - {k})
    decreases |m|
  {
    var j :| j in m && SumOfCounts(m) == m[j] + SumOfCounts(m - {j});
    if j != k {
      assert (m - {j}).Keys == m.Keys - {j};
      assert (m - {k}).Keys == m.Keys - {k};
      SumOfCountsRemove(m - {j}, k);
      SumOfCountsRemove(m - {k}, j);
      assert m - {j} - {k} == m - {k} - {j};
    }
  }

  lemma BumpAddsOne(acc: map<string, nat>, kind: string)
    ensures SumOfCounts(Bump(acc, kind)) == SumOfCounts(acc) + 1
  {
    var b := Bump(acc, kind);
    SumOfCountsRemove(b, kind);
    if kind in acc {
      SumOfCountsRemove(acc, kind);
      assert b - {kind} == acc - {kind};
    } else {
      assert b - {kind} == acc;
    }
  }

  /** Every point is counted exactly once: the counts sum to `data.length`. */
  lemma {:induction false} TallySumsToLength(data: seq<HeatPoint>)
    ensures SumOfCounts(Tally(data)) == |data|
  {
    if |data| > 0 {
      TallySumsToLength(data[..|data| - 1]);
      BumpAddsOne(Tally(data[..|data| - 1]), data[|data| - 1].kind);
    }
  }

  /** Extending the data by one point bumps that point's type. */
  lemma TallyStep(data: seq<HeatPoint>, i: nat, stats: map<string, nat>)
    requires i < |data| && stats == Tally(data[..i])
    ensures stats[data[i].kind := StatOrZero(stats, data[i].kind) + 1] == Tally(data[..i + 1])
  {
    assert data[..i + 1][..i] == data[..i];
  }

  /** `getTypeStats`: the in-place reduction over the data points. */
  method GetTypeStats(data: seq<HeatPoint>) returns (stats: map<string, nat>)
    ensures stats == Tally(data)
    ensures forall kind :: kind in stats <==> kind in multiset(KindsOf(data))
    ensures forall kind :: kind in stats ==> stats[kind] == multiset(KindsOf(data))[kind]
  {
    stats := map[];
    var i := 0;
    while i < |data|
      invariant 0 <= i <= |data|
      invariant stats == Tally(data[..i])
    {
      var kind := data[i].kind;
      TallyStep(data, i, stats);
      stats := stats[kind := StatOrZero(stats, kind) + 1];
      i := i + 1;
    }
    assert data[..|data|] == data;
    TallyCounts(data);
  }

  // ---------------------------------------------------------------------
  // handleStatClick
  // ---------------------------------------------------------------------

  /**
   * The sentence spoken for `count` points of type `kind`: the count, which
   * reads back unchanged, then the type's own phrase; a type without a phrase
   * of its own is named at the end.
   */
  function StatDescription(kind: string, count: nat): (s: string)
    ensures LeadingNumber(s) == count
    ensures kind == "popular" ==> s == NatToString(count) + " popular navigation paths identified"
    ensures kind == "blocked" ==> s == NatToString(count) + " blocked or difficult areas reported"
    ensures kind == "safe" ==> s == NatToString(count) + " verified safe routes available"
    ensures kind != "popular" && kind != "blocked" && kind != "safe" ==>
      s == NatToString(count) + " areas of type " + kind
  {
    var n := NatToString(count);
    var phrase :=
      if kind == "popular" then " popular navigation paths identified"
      else if kind == "blocked" then " blocked or difficult areas reported"
      else if kind == "safe" then " verified safe routes available"
      else " areas of type " + kind;
    NumeralThenPhrase(count, phrase);
    n + phrase
  }

  /** The number a sentence begins with. */
  function LeadingNumber(s: string): nat
  {
    DigitsValue(s[..LeadingDigits(s)])
  }

  /** A numeral followed by a phrase starting with a space reads back as its number. */
  lemma NumeralThenPhrase(count: nat, phrase: string)
    requires |phrase| > 0 && phrase[0] == ' '
    ensures LeadingNumber(NatToString(count) + phrase) == count
  {
    var n := NatToString(count);
    LeadingDigitsOfNumeral(n, phrase);
    assert (n + phrase)[..|n|] == n;
    NatToStringRoundTrip(count);
  }

  /**
   * What a type button announces: the clicked type's own sentence, for the
   * type's number of occurrences in the data (0 when the type is absent).
   */
  function ButtonAnnouncement(data: seq<HeatPoint>, kind: string): (s: string)
    ensures s == StatDescription(kind, multiset(KindsOf(data))[kind])
    ensures LeadingNumber(s) == multiset(KindsOf(data))[kind]
  {
    TallyCounts(data);
    StatDescription(kind, StatOrZero(Tally(data), kind))
  }
}
