/**
 * The pure data shaping of the dashboard page (src/app/page.tsx): the video CQS
 * ranking, the donut-chart distribution with its colour rule, and the trend lookup
 * in the history map keyed by `String(id)`.
 */
module Projectors {
  import opened Wrappers
  import opened StableSort

  /** A row of `videoCqsData`. `timestamp` is the already-parsed `getTime()` value. */
  datatype Video = Video(id: int, title: string, cqs: real, timestamp: int)

  /** One point of a video's CQS history. */
  datatype HistoryPoint = HistoryPoint(t: string, cqs: real)

  /** A named magnitude of a donut chart (`ChartData`). */
  datatype Category = Category(name: string, value: real)

  /** A CSS colour string. */
  type Color = string

  /** A donut slice: the category and the `fill` of its `Cell`, undefined for an empty palette. */
  datatype Slice = Slice(category: Category, fill: Option<Color>)

  /** How many rows the ranking card shows. */
  const RankingSize: nat := 5

  /** The palette of the product-discussion chart. */
  const Colors: seq<Color> := ["#2563eb", "#f97316", "#10b981", "#8b5cf6", "#ec4899"]

  function Min(a: int, b: int): int { if a <= b then a else b }

  // ---------------------------------------------------------------------------
  // Ranking projector
  // ---------------------------------------------------------------------------

  function CqsKey(v: Video): real { v.cqs }

  function TimestampKey(v: Video): real { v.timestamp as real }

  /** The comparator the ranking's sort uses: by timestamp for "timestamp", by CQS for any other value. */
  function RankKey(sortOrder: string): Video -> real
  {
    if sortOrder == "timestamp" then TimestampKey else CqsKey
  }

  /**
   * `sortedData` of `VideoCQSRanking`: a copy of the videos sorted descending by the
   * selected key, cut to the first five. A sequence is a value, so the caller's list is
   * never changed.
   */
  function Ranking(data: seq<Video>, sortOrder: string): (r: seq<Video>)
    ensures |r| == Min(RankingSize, |data|)
    ensures multiset(r) <= multiset(data)
    ensures sortOrder != "timestamp" ==> forall i, j :: 0 <= i < j < |r| ==> r[i].cqs >= r[j].cqs
    ensures sortOrder == "timestamp" ==> forall i, j :: 0 <= i < j < |r| ==> r[i].timestamp >= r[j].timestamp
  {
    var sorted := SortDesc(data, RankKey(sortOrder));
    var r := sorted[..Min(RankingSize, |sorted|)];
    SortedPrefix(sorted, RankKey(sortOrder), |r|);
    RankKeyOrder(r, sortOrder);
    r
  }

  /** Descending by `RankKey(sortOrder)` is descending by CQS, or by timestamp for "timestamp". */
  lemma RankKeyOrder(r: seq<Video>, sortOrder: string)
    requires SortedDesc(r, RankKey(sortOrder))
    ensures sortOrder != "timestamp" ==> forall i, j :: 0 <= i < j < |r| ==> r[i].cqs >= r[j].cqs
    ensures sortOrder == "timestamp" ==> forall i, j :: 0 <= i < j < |r| ==> r[i].timestamp >= r[j].timestamp
  {
    forall i, j | 0 <= i < j < |r|
      ensures RankKey(sortOrder)(r[i]) >= RankKey(sortOrder)(r[j])
    {
    }
    if sortOrder == "timestamp" {
      forall i, j | 0 <= i < j < |r|
        ensures r[i].timestamp >= r[j].timestamp
      {
        assert TimestampKey(r[i]) >= TimestampKey(r[j]);
      }
    }
  }

  /**
   * The ranking is a true top five: every video left out has a key no greater than the
   * last one shown, and the rows shown are the first rows of the full sorted list.
   */
  lemma RankingIsTopFive(data: seq<Video>, sortOrder: string)
    ensures var r := Ranking(data, sortOrder);
            r == SortDesc(data, RankKey(sortOrder))[..|r|] &&
            (r != [] ==> forall v :: v in multiset(data) - multiset(r) ==>
                           RankKey(sortOrder)(v) <= RankKey(sortOrder)(r[|r| - 1]))
  {
    var key := RankKey(sortOrder);
    var sorted := SortDesc(data, key);
    var r := Ranking(data, sortOrder);
    var rest := sorted[|r|..];
    assert sorted == r + rest;
    assert multiset(data) - multiset(r) == multiset(rest);
    if r != [] {
      SortedSuffixBelow(sorted, key, |r|);
    }
  }

  /** Ties keep their input order: for every key, the rows shown are a prefix of the input's rows with that key. */
  lemma RankingStable(data: seq<Video>, sortOrder: string, k: real)
    ensures var r := Ranking(data, sortOrder);
            var f := KeyFilter(data, RankKey(sortOrder), k);
            var g := KeyFilter(r, RankKey(sortOrder), k);
            |g| <= |f| && g == f[..|g|]
  {
    var key := RankKey(sortOrder);
    var sorted := SortDesc(data, key);
    var r := Ranking(data, sortOrder);
    assert sorted == r + sorted[|r|..];
    KeyFilterAppend(r, sorted[|r|..], key, k);
    SortDescStable(data, key, k);
  }

  /** Videos already listed by descending CQS are shown as listed, the first five of them. */
  lemma RankingOfRankedInput(data: seq<Video>)
    requires forall i, j :: 0 <= i < j < |data| ==> data[i].cqs >= data[j].cqs
    ensures Ranking(data, "cqs") == data[..Min(RankingSize, |data|)]
  {
    assert SortedDesc(data, CqsKey);
    SortDescOfSorted(data, CqsKey);
  }

  // ---------------------------------------------------------------------------
  // Distribution projector
  // ---------------------------------------------------------------------------

  function ValueKey(c: Category): real { c.value }

  /** `colors[index % colors.length]`; JavaScript yields `undefined` when the palette is empty. */
  function ColorAt(colors: seq<Color>, index: nat): (c: Option<Color>)
    ensures c.Some? <==> colors != []
    ensures c.Some? ==> c.value in colors
    ensures index < |colors| ==> c == Some(colors[index])
  {
    if colors == [] then None else Some(colors[index % |colors|])
  }

  function Categories(slices: seq<Slice>): (cs: seq<Category>)
    ensures |cs| == |slices|
    ensures forall i :: 0 <= i < |slices| ==> cs[i] == slices[i].category
  {
    if slices == [] then [] else [slices[0].category] + Categories(slices[1..])
  }

  /**
   * `DonutChartCard`: the categories sorted descending by value (a stable sort of a copy),
   * slice `i` filled with `colors[i % colors.length]`.
   */
  function DonutSlices(data: seq<Category>, colors: seq<Color>): (r: seq<Slice>)
    ensures |r| == |data|
    ensures data == [] ==> r == []
    ensures multiset(Categories(r)) == multiset(data)
    ensures forall i, j :: 0 <= i < j < |r| ==> r[i].category.value >= r[j].category.value
    ensures SameKeyFilters(Categories(r), data, ValueKey)
    ensures forall i :: 0 <= i < |r| ==> r[i].fill == ColorAt(colors, i)
  {
    var sorted := SortDesc(data, ValueKey);
    var r := seq(|sorted|, i requires 0 <= i < |sorted| => Slice(sorted[i], ColorAt(colors, i)));
    assert Categories(r) == sorted;
    forall k
      ensures KeyFilter(sorted, ValueKey, k) == KeyFilter(data, ValueKey, k)
    {
      SortDescStable(data, ValueKey, k);
    }
    r
  }

  /** Categories already listed by descending value keep their order on the chart. */
  lemma DonutOfRankedInput(data: seq<Category>, colors: seq<Color>)
    requires forall i, j :: 0 <= i < j < |data| ==> data[i].value >= data[j].value
    ensures Categories(DonutSlices(data, colors)) == data
  {
    assert SortedDesc(data, ValueKey);
    SortDescOfSorted(data, ValueKey);
  }

  function Reversed<T>(s: seq<T>): (r: seq<T>)
    ensures |r| == |s|
    ensures forall i :: 0 <= i < |s| ==> r[i] == s[|s| - 1 - i]
  {
    if s == [] then [] else Reversed(s[1..]) + [s[0]]
  }

  /** The palette of the video-type chart, `COLORS.slice().reverse()`; `Colors` itself is untouched. */
  function VideoTypeColors(): seq<Color>
  {
    Reversed(Colors)
  }

  /** Slice `i` of the product-discussion chart is filled with `COLORS[i % 5]`. */
  lemma ProductSliceColor(data: seq<Category>, i: nat)
    requires i < |data|
    ensures DonutSlices(data, Colors)[i].fill == Some(Colors[i % 5])
  {
  }

  /** Slice `i` of the video-type chart is filled with `COLORS[4 - i % 5]`. */
  lemma VideoTypeSliceColor(data: seq<Category>, i: nat)
    requires i < |data|
    ensures DonutSlices(data, VideoTypeColors())[i].fill == Some(Colors[4 - i % 5])
  {
  }

  // ---------------------------------------------------------------------------
  // Trend lookup: `videoCqsHistory[String(id)] || []`
  // ---------------------------------------------------------------------------

  predicate IsDigit(c: char) { '0' as int <= c as int <= '9' as int }

  function DigitChar(d: int): (c: char)
    requires 0 <= d <= 9
    ensures IsDigit(c) && (c as int) - ('0' as int) == d
  {
    (('0' as int) + d) as char
  }

  /** The decimal digits of `n`, most significant first, without leading zeros. */
  function NatToDecimal(n: nat): (s: string)
    ensures |s| >= 1
    ensures forall i :: 0 <= i < |s| ==> IsDigit(s[i])
    ensures |s| > 1 ==> s[0] != '0'
  {
    if n < 10 then [DigitChar(n)] else NatToDecimal(n / 10) + [DigitChar(n % 10)]
  }

  /** `String(id)` for an integer id. */
  function IdKey(id: int): (key: string)
    ensures |key| >= 1
    ensures key[0] == '-' <==> id < 0
    ensures forall i :: (if id < 0 then 1 else 0) <= i < |key| ==> IsDigit(key[i])
  {
    if id < 0 then "-" + NatToDecimal(-id) else NatToDecimal(id)
  }

  /** The value of a string of decimal digits. */
  function DecimalValue(s: string): nat
    requires forall i :: 0 <= i < |s| ==> IsDigit(s[i])
  {
    if s == [] then 0
    else
      assert IsDigit(s[|s| - 1]);
      DecimalValue(s[..|s| - 1]) * 10 + ((s[|s| - 1] as int) - ('0' as int))
  }

  /** `Number(key)` for a key of the form `String(id)`; None for anything else. */
  function ParseIdKey(key: string): Option<int>
  {
    if key != [] && key[0] == '-' && |key| > 1 && forall i :: 1 <= i < |key| ==> IsDigit(key[i]) then
      var magnitude: int := DecimalValue(key[1..]);
      Some(-magnitude)
    else if key != [] && forall i :: 0 <= i < |key| ==> IsDigit(key[i]) then
      Some(DecimalValue(key))
    else None
  }

  lemma {:induction false} DecimalRoundTrip(n: nat)
    ensures DecimalValue(NatToDecimal(n)) == n
  {
    if n >= 10 {
      var s := NatToDecimal(n);
      assert s[..|s| - 1] == NatToDecimal(n / 10);
      DecimalRoundTrip(n / 10);
    }
  }

  /** Reading the history key back gives the id: `Number(String(id)) == id`. */
  lemma IdKeyRoundTrip(id: int)
    ensures ParseIdKey(IdKey(id)) == Some(id)
  {
    var key := IdKey(id);
    if id < 0 {
      assert key[1..] == NatToDecimal(-id);
      DecimalRoundTrip(-id);
    } else {
      DecimalRoundTrip(id);
    }
  }

  /** Distinct ids have distinct history keys, so no video reads another's series. */
  lemma IdKeyInjective(a: int, b: int)
    ensures IdKey(a) == IdKey(b) <==> a == b
  {
    IdKeyRoundTrip(a);
    IdKeyRoundTrip(b);
  }

  /** `videoCqsHistory[String(id)] || []`: an array is truthy even when empty, so a present key gives its series as stored. */
  function HistoryFor(history: map<string, seq<HistoryPoint>>, id: int): (r: seq<HistoryPoint>)
    ensures IdKey(id) in history ==> r == history[IdKey(id)]
    ensures IdKey(id) !in history ==> r == []
  {
    if IdKey(id) in history then history[IdKey(id)] else []
  }

  /** A video whose id has a history entry gets that series; one without gets none. */
  lemma HistoryForVideoOne(points: seq<HistoryPoint>)
    ensures HistoryFor(map["1" := points], 1) == points
    ensures HistoryFor(map["1" := points], 2) == []
  {
  }
}
