/** The spending chart's data handling: the incoming points are sanitised
    (missing names and colours defaulted, values that are not numbers zeroed,
    points without a positive value dropped), then summarised by their total,
    average and highest value. */
module SpendingChart {
  import opened Seqs
  import opened Optional

  /** A point's `value` as it arrives: a number, NaN, or not a number at
      all. */
  datatype RawValue = Num(n: real) | NaNValue | NotNumber

  /** A data point as it arrives; `None` and `Some("")` are the falsy
      names and colours. */
  datatype RawItem = RawItem(name: Option<string>, value: RawValue, color: Option<string>)

  datatype Item = Item(name: string, value: real, color: string)

  const UnknownName: string := "Unknown"

  const DefaultColor: string := "#FF6B35"

  /** `item.name || 'Unknown'`, the number check, `item.color || '#FF6B35'`. */
  function Sanitize(item: RawItem): Item {
    Item(
      if item.name.None? || item.name.value == "" then UnknownName else item.name.value,
      if item.value.Num? then item.value.n else 0.0,
      if item.color.None? || item.color.value == "" then DefaultColor else item.color.value)
  }

  predicate IsPositive(item: Item) {
    item.value > 0.0
  }

  /** `validData`: `data` is `None` when it is missing or not an array. */
  function ValidData(data: Option<seq<RawItem>>): seq<Item> {
    if data.None? || |data.value| == 0 then []
    else Filter(Sanitized(data.value), IsPositive)
  }

  /** The sanitised points of the input, in order. */
  function Sanitized(items: seq<RawItem>): seq<Item> {
    seq(|items|, i requires 0 <= i < |items| => Sanitize(items[i]))
  }

  /** Each positive point is drawn as many times as it occurs among the
      sanitised points. */
  lemma ValidDataMultiplicity(items: seq<RawItem>)
    ensures forall x: Item :: x.value > 0.0 ==> multiset(ValidData(Some(items)))[x] == multiset(Sanitized(items))[x]
  {
    forall x: Item | x.value > 0.0 ensures multiset(ValidData(Some(items)))[x] == multiset(Sanitized(items))[x] {
      FilterMultiplicity(Sanitized(items), IsPositive, x);
    }
  }

  /** Missing or empty data gives nothing to draw. */
  lemma ValidDataEmpty(data: Option<seq<RawItem>>)
    ensures data.None? || data.value == [] ==> ValidData(data) == []
    ensures data.Some? && (forall i :: 0 <= i < |data.value| ==> !data.value[i].value.Num? || data.value[i].value.n <= 0.0)
            ==> ValidData(data) == []
  {
    if data.Some? && |data.value| > 0 {
      var items := Sanitized(data.value);
      FilterEmpty(items, IsPositive);
    }
  }

  /** Every point kept has a positive value, a name and a colour; the points
      kept are the sanitised input in its order, and each input point with a
      positive number is kept (how often: ValidDataMultiplicity). */
  lemma ValidDataMembers(data: Option<seq<RawItem>>)
    ensures var r := ValidData(data);
            && (forall k :: 0 <= k < |r| ==> r[k].value > 0.0 && r[k].name != "" && r[k].color != "")
            && (data.Some? ==>
                  var items := Sanitized(data.value);
                  && IsSubseq(r, items)
                  && (forall i :: 0 <= i < |data.value| && data.value[i].value.Num? && data.value[i].value.n > 0.0 ==>
                        Sanitize(data.value[i]) in r))
  {
    if data.Some? && |data.value| > 0 {
      var items := Sanitized(data.value);
      FilterMembers(items, IsPositive);
      FilterIsSubseq(items, IsPositive);
      forall k | 0 <= k < |ValidData(data)| ensures ValidData(data)[k].name != "" && ValidData(data)[k].color != "" {
        var x := ValidData(data)[k];
        assert x in items;
      }
      forall i | 0 <= i < |data.value| && data.value[i].value.Num? && data.value[i].value.n > 0.0
        ensures Sanitize(data.value[i]) in ValidData(data)
      {
        assert items[i] == Sanitize(data.value[i]);
      }
    }
  }

  function ValueOf(item: Item): real { item.value }

  /** `total`. */
  function Total(items: seq<Item>): real {
    SumBy(items, ValueOf)
  }

  /** `average`: the total over the number of points, or over 1 when there
      are none. */
  function Average(items: seq<Item>): real {
    Total(items) / (if |items| == 0 then 1 else |items|) as real
  }

  /** `Math.max(...values, 0)`. */
  function Highest(items: seq<Item>): (h: real)
    ensures h >= 0.0
    ensures forall k :: 0 <= k < |items| ==> items[k].value <= h
  {
    if items == [] then 0.0
    else
      var h := Highest(items[..|items| - 1]);
      var v := items[|items| - 1].value;
      if v > h then v else h
  }

  /** The highest value is one of the values when there are any. */
  lemma {:induction false} HighestIsAValue(items: seq<Item>)
    requires forall k :: 0 <= k < |items| ==> items[k].value >= 0.0
    ensures items != [] ==> exists k :: 0 <= k < |items| && items[k].value == Highest(items)
  {
    if items != [] {
      var init := items[..|items| - 1];
      var h, v := Highest(init), items[|items| - 1].value;
      assert Highest(items) == if v > h then v else h;
      if v >= h {
        assert items[|items| - 1].value == Highest(items);
      } else {
        assert init != [];
        HighestIsAValue(init);
        var k :| 0 <= k < |init| && init[k].value == h;
        assert items[k].value == Highest(items);
      }
    }
  }

  /** The total is at most the number of points times the highest value. */
  lemma {:induction false} TotalAtMostCountTimesHighest(items: seq<Item>)
    ensures Total(items) <= |items| as real * Highest(items)
  {
    if items != [] {
      var init := items[..|items| - 1];
      TotalAtMostCountTimesHighest(init);
      var n := |init| as real;
      assert Highest(init) <= Highest(items);
      assert n * Highest(init) <= n * Highest(items);
    }
  }

  /** The average never exceeds the highest value. */
  lemma AverageAtMostHighest(items: seq<Item>)
    ensures Average(items) <= Highest(items)
  {
    TotalAtMostCountTimesHighest(items);
    if items != [] {
      var n := |items| as real;
      var a := Total(items) / n;
      assert a * n == Total(items);
      if a > Highest(items) {
        assert (a - Highest(items)) * n > 0.0;
      }
    }
  }

  /** For points with positive values, the average is positive exactly when
      there is something to draw. */
  lemma AveragePositive(items: seq<Item>)
    requires forall k :: 0 <= k < |items| ==> items[k].value > 0.0
    ensures Average(items) > 0.0 <==> items != []
  {
    if items != [] {
      TotalPositive(items);
    }
  }

  lemma {:induction false} TotalPositive(items: seq<Item>)
    requires items != [] && forall k :: 0 <= k < |items| ==> items[k].value > 0.0
    ensures Total(items) > 0.0
  {
    var init := items[..|items| - 1];
    if init != [] {
      TotalPositive(init);
    }
    assert Total(items) == Total(init) + items[|items| - 1].value;
  }

  /** `getSubtitle`. */
  function GetSubtitle(chartType: string): string {
    if chartType == "bar" then "Comparison by Category"
    else if chartType == "line" then "Spending Trend"
    else "Distribution Breakdown"
  }

  /** The three subtitles differ, and every type other than bar and line
      (pie included) gets the breakdown subtitle. */
  lemma GetSubtitleCases(chartType: string)
    ensures GetSubtitle("bar") != GetSubtitle("line") && GetSubtitle("line") != GetSubtitle("pie")
            && GetSubtitle("bar") != GetSubtitle("pie")
    ensures chartType != "bar" && chartType != "line" ==> GetSubtitle(chartType) == "Distribution Breakdown"
  {
  }
}
