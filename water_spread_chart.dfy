/**
 * The per-region radar chart (src/components/WaterSpreadChart.tsx): its
 * lookup of a region's value, the rounded average in the centre, the fixed
 * tables of regions and colours, and the `selected` cell that taps set.
 */
module WaterSpreadChart {
  import opened Wrappers
  import opened SkinTypes
  import ConditionBar

  /** The condition a chart shows. */
  datatype ConditionType = Moisture | Elasticity | Pore | Pigmentation

  /** One bar's input: a region and its score. */
  datatype DataItem = DataItem(region: Region, value: int)

  /** `REGION_ORDER`: the bars clockwise from the top. */
  const RegionOrder: seq<Region> := [Forehead, RightEye, RightCheek, Lip, LeftCheek, LeftEye]

  /** `REGION_LABEL` */
  function RegionLabel(r: Region): string
  {
    match r
    case Forehead => "이마"
    case LeftEye => "왼쪽 눈가"
    case RightEye => "오른쪽 눈가"
    case LeftCheek => "왼쪽 볼"
    case RightCheek => "오른쪽 볼"
    case Lip => "입술"
  }

  /** `COLOR_MAP` */
  function MainColor(t: ConditionType): string
  {
    match t
    case Moisture => "#3498DB"
    case Elasticity => "#9B59B6"
    case Pore => "#E67E22"
    case Pigmentation => "#E74C3C"
  }

  /** `COLOR_MAP_LIGHT` */
  function LightColor(t: ConditionType): string
  {
    match t
    case Moisture => "#5DADE2"
    case Elasticity => "#BB8FCE"
    case Pore => "#F39C12"
    case Pigmentation => "#EC7063"
  }

  /** The chart draws every region exactly once. */
  lemma RegionOrderCoversEachOnce(r: Region)
    ensures |RegionOrder| == 6
    ensures multiset(RegionOrder)[r] == 1
  {
    assert multiset(RegionOrder) == multiset{Forehead, RightEye, RightCheek, Lip, LeftCheek, LeftEye};
  }

  /** Different regions carry different labels, so a label names its region. */
  lemma RegionLabelsDistinct(a: Region, b: Region)
    ensures RegionLabel(a) != []
    ensures a != b ==> RegionLabel(a) != RegionLabel(b)
  {
  }

  /** Each condition has a gradient of two different colours, and no two conditions share a main colour. */
  lemma ColorTablesTotal(t: ConditionType, u: ConditionType)
    ensures MainColor(t) != LightColor(t)
    ensures t != u ==> MainColor(t) != MainColor(u)
  {
  }

  /** `getValue(region)`: the value of the first item for the region, or 0 when there is none. */
  function GetValue(data: seq<DataItem>, r: Region): (v: int)
    ensures forall i :: (0 <= i < |data| && data[i].region == r
              && forall j :: 0 <= j < i ==> data[j].region != r) ==> v == data[i].value
    ensures (forall i :: 0 <= i < |data| ==> data[i].region != r) ==> v == 0
  {
    if data == [] then 0
    else if data[0].region == r then data[0].value
    else
      var v := GetValue(data[1..], r);
      assert forall i :: 1 <= i < |data| ==> data[i] == data[1..][i - 1];
      v
  }

  /** The reduce in the centre figure: the sum of all values. */
  function Sum(data: seq<DataItem>): int
  {
    if data == [] then 0 else data[0].value + Sum(data[1..])
  }

  /**
   * `avgValue`: `Math.round(sum / length)`, which rounds half up. On an empty
   * list the division gives NaN, modelled as None.
   */
  function AvgValue(data: seq<DataItem>): (r: Option<int>)
    ensures r.None? <==> data == []
    // r is the mean rounded half up: mean - 1/2 <= r < mean + 1/2
    ensures r.Some? ==> 2 * |data| * r.value - |data| <= 2 * Sum(data) < 2 * |data| * r.value + |data|
  {
    if data == [] then None
    else
      var n := |data|;
      var q := (2 * Sum(data) + n) / (2 * n);
      assert 2 * n * q <= 2 * Sum(data) + n < 2 * n * q + 2 * n;
      Some(q)
  }

  /** A positive multiple below its factor has a multiplier below one. */
  lemma MultiplierBelowOne(a: int, d: int)
    requires a > 0 && a * d < a
    ensures d < 1
  {
  }

  /** The bounds in AvgValue's contract leave no other choice of integer. */
  lemma AvgValueUnique(data: seq<DataItem>, m: int)
    requires data != []
    requires 2 * |data| * m - |data| <= 2 * Sum(data) < 2 * |data| * m + |data|
    ensures AvgValue(data) == Some(m)
  {
    var n := |data|;
    var q := AvgValue(data).value;
    assert 2 * n * (q - m) < 2 * n by {
      assert 2 * n * (q - m) == 2 * n * q - 2 * n * m;
    }
    MultiplierBelowOne(2 * n, q - m);
    assert 2 * n * (m - q) < 2 * n by {
      assert 2 * n * (m - q) == 2 * n * m - 2 * n * q;
    }
    MultiplierBelowOne(2 * n, m - q);
  }

  /** What separates the label from the value in the caption. */
  const CaptionSeparator: string := " · "

  /** The caption under the chart while a region is selected: "<label> · <value>점". */
  function Caption(data: seq<DataItem>, selected: Option<Region>): (c: Option<string>)
    ensures c.None? <==> selected.None?
    ensures selected.Some? ==>
              var name := RegionLabel(selected.value);
              |name| <= |c.value| && c.value[..|name|] == name
  {
    match selected
    case None => None
    case Some(r) =>
      var c := RegionLabel(r) + CaptionSeparator + ConditionBar.NumberText(GetValue(data, r)) + "점";
      assert c[..|RegionLabel(r)|] == RegionLabel(r);
      Some(c)
  }

  /** The position of the first `x` in `s`, or `|s|` when there is none. */
  function IndexOf(s: string, x: char): (r: nat)
    ensures r <= |s|
    ensures r < |s| ==> s[r] == x
    ensures forall j :: 0 <= j < r ==> s[j] != x
  {
    if s == [] then 0
    else if s[0] == x then 0
    else
      var r := 1 + IndexOf(s[1..], x);
      assert forall j :: 1 <= j < |s| ==> s[j] == s[1..][j - 1];
      r
  }

  /** The region a label names, if any. */
  function RegionNamed(name: string): Option<Region>
  {
    if name == RegionLabel(Forehead) then Some(Forehead)
    else if name == RegionLabel(LeftEye) then Some(LeftEye)
    else if name == RegionLabel(RightEye) then Some(RightEye)
    else if name == RegionLabel(LeftCheek) then Some(LeftCheek)
    else if name == RegionLabel(RightCheek) then Some(RightCheek)
    else if name == RegionLabel(Lip) then Some(Lip)
    else None
  }

  /** Reads a caption back into the region it names and the value it shows. */
  function ParseCaption(c: string): Option<(Region, int)>
  {
    var i := IndexOf(c, '·');
    if 1 <= i && i + 2 <= |c| - 1 && c[i - 1..i + 2] == CaptionSeparator && c[|c| - 1] == '점' then
      match RegionNamed(c[..i - 1])
      case None => None
      case Some(r) =>
        match ConditionBar.ParseNumber(c[i + 2..|c| - 1])
        case None => None
        case Some(v) => Some((r, v))
    else None
  }

  /** No label contains the middle dot of the separator. */
  lemma LabelHasNoDot(r: Region)
    ensures forall j :: 0 <= j < |RegionLabel(r)| ==> RegionLabel(r)[j] != '·'
  {
  }

  /** A label names its own region. */
  lemma RegionNamedLabel(r: Region)
    ensures RegionNamed(RegionLabel(r)) == Some(r)
  {
    RegionLabelsDistinct(r, Forehead);
    RegionLabelsDistinct(r, LeftEye);
    RegionLabelsDistinct(r, RightEye);
    RegionLabelsDistinct(r, LeftCheek);
    RegionLabelsDistinct(r, RightCheek);
  }

  /** The caption shows exactly the selected region and that region's value. */
  lemma CaptionRoundTrip(data: seq<DataItem>, r: Region)
    ensures Caption(data, Some(r)).Some?
    ensures ParseCaption(Caption(data, Some(r)).value) == Some((r, GetValue(data, r)))
  {
    var name := RegionLabel(r);
    var num := ConditionBar.NumberText(GetValue(data, r));
    var c := Caption(data, Some(r)).value;
    assert c == name + CaptionSeparator + num + "점";
    var n := |name|;
    LabelHasNoDot(r);
    assert forall j :: 0 <= j < n ==> c[j] == name[j];
    assert c[n] == ' ' && c[n + 1] == '·' && c[n + 2] == ' ';
    // the first middle dot is the separator's
    assert forall j :: 0 <= j <= n ==> c[j] != '·';
    assert IndexOf(c, '·') == n + 1;
    assert c[..n] == name;
    assert c[n..n + 3] == CaptionSeparator;
    assert c[n + 3..|c| - 1] == num;
    RegionNamedLabel(r);
    ConditionBar.NumberRoundTrip(GetValue(data, r));
  }

  /** The parts of a region's bar that respond to a tap. */
  datatype TapTarget = Bar | EndDot | ValueText | LabelText

  /** The chart's `selected` state cell. */
  class Selection {
    var selected: Option<Region>

    constructor ()
      ensures selected.None?
    {
      selected := None;
    }

    /** Tapping any part of a region's bar selects that region. */
    method Tap(r: Region, part: TapTarget)
      modifies this
      ensures selected == Some(r)
    {
      selected := Some(r);
    }

    /** The clear button below the caption. */
    method Clear()
      modifies this
      ensures selected.None?
    {
      selected := None;
    }
  }
}
