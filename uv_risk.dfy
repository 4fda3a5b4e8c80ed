/** UV risk banding (`get_uv_risk`): a UV index falls in one of five bands whose
    upper limits 2, 5, 7 and 10 are inclusive. The source only compares the index
    against the limits, so it is modelled over `real`. */
module UvRisk {

  datatype Level = Low | Moderate | High | VeryHigh | Extreme

  /** The bands from least to most severe. */
  const Levels: seq<Level> := [Low, Moderate, High, VeryHigh, Extreme]

  /** The inclusive upper limit of every band but the last, ascending. */
  const Thresholds: seq<real> := [2.0, 5.0, 7.0, 10.0]

  /** Position of a band in the severity order Low < Moderate < High < Very High < Extreme. */
  function Rank(l: Level): (k: nat)
    ensures k < |Levels| && Levels[k] == l
  {
    match l
    case Low => 0
    case Moderate => 1
    case High => 2
    case VeryHigh => 3
    case Extreme => 4
  }

  /** The string get_uv_risk returns for a band. */
  function Label(l: Level): (s: string)
    ensures s in ["Low", "Moderate", "High", "Very High", "Extreme"]
    ensures s != "unknown"
    ensures s == "Low" <==> l == Low
    ensures s == "Moderate" <==> l == Moderate
    ensures s == "High" <==> l == High
    ensures s == "Very High" <==> l == VeryHigh
    ensures s == "Extreme" <==> l == Extreme
  {
    match l
    case Low => "Low"
    case Moderate => "Moderate"
    case High => "High"
    case VeryHigh => "Very High"
    case Extreme => "Extreme"
  }

  /** get_uv_risk: each band is exactly the interval between consecutive limits,
      closed on its upper end. */
  function Risk(uv: real): (r: Level)
    ensures r == Low <==> uv <= 2.0
    ensures r == Moderate <==> 2.0 < uv <= 5.0
    ensures r == High <==> 5.0 < uv <= 7.0
    ensures r == VeryHigh <==> 7.0 < uv <= 10.0
    ensures r == Extreme <==> 10.0 < uv
  {
    if uv <= 2.0 then Low
    else if uv <= 5.0 then Moderate
    else if uv <= 7.0 then High
    else if uv <= 10.0 then VeryHigh
    else Extreme
  }

  /** How many of the limits `ts` a value strictly exceeds. */
  function CountExceeded(ts: seq<real>, x: real): (n: nat)
    ensures n <= |ts|
  {
    if ts == [] then 0
    else (if ts[0] < x then 1 else 0) + CountExceeded(ts[1..], x)
  }

  lemma {:induction false} CountExceededMonotone(ts: seq<real>, a: real, b: real)
    requires a <= b
    ensures CountExceeded(ts, a) <= CountExceeded(ts, b)
  {
    if ts != [] {
      CountExceededMonotone(ts[1..], a, b);
    }
  }

  /** Reference definition of the banding: the band of `uv` is the one whose rank is
      the number of limits `uv` lies strictly above. */
  lemma RiskCountsExceededThresholds(uv: real)
    ensures Rank(Risk(uv)) == CountExceeded(Thresholds, uv)
  {
    assert Thresholds[1..] == [5.0, 7.0, 10.0];
    assert [5.0, 7.0, 10.0][1..] == [7.0, 10.0];
    assert [7.0, 10.0][1..] == [10.0];
    assert [10.0][1..] == [];
    var n10 := CountExceeded([10.0], uv);
    assert n10 == if 10.0 < uv then 1 else 0;
    var n7 := CountExceeded([7.0, 10.0], uv);
    assert n7 == (if 7.0 < uv then 1 else 0) + n10;
    var n5 := CountExceeded([5.0, 7.0, 10.0], uv);
    assert n5 == (if 5.0 < uv then 1 else 0) + n7;
    assert CountExceeded(Thresholds, uv) == (if 2.0 < uv then 1 else 0) + n5;
  }

  /** get_uv_risk is monotone: a higher index never gives a less severe band. */
  lemma RiskMonotone(a: real, b: real)
    requires a <= b
    ensures Rank(Risk(a)) <= Rank(Risk(b))
  {
    RiskCountsExceededThresholds(a);
    RiskCountsExceededThresholds(b);
    CountExceededMonotone(Thresholds, a, b);
  }

  /** Distinct bands have distinct labels, so the label determines the band. */
  lemma LabelInjective(a: Level, b: Level)
    requires Label(a) == Label(b)
    ensures a == b
  {
  }
}
