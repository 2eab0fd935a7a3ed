/**
 * The data-point registry of models/iot.go: the fixed list of telemetry
 * channels the platform is queried for, each with a display name, a unit and a
 * value kind ("number", "array" or "boolean").
 */
module Registry {

  import opened Values

  /** `IotDeviceDataPoint`; `kind` is the Go field `Type`. */
  datatype DataPointSpec = DataPointSpec(name: string, displayName: string, unit: string, kind: string)

  const HilbertPoint: string := "feature_hilbert_2_hb"

  /**
   * `GetIotDataPoints`: seven entries with pairwise distinct names; every kind
   * is one of the three known kinds; the only "array" entry is the Hilbert
   * envelope; the non-numeric entries have no unit.
   */
  function GetIotDataPoints(): (points: seq<DataPointSpec>)
    ensures |points| == 7
    ensures forall i, j :: 0 <= i < j < |points| ==> points[i].name != points[j].name
    ensures forall i :: 0 <= i < |points| ==>
              points[i].kind == "number" || points[i].kind == "array" || points[i].kind == "boolean"
    ensures forall i :: 0 <= i < |points| && points[i].kind == "array" ==> points[i].name == HilbertPoint
    ensures forall i :: 0 <= i < |points| && points[i].name == HilbertPoint ==> points[i].kind == "array"
    ensures forall i :: 0 <= i < |points| && points[i].kind != "number" ==> points[i].unit == ""
  {
    [ DataPointSpec("volume", "噪音", "dB", "number"),
      DataPointSpec("shake", "振动", "g", "number"),
      DataPointSpec("temperature", "温度", "°C", "number"),
      DataPointSpec("feature_speed_1_speed", "转速", "rpm", "number"),
      DataPointSpec(HilbertPoint, "希尔伯特包络", "", "array"),
      DataPointSpec("controlledvariable", "是否在运行", "", "boolean"),
      DataPointSpec("controlledvolume", "音量是否监控", "", "boolean") ]
  }

  /** How many specs of a list have the given kind. */
  function KindCount(points: seq<DataPointSpec>, kind: string): (n: nat)
    ensures n <= |points|
  {
    if points == [] then 0
    else (if points[0].kind == kind then 1 else 0) + KindCount(points[1..], kind)
  }

  /** The registry holds four numeric points, one array point and two boolean points. */
  lemma RegistryKindCounts()
    ensures KindCount(GetIotDataPoints(), "number") == 4
    ensures KindCount(GetIotDataPoints(), "array") == 1
    ensures KindCount(GetIotDataPoints(), "boolean") == 2
  {
    var p := GetIotDataPoints();
    assert p[0].kind == "number" && p[1].kind == "number" && p[2].kind == "number" && p[3].kind == "number";
    assert p[4].kind == "array" && p[5].kind == "boolean" && p[6].kind == "boolean";
    RegistryKindSum("number");
    RegistryKindSum("array");
    RegistryKindSum("boolean");
  }

  /** The registry's count of a kind, entry by entry. */
  lemma RegistryKindSum(kind: string)
    ensures var p := GetIotDataPoints();
            KindCount(p, kind) ==
              (if p[0].kind == kind then 1 else 0) + (if p[1].kind == kind then 1 else 0)
              + (if p[2].kind == kind then 1 else 0) + (if p[3].kind == kind then 1 else 0)
              + (if p[4].kind == kind then 1 else 0) + (if p[5].kind == kind then 1 else 0)
              + (if p[6].kind == kind then 1 else 0)
  {
    var p := GetIotDataPoints();
    KindCountFrom(p, 0, kind); KindCountFrom(p, 1, kind); KindCountFrom(p, 2, kind);
    KindCountFrom(p, 3, kind); KindCountFrom(p, 4, kind); KindCountFrom(p, 5, kind);
    KindCountFrom(p, 6, kind);
    assert p[0..] == p && p[7..] == [];
  }

  /** Counting a kind from position i: the spec at i, then the count from i + 1. */
  lemma KindCountFrom(p: seq<DataPointSpec>, i: nat, kind: string)
    requires i < |p|
    ensures KindCount(p[i..], kind) == (if p[i].kind == kind then 1 else 0) + KindCount(p[i + 1..], kind)
  {
    assert p[i..][1..] == p[i + 1..];
  }
}
