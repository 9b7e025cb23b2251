/** The mock-data generators. Every `Math.random()` the source consumes is
    an explicit draw here: `Math.floor(Math.random() * k)` becomes an integer
    in [0, k) and a comparison `Math.random() > p` becomes a boolean. The
    floating-point hourly output (`target * factor + noise`, floored) is
    taken as an input, and the asset dates are passed through as strings. */
module MockData {
  import opened Types
  import opened Strings

  const MachineTypes: seq<string> := ["HAAS", "MAZAK", "DMG", "FANUC"]

  /** The weighted bag a machine status is drawn from. */
  const StatusBag: seq<MachineStatus> := [Running, Running, Running, Running, Idle, Idle, Alarm, Offline]

  const ZoneA: string := "A区"
  const ZoneB: string := "B区"
  const ZoneC: string := "C区"

  // ---------------------------------------------------------------- hourly

  const FirstHour: nat := 8
  const LastHour: nat := 18
  const HourCount: nat := 11

  function HourLabel(h: nat): string
  {
    NatToString(h) + ":00"
  }

  /** `Math.round(actual / target * 100)` on exact rationals: the nearest
      integer to 100 * actual / target, halves rounded up. */
  function RoundPercent(actual: int, target: int): (r: int)
    requires target > 0
    ensures 2 * target * r - target <= 200 * actual < 2 * target * r + target
  {
    var q := (200 * actual + target) / (2 * target);
    assert (200 * actual + target) == q * (2 * target) + (200 * actual + target) % (2 * target);
    assert 2 * target * q == q * (2 * target);
    q
  }

  function Sum(s: seq<int>): int
  {
    if s == [] then 0 else Sum(s[..|s| - 1]) + s[|s| - 1]
  }

  lemma SumStep(s: seq<int>, k: nat)
    requires k < |s|
    ensures Sum(s[..k + 1]) == Sum(s[..k]) + s[k]
  {
    assert s[..k + 1][..k] == s[..k];
  }

  /** Extending a prefix of `s` by one element of `s`. */
  lemma PrefixSnoc<T>(s: seq<T>, n: nat)
    requires n < |s|
    ensures s[..n + 1] == s[..n] + [s[n]]
  {
  }

  predicate ValidTargetDraws(targetDraws: seq<int>)
  {
    |targetDraws| == HourCount && forall k :: 0 <= k < |targetDraws| ==> 0 <= targetDraws[k] < 100
  }

  /** `800 + Math.floor(Math.random() * 100)` for each hour. */
  function Targets(targetDraws: seq<int>): (r: seq<int>)
    ensures |r| == |targetDraws|
  {
    seq(|targetDraws|, k requires 0 <= k < |targetDraws| => 800 + targetDraws[k])
  }

  /** The k-th point (hour 8 + k) of the series, stated by prefix sums. */
  function HourlyAt(k: nat, targetDraws: seq<int>, actuals: seq<int>): HourlyData
    requires ValidTargetDraws(targetDraws) && |actuals| == HourCount && k < HourCount
  {
    var t := Targets(targetDraws);
    HourlyData(HourLabel(FirstHour + k), t[k], actuals[k],
               Sum(t[..k + 1]), Sum(actuals[..k + 1]), RoundPercent(actuals[k], t[k]))
  }

  /** The series: point k for each of the eleven hours. */
  function Series(targetDraws: seq<int>, actuals: seq<int>): seq<HourlyData>
    requires ValidTargetDraws(targetDraws) && |actuals| == HourCount
  {
    seq(HourCount, k requires 0 <= k < HourCount => HourlyAt(k, targetDraws, actuals))
  }

  /** `generateHourlyData`: one point per hour 8..18 with running totals. */
  method GenerateHourlyData(targetDraws: seq<int>, actuals: seq<int>) returns (data: seq<HourlyData>)
    requires ValidTargetDraws(targetDraws) && |actuals| == HourCount
    ensures data == Series(targetDraws, actuals)
  {
    data := [];
    var cumulativeTarget := 0;
    var cumulativeActual := 0;
    ghost var t := Targets(targetDraws);
    ghost var series := Series(targetDraws, actuals);
    for i := FirstHour to LastHour + 1
      invariant cumulativeTarget == Sum(t[..i - FirstHour])
      invariant cumulativeActual == Sum(actuals[..i - FirstHour])
      invariant data == series[..i - FirstHour]
    {
      var k := i - FirstHour;
      var hourlyTarget := 800 + targetDraws[k];
      var hourlyActual := actuals[k];
      SumStep(t, k);
      SumStep(actuals, k);
      cumulativeTarget := cumulativeTarget + hourlyTarget;
      cumulativeActual := cumulativeActual + hourlyActual;
      PrefixSnoc(series, k);
      data := data + [HourlyData(HourLabel(i), hourlyTarget, hourlyActual,
                                 cumulativeTarget, cumulativeActual, RoundPercent(hourlyActual, hourlyTarget))];
    }
    assert series[..HourCount] == series;
  }

  /** The series has one point per hour, the k-th being point k. */
  lemma SeriesAt(targetDraws: seq<int>, actuals: seq<int>)
    requires ValidTargetDraws(targetDraws) && |actuals| == HourCount
    ensures |Series(targetDraws, actuals)| == HourCount
    ensures forall k :: 0 <= k < HourCount ==> Series(targetDraws, actuals)[k] == HourlyAt(k, targetDraws, actuals)
  {
  }

  /** The generated series: 11 points labelled "8:00" to "18:00", targets in
      [800, 899], the outputs as given, and running totals that start at the
      first point, add each point's own value and keep the target total
      strictly increasing. */
  lemma HourlySeries(targetDraws: seq<int>, actuals: seq<int>)
    requires ValidTargetDraws(targetDraws) && |actuals| == HourCount
    ensures var data := Series(targetDraws, actuals);
      (forall k :: 0 <= k < HourCount ==>
         data[k].time == HourLabel(FirstHour + k) && 800 <= data[k].target <= 899 && data[k].actual == actuals[k]) &&
      data[0].cumulativeTarget == data[0].target && data[0].cumulativeActual == data[0].actual &&
      (forall k :: 0 < k < HourCount ==>
         data[k].cumulativeTarget == data[k - 1].cumulativeTarget + data[k].target &&
         data[k].cumulativeActual == data[k - 1].cumulativeActual + data[k].actual) &&
      (forall k :: 0 < k < HourCount ==> data[k - 1].cumulativeTarget < data[k].cumulativeTarget)
  {
    var data := Series(targetDraws, actuals);
    var t := Targets(targetDraws);
    forall k | 0 < k < HourCount
      ensures data[k].cumulativeTarget == data[k - 1].cumulativeTarget + data[k].target
      ensures data[k].cumulativeActual == data[k - 1].cumulativeActual + data[k].actual
    {
      SumStep(t, k);
      SumStep(actuals, k);
    }
    assert data[0] == HourlyAt(0, targetDraws, actuals);
    SumStep(t, 0);
    SumStep(actuals, 0);
  }

  /** Each point's total is the sum of the targets (and of the outputs) of
      all points up to it, whatever the draws. */
  lemma {:induction false} HourlyTotalsArePrefixSums(data: seq<HourlyData>, k: nat)
    requires 0 < |data| && k < |data|
    requires data[0].cumulativeTarget == data[0].target && data[0].cumulativeActual == data[0].actual
    requires forall j :: 0 < j < |data| ==>
      data[j].cumulativeTarget == data[j - 1].cumulativeTarget + data[j].target &&
      data[j].cumulativeActual == data[j - 1].cumulativeActual + data[j].actual
    ensures data[k].cumulativeTarget == Sum(seq(k + 1, j requires 0 <= j <= k => data[j].target))
    ensures data[k].cumulativeActual == Sum(seq(k + 1, j requires 0 <= j <= k => data[j].actual))
  {
    var ts := seq(k + 1, j requires 0 <= j <= k => data[j].target);
    var acts := seq(k + 1, j requires 0 <= j <= k => data[j].actual);
    if k > 0 {
      HourlyTotalsArePrefixSums(data, k - 1);
      assert ts[..k] == seq(k, j requires 0 <= j <= k - 1 => data[j].target);
      assert acts[..k] == seq(k, j requires 0 <= j <= k - 1 => data[j].actual);
    }
  }

  // -------------------------------------------------------------- machines

  /** The values `Math.random()` contributes to one machine. */
  datatype MachineDraw = MachineDraw(typeIndex: int, statusIndex: int, partNumber: int,
                                     progress: int, rpm: int, load: int)

  predicate ValidMachineDraw(d: MachineDraw)
  {
    0 <= d.typeIndex < 4 && 0 <= d.statusIndex < 8 && 0 <= d.partNumber < 9000 &&
    0 <= d.progress < 100 && 0 <= d.rpm < 10000 && 0 <= d.load < 55
  }

  predicate ValidMachineDraws(draws: seq<MachineDraw>)
  {
    forall k :: 0 <= k < |draws| ==> ValidMachineDraw(draws[k])
  }

  /** Zones by absolute 1-based index: 1..30, 31..60, the rest. */
  function ZoneFor(i: int): string
  {
    if i <= 30 then ZoneA else if i <= 60 then ZoneB else ZoneC
  }

  /** `id` is "M" followed by decimal digits that read back as `i`. */
  predicate IdDenotes(id: string, prefix: string, i: nat)
  {
    |prefix| <= |id| && id[..|prefix|] == prefix && AllDigits(id[|prefix|..])
    && DigitsValue(id[|prefix|..]) == i
  }

  /** The field invariant of a machine: only a RUNNING machine carries a job
      and non-zero readings, each within the generator's ranges. */
  predicate WellFormedMachine(m: Machine)
  {
    (m.status != Running ==> m.product == "-" && m.progress == 0 && m.rpm == 0 && m.load == 0) &&
    (m.status == Running ==>
      0 <= m.progress <= 99 && 8000 <= m.rpm <= 17999 && 40 <= m.load <= 94 &&
      |m.product| > 5 && m.product[..5] == "Part-" && AllDigits(m.product[5..]) &&
      1000 <= DigitsValue(m.product[5..]) <= 9999)
  }

  lemma PrefixedNumber(prefix: string, n: nat, width: nat)
    ensures IdDenotes(prefix + ZeroPad(n, width), prefix, n)
  {
    var s := prefix + ZeroPad(n, width);
    ZeroPadRoundTrip(n, width);
    assert s[..|prefix|] == prefix;
    assert s[|prefix|..] == ZeroPad(n, width);
  }

  /** The machine the loop pushes for 1-based index `i`. */
  function MachineAt(i: nat, d: MachineDraw): Machine
    requires ValidMachineDraw(d)
  {
    var padded := ZeroPad(i, 3);
    var machineType := MachineTypes[d.typeIndex];
    var status := StatusBag[d.statusIndex];
    Machine(
      "M" + padded,
      "CNC-" + machineType + "-" + padded,
      machineType,
      status,
      if status == Running then "Part-" + NatToString(1000 + d.partNumber) else "-",
      if status == Running then d.progress else 0,
      if status == Running then 8000 + d.rpm else 0,
      if status == Running then 40 + d.load else 0,
      ZoneFor(i))
  }

  /** What every generated machine satisfies: its id reads back as its
      index, its name repeats the vendor and the padded index, its status
      comes from the bag, its fields obey the status invariant and its zone
      follows the absolute-index rule. */
  lemma MachineAtFacts(i: nat, d: MachineDraw)
    requires ValidMachineDraw(d)
    ensures IdDenotes(MachineAt(i, d).id, "M", i) && |MachineAt(i, d).id| >= 4
    ensures i < 1000 ==> |MachineAt(i, d).id| == 4
    ensures MachineAt(i, d).machineType in MachineTypes && MachineAt(i, d).status == StatusBag[d.statusIndex]
    ensures MachineAt(i, d).name == "CNC-" + MachineAt(i, d).machineType + "-" + MachineAt(i, d).id[1..]
    ensures WellFormedMachine(MachineAt(i, d))
    ensures MachineAt(i, d).zone == ZoneFor(i)
  {
    MachineNaming(i, d);
    MachineKind(i, d);
    MachineReadings(i, d);
  }

  /** The id and name part of `MachineAtFacts`. */
  lemma MachineNaming(i: nat, d: MachineDraw)
    requires ValidMachineDraw(d)
    ensures IdDenotes(MachineAt(i, d).id, "M", i) && |MachineAt(i, d).id| >= 4
    ensures i < 1000 ==> |MachineAt(i, d).id| == 4
    ensures MachineAt(i, d).name == "CNC-" + MachineAt(i, d).machineType + "-" + MachineAt(i, d).id[1..]
  {
    MachineIdFacts(i, MachineAt(i, d).id);
  }

  /** The type, status and zone part of `MachineAtFacts`. */
  lemma MachineKind(i: nat, d: MachineDraw)
    requires ValidMachineDraw(d)
    ensures MachineAt(i, d).machineType in MachineTypes && MachineAt(i, d).status == StatusBag[d.statusIndex]
    ensures MachineAt(i, d).zone == ZoneFor(i)
  {
  }

  /** The status invariant part of `MachineAtFacts`. */
  lemma MachineReadings(i: nat, d: MachineDraw)
    requires ValidMachineDraw(d)
    ensures WellFormedMachine(MachineAt(i, d))
  {
    var m := MachineAt(i, d);
    if m.status == Running {
      ProductFacts(1000 + d.partNumber, m.product);
    }
  }

  /** "M" and the padded index: at least four characters, reading back as
      the index. */
  lemma MachineIdFacts(i: nat, id: string)
    requires id == "M" + ZeroPad(i, 3)
    ensures IdDenotes(id, "M", i) && |id| >= 4 && id[1..] == ZeroPad(i, 3)
    ensures i < 1000 ==> |id| == 4
  {
    PrefixedNumber("M", i, 3);
    if i < 1000 {
      assert Pow10(3) == 1000;
      ZeroPadWidth(i, 3);
    }
  }

  /** A job label "Part-" and the part number's digits. */
  lemma ProductFacts(n: nat, product: string)
    requires product == "Part-" + NatToString(n)
    ensures |product| > 5 && product[..5] == "Part-" && AllDigits(product[5..]) && DigitsValue(product[5..]) == n
  {
    NatToStringRoundTrip(n);
    assert product[5..] == NatToString(n);
  }

  /** The fleet drawn from `draws`: machine k+1 from draw k, for every draw. */
  function Fleet(draws: seq<MachineDraw>): seq<Machine>
    requires ValidMachineDraws(draws)
  {
    seq(|draws|, k requires 0 <= k < |draws| => MachineAt(k + 1, draws[k]))
  }

  /** `generateMachines(count)`: machines with 1-based indices 1..count. */
  method GenerateMachines(count: nat, draws: seq<MachineDraw>) returns (machines: seq<Machine>)
    requires |draws| == count && ValidMachineDraws(draws)
    ensures machines == Fleet(draws)
  {
    machines := [];
    for i := 1 to count + 1
      invariant machines == Fleet(draws)[..i - 1]
    {
      FleetSnoc(draws, i);
      machines := machines + [MachineAt(i, draws[i - 1])];
    }
    assert Fleet(draws)[..count] == Fleet(draws);
  }

  /** The fleet's first `i` machines extend its first `i - 1` by machine `i`. */
  lemma FleetSnoc(draws: seq<MachineDraw>, i: nat)
    requires ValidMachineDraws(draws) && 1 <= i <= |draws|
    ensures Fleet(draws)[..i] == Fleet(draws)[..i - 1] + [MachineAt(i, draws[i - 1])]
  {
    PrefixSnoc(Fleet(draws), i - 1);
  }

  /** A machine built for index `i`, wherever it is held, keeps the status
      invariant, lies in the zone of `i` and carries an id reading back as `i`. */
  lemma MachineFacts(i: nat, d: MachineDraw, m: Machine)
    requires ValidMachineDraw(d) && m == MachineAt(i, d)
    ensures WellFormedMachine(m) && m.zone == ZoneFor(i) && IdDenotes(m.id, "M", i)
    ensures i < 1000 ==> |m.id| == 4
  {
    MachineAtFacts(i, d);
  }

  /** The fleet has one machine per draw, the k-th built for index k+1. */
  lemma FleetAt(draws: seq<MachineDraw>)
    requires ValidMachineDraws(draws)
    ensures |Fleet(draws)| == |draws|
    ensures forall k :: 0 <= k < |draws| ==> Fleet(draws)[k] == MachineAt(k + 1, draws[k])
  {
  }

  /** Every machine of a generated fleet is well formed, lies in the zone of
      its 1-based index and has an id reading back as that index. */
  lemma GeneratedFleet(draws: seq<MachineDraw>)
    requires ValidMachineDraws(draws)
    ensures forall k :: 0 <= k < |draws| ==>
      WellFormedMachine(Fleet(draws)[k]) && Fleet(draws)[k].zone == ZoneFor(k + 1) &&
      IdDenotes(Fleet(draws)[k].id, "M", k + 1) && (k + 1 < 1000 ==> |Fleet(draws)[k].id| == 4)
  {
    var ms := Fleet(draws);
    forall k | 0 <= k < |draws|
      ensures WellFormedMachine(ms[k]) && ms[k].zone == ZoneFor(k + 1) && IdDenotes(ms[k].id, "M", k + 1)
      ensures k + 1 < 1000 ==> |ms[k].id| == 4
    {
      MachineFacts(k + 1, draws[k], ms[k]);
    }
  }

  /** In a fleet whose ids read back as their 1-based positions, as the
      generator's do, no two machines share an id. */
  lemma FleetIdsDistinct(ms: seq<Machine>, j: nat, k: nat)
    requires forall i :: 0 <= i < |ms| ==> IdDenotes(ms[i].id, "M", i + 1)
    requires j < |ms| && k < |ms| && j != k
    ensures ms[j].id != ms[k].id
  {
    assert IdDenotes(ms[j].id, "M", j + 1);
    assert IdDenotes(ms[k].id, "M", k + 1);
  }

  /** The bag weighs RUNNING four times as ALARM or OFFLINE and IDLE twice. */
  lemma StatusWeights()
    ensures |StatusBag| == 8
    ensures multiset(StatusBag)[Running] == 4 && multiset(StatusBag)[Idle] == 2
    ensures multiset(StatusBag)[Alarm] == 1 && multiset(StatusBag)[Offline] == 1
  {
  }

  // ---------------------------------------------------- status display table

  datatype StatusConfig = StatusConfig(displayLabel: string, color: string, text: string, border: string, shadow: string)

  /** `MACHINE_STATUS_TYPES` without its icon elements. */
  function StatusConfigOf(s: MachineStatus): StatusConfig
  {
    match s
    case Running => StatusConfig("运行", "bg-emerald-500", "text-emerald-500", "border-emerald-500", "shadow-emerald-500/50")
    case Idle => StatusConfig("待机", "bg-yellow-500", "text-yellow-500", "border-yellow-500", "shadow-yellow-500/50")
    case Alarm => StatusConfig("故障", "bg-red-600", "text-red-500", "border-red-600", "shadow-red-600/50")
    case Offline => StatusConfig("离线", "bg-slate-600", "text-slate-500", "border-slate-600", "shadow-slate-600/50")
  }

  /** No two statuses share a label or a colour. */
  lemma StatusConfigDistinct(a: MachineStatus, b: MachineStatus)
    requires a != b
    ensures StatusConfigOf(a).displayLabel != StatusConfigOf(b).displayLabel
    ensures StatusConfigOf(a).color != StatusConfigOf(b).color
  {
    var la, lb := StatusConfigOf(a).displayLabel, StatusConfigOf(b).displayLabel;
    assert la[0] != lb[0];
    var ca, cb := StatusConfigOf(a).color, StatusConfigOf(b).color;
    assert ca[3] != cb[3] || ca[4..] != cb[4..];
  }

  // ---------------------------------------------------------------- assets

  function ModelsFor(assetType: string): seq<string>
  {
    if assetType == "HAAS" then ["VF-2", "VF-4", "UMC-750"]
    else if assetType == "MAZAK" then ["Variaxis i-700", "Integrex i-200"]
    else if assetType == "DMG" then ["DMU 50", "DMC 650 V"]
    else if assetType == "FANUC" then ["Robodrill α-D21LiB5"]
    else []
  }

  const Locations: seq<string> := ["A区-01", "A区-02", "B区-01", "B区-02", "C区-01"]

  /** The values `Math.random()` contributes to one asset; the two dates are
      the strings the date arithmetic produced. */
  datatype AssetDraw = AssetDraw(typeIndex: int, modelIndex: int, serial: int, locationIndex: int,
                                 aboveTenth: bool, value: int, purchaseDate: string, warrantyExp: string)

  predicate ValidAssetDraw(d: AssetDraw)
  {
    0 <= d.typeIndex < 4 && 0 <= d.modelIndex < |ModelsFor(MachineTypes[d.typeIndex])| &&
    0 <= d.serial < 1000000 && 0 <= d.locationIndex < 5 && 0 <= d.value < 1000000
  }

  predicate ValidAssetDraws(draws: seq<AssetDraw>)
  {
    forall k :: 0 <= k < |draws| ==> ValidAssetDraw(draws[k])
  }

  /** The field invariant of a generated asset. */
  predicate WellFormedAsset(a: Asset)
  {
    a.assetType in MachineTypes && a.model in ModelsFor(a.assetType) &&
    |a.serialNumber| > 2 && a.serialNumber[..2] == a.assetType[..2] &&
    AllDigits(a.serialNumber[2..]) && DigitsValue(a.serialNumber[2..]) < 1000000 &&
    a.location in Locations && 500000 <= a.value <= 1499999
  }

  lemma FourDigitPad(i: nat)
    ensures i < 10000 ==> |ZeroPad(i, 4)| == 4
  {
    if i < 10000 {
      assert Pow10(4) == 10000;
      ZeroPadWidth(i, 4);
    }
  }

  /** The asset the loop pushes for 1-based index `i`. */
  function AssetAt(i: nat, d: AssetDraw): Asset
    requires ValidAssetDraw(d)
  {
    var assetType := MachineTypes[d.typeIndex];
    Asset(
      "AST-" + ZeroPad(i, 4),
      "CNC-" + assetType + "-" + ZeroPad(i, 3),
      assetType,
      ModelsFor(assetType)[d.modelIndex],
      assetType[..2] + NatToString(d.serial),
      Locations[d.locationIndex],
      d.purchaseDate,
      if d.aboveTenth then Active else Maintenance,
      500000 + d.value,
      d.warrantyExp)
  }

  /** What every generated asset satisfies: its id is "AST-" and four digits
      reading back as its index, its model belongs to its vendor, its serial
      starts with the vendor's first two letters, its value lies in
      [500000, 1499999] and its status follows the draw. */
  lemma AssetAtFacts(i: nat, d: AssetDraw)
    requires ValidAssetDraw(d)
    ensures IdDenotes(AssetAt(i, d).id, "AST-", i) && (i < 10000 ==> |AssetAt(i, d).id| == 8)
    ensures AssetAt(i, d).name == "CNC-" + AssetAt(i, d).assetType + "-" + ZeroPad(i, 3)
    ensures WellFormedAsset(AssetAt(i, d))
    ensures AssetAt(i, d).status == if d.aboveTenth then Active else Maintenance
  {
    var a := AssetAt(i, d);
    PrefixedNumber("AST-", i, 4);
    FourDigitPad(i);
    assert a.id == "AST-" + ZeroPad(i, 4);
    var assetType := MachineTypes[d.typeIndex];
    assert a.serialNumber == assetType[..2] + NatToString(d.serial);
    assert a.serialNumber[..2] == assetType[..2] && a.serialNumber[2..] == NatToString(d.serial);
    NatToStringRoundTrip(d.serial);
  }

  /** The asset list drawn from `draws`: asset k+1 from draw k, for every draw. */
  function AssetList(draws: seq<AssetDraw>): seq<Asset>
    requires ValidAssetDraws(draws)
  {
    seq(|draws|, k requires 0 <= k < |draws| => AssetAt(k + 1, draws[k]))
  }

  /** `generateAssetList(count)`. */
  method GenerateAssetList(count: nat, draws: seq<AssetDraw>) returns (assets: seq<Asset>)
    requires |draws| == count && ValidAssetDraws(draws)
    ensures assets == AssetList(draws)
  {
    assets := [];
    var i := 0;
    while i < count
      invariant i <= count && assets == AssetList(draws)[..i]
    {
      AssetListSnoc(draws, i);
      assets := assets + [AssetAt(i + 1, draws[i])];
      i := i + 1;
    }
    assert AssetList(draws)[..count] == AssetList(draws);
  }

  /** The list's first `i + 1` assets extend its first `i` by asset `i + 1`. */
  lemma AssetListSnoc(draws: seq<AssetDraw>, i: nat)
    requires ValidAssetDraws(draws) && i < |draws|
    ensures AssetList(draws)[..i + 1] == AssetList(draws)[..i] + [AssetAt(i + 1, draws[i])]
  {
    PrefixSnoc(AssetList(draws), i);
  }

  /** An asset built for index `i`, wherever it is held, is well formed and
      carries an id reading back as `i`. */
  lemma AssetFacts(i: nat, d: AssetDraw, a: Asset)
    requires ValidAssetDraw(d) && a == AssetAt(i, d)
    ensures WellFormedAsset(a) && IdDenotes(a.id, "AST-", i)
  {
    AssetAtFacts(i, d);
  }

  /** The list has one asset per draw, the k-th built for index k+1. */
  lemma AssetListAt(draws: seq<AssetDraw>)
    requires ValidAssetDraws(draws)
    ensures |AssetList(draws)| == |draws|
    ensures forall k :: 0 <= k < |draws| ==> AssetList(draws)[k] == AssetAt(k + 1, draws[k])
  {
  }

  /** Every asset of a generated list is well formed and has an id reading
      back as its 1-based index. */
  lemma GeneratedAssets(draws: seq<AssetDraw>)
    requires ValidAssetDraws(draws)
    ensures forall k :: 0 <= k < |draws| ==>
      WellFormedAsset(AssetList(draws)[k]) && IdDenotes(AssetList(draws)[k].id, "AST-", k + 1)
  {
    var list := AssetList(draws);
    forall k | 0 <= k < |draws| ensures WellFormedAsset(list[k]) && IdDenotes(list[k].id, "AST-", k + 1) {
      AssetFacts(k + 1, draws[k], list[k]);
    }
  }
}
