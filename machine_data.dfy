/** The live-fleet hook: it owns the fleet and the hourly series, fills
    them once on mount, and every two seconds maps the fleet through a tick
    that nudges the load and speed of some RUNNING machines. The timer is an
    explicit `Tick` call; the tick's random choices are a `TickDraw` per
    machine. */
module MachineData {
  import opened Types
  import opened MockData

  /** `Math.min(hi, Math.max(lo, x))`. */
  function Clamp(x: int, lo: int, hi: int): (r: int)
    requires lo <= hi
    ensures lo <= r <= hi
    ensures lo <= x <= hi ==> r == x
    ensures x < lo ==> r == lo
    ensures x > hi ==> r == hi
  {
    if x < lo then lo else if x > hi then hi else x
  }

  /** One machine's share of a tick: `Math.random() > 0.7`, then
      `Math.floor(Math.random() * 10 - 5)` in [-5, 4] and
      `Math.floor(Math.random() * 200 - 100)` in [-100, 99]. */
  datatype TickDraw = TickDraw(shouldChange: bool, loadDelta: int, rpmDelta: int)

  predicate ValidTickDraw(d: TickDraw)
  {
    -5 <= d.loadDelta <= 4 && -100 <= d.rpmDelta <= 99
  }

  predicate ValidTickDraws(ds: seq<TickDraw>)
  {
    forall k :: 0 <= k < |ds| ==> ValidTickDraw(ds[k])
  }

  /** The mapping callback of the tick for one machine. */
  function TickMachine(m: Machine, d: TickDraw): (r: Machine)
    ensures r.(load := m.load, rpm := m.rpm) == m
    ensures m.status != Running || !d.shouldChange ==> r == m
    ensures m.status == Running && d.shouldChange ==>
      r.load == Clamp(m.load + d.loadDelta, 0, 100) && r.rpm == Clamp(m.rpm + d.rpmDelta, 0, 20000)
  {
    if m.status == Running then
      if !d.shouldChange then m
      else m.(load := Clamp(m.load + d.loadDelta, 0, 100), rpm := Clamp(m.rpm + d.rpmDelta, 0, 20000))
    else m
  }

  /** `prev.map(...)`: the whole fleet after one tick. */
  function TickFleet(ms: seq<Machine>, ds: seq<TickDraw>): seq<Machine>
    requires |ds| == |ms|
  {
    seq(|ms|, k requires 0 <= k < |ms| => TickMachine(ms[k], ds[k]))
  }

  /** A tick keeps the fleet's length and order and every machine's status;
      it changes nothing but `load` and `rpm`, and those only for a RUNNING
      machine whose draw says so. */
  lemma TickFleetFacts(ms: seq<Machine>, ds: seq<TickDraw>)
    requires |ds| == |ms|
    ensures |TickFleet(ms, ds)| == |ms|
    ensures forall k :: 0 <= k < |ms| ==>
      TickFleet(ms, ds)[k].(load := ms[k].load, rpm := ms[k].rpm) == ms[k]
    ensures forall k :: 0 <= k < |ms| && (ms[k].status != Running || !ds[k].shouldChange) ==>
      TickFleet(ms, ds)[k] == ms[k]
  {
  }

  /** The bounds a live machine keeps: readings within the clamps, and the
      idle fields of a non-RUNNING machine cleared. */
  predicate LiveMachine(m: Machine)
  {
    0 <= m.load <= 100 && 0 <= m.rpm <= 20000 &&
    (m.status != Running ==> m.product == "-" && m.progress == 0 && m.rpm == 0 && m.load == 0)
  }

  predicate LiveFleet(ms: seq<Machine>)
  {
    forall k :: 0 <= k < |ms| ==> LiveMachine(ms[k])
  }

  lemma GeneratedMachineIsLive(m: Machine)
    requires WellFormedMachine(m)
    ensures LiveMachine(m)
  {
  }

  /** A tick preserves the live bounds; a changed load moves by at most 5 and
      a changed speed by at most 100. */
  lemma TickKeepsLive(m: Machine, d: TickDraw)
    requires LiveMachine(m) && ValidTickDraw(d)
    ensures LiveMachine(TickMachine(m, d))
    ensures -5 <= TickMachine(m, d).load - m.load <= 4
    ensures -100 <= TickMachine(m, d).rpm - m.rpm <= 99
  {
  }

  lemma TickFleetKeepsLive(ms: seq<Machine>, ds: seq<TickDraw>)
    requires |ds| == |ms| && LiveFleet(ms) && ValidTickDraws(ds)
    ensures LiveFleet(TickFleet(ms, ds))
  {
    forall k | 0 <= k < |ms| ensures LiveMachine(TickFleet(ms, ds)[k]) {
      TickKeepsLive(ms[k], ds[k]);
    }
  }

  // ------------------------------------------------------------------ stats

  /** `allMachines.filter((m) => m.status === s).length`. */
  function CountStatus(ms: seq<Machine>, s: MachineStatus): (n: nat)
    ensures n <= |ms|
  {
    if ms == [] then 0 else (if ms[0].status == s then 1 else 0) + CountStatus(ms[1..], s)
  }

  datatype Stats = Stats(running: nat, idle: nat, alarm: nat, offline: nat)

  /** The `stats` memo of the hook. */
  function StatsOf(ms: seq<Machine>): Stats
  {
    Stats(CountStatus(ms, Running), CountStatus(ms, Idle), CountStatus(ms, Alarm), CountStatus(ms, Offline))
  }

  /** The four counts partition the fleet. */
  lemma {:induction false} StatsTotal(ms: seq<Machine>)
    ensures var st := StatsOf(ms); st.running + st.idle + st.alarm + st.offline == |ms|
  {
    if ms != [] {
      StatsTotal(ms[1..]);
    }
  }

  /** Two fleets whose statuses agree position by position count the same. */
  lemma {:induction false} CountSameStatuses(a: seq<Machine>, b: seq<Machine>, s: MachineStatus)
    requires |a| == |b| && forall k :: 0 <= k < |a| ==> a[k].status == b[k].status
    ensures CountStatus(a, s) == CountStatus(b, s)
  {
    if a != [] {
      CountSameStatuses(a[1..], b[1..], s);
    }
  }

  /** A tick never changes a status, so it never changes the counts. */
  lemma TickKeepsStats(ms: seq<Machine>, ds: seq<TickDraw>)
    requires |ds| == |ms|
    ensures StatsOf(TickFleet(ms, ds)) == StatsOf(ms)
  {
    var t := TickFleet(ms, ds);
    assert forall k :: 0 <= k < |ms| ==> t[k].status == ms[k].status;
    CountSameStatuses(t, ms, Running);
    CountSameStatuses(t, ms, Idle);
    CountSameStatuses(t, ms, Alarm);
    CountSameStatuses(t, ms, Offline);
  }

  predicate DrawsFit(ms: seq<Machine>, dss: seq<seq<TickDraw>>)
  {
    forall i :: 0 <= i < |dss| ==> |dss[i]| == |ms| && ValidTickDraws(dss[i])
  }

  /** The fleet after one tick per element of `dss`. */
  function TickMany(ms: seq<Machine>, dss: seq<seq<TickDraw>>): (r: seq<Machine>)
    requires DrawsFit(ms, dss)
    ensures |r| == |ms|
    decreases |dss|
  {
    if dss == [] then ms else TickMany(TickFleet(ms, dss[0]), dss[1..])
  }

  /** Statistics, live bounds and every non-RUNNING machine survive any
      number of ticks unchanged. */
  lemma {:induction false} TickManyFacts(ms: seq<Machine>, dss: seq<seq<TickDraw>>)
    requires DrawsFit(ms, dss)
    ensures StatsOf(TickMany(ms, dss)) == StatsOf(ms)
    ensures LiveFleet(ms) ==> LiveFleet(TickMany(ms, dss))
    ensures forall k :: 0 <= k < |ms| && ms[k].status != Running ==> TickMany(ms, dss)[k] == ms[k]
    ensures forall k :: 0 <= k < |ms| ==> TickMany(ms, dss)[k].status == ms[k].status
    decreases |dss|
  {
    if dss != [] {
      var next := TickFleet(ms, dss[0]);
      TickKeepsStats(ms, dss[0]);
      if LiveFleet(ms) { TickFleetKeepsLive(ms, dss[0]); }
      TickManyFacts(next, dss[1..]);
    }
  }

  // ------------------------------------------------------------ the hook

  class MachineDataHook {
    var allMachines: seq<Machine>
    var hourlyData: seq<HourlyData>

    ghost predicate Valid()
      reads this
    {
      LiveFleet(allMachines)
    }

    /** Both collections start empty, before the mount effect. */
    constructor ()
      ensures allMachines == [] && hourlyData == [] && Valid()
    {
      allMachines := [];
      hourlyData := [];
    }

    /** The mount effect: one `generateMachines(100)` and one
        `generateHourlyData()`. */
    method Initialize(machineDraws: seq<MachineDraw>, targetDraws: seq<int>, actuals: seq<int>)
      requires |machineDraws| == 100 && ValidMachineDraws(machineDraws)
      requires ValidTargetDraws(targetDraws) && |actuals| == HourCount
      modifies this
      ensures allMachines == Fleet(machineDraws)
      ensures hourlyData == Series(targetDraws, actuals)
      ensures Valid()
    {
      allMachines := GenerateMachines(100, machineDraws);
      hourlyData := GenerateHourlyData(targetDraws, actuals);
      FleetAt(machineDraws);
      GeneratedFleet(machineDraws);
      forall k | 0 <= k < 100 ensures LiveMachine(allMachines[k]) {
        GeneratedMachineIsLive(allMachines[k]);
      }
    }

    /** The two-second interval callback. */
    method Tick(draws: seq<TickDraw>)
      requires |draws| == |allMachines| && ValidTickDraws(draws)
      modifies this`allMachines
      ensures allMachines == TickFleet(old(allMachines), draws)
      ensures StatsOf(allMachines) == StatsOf(old(allMachines))
      ensures old(Valid()) ==> Valid()
    {
      TickKeepsStats(allMachines, draws);
      if Valid() { TickFleetKeepsLive(allMachines, draws); }
      allMachines := TickFleet(allMachines, draws);
    }

    /** `stats`, recomputed from the current fleet. */
    function Stats(): (st: Stats)
      reads this
      ensures st.running + st.idle + st.alarm + st.offline == |allMachines|
    {
      StatsTotal(allMachines);
      StatsOf(allMachines)
    }
  }
}
