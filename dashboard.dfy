/** The dashboard page: a status filter over the live fleet, a twelve-card
    grid with a page counter and an autoplay interval, a heatmap grouped by
    zone, an alarm queue and a selected machine for the detail panel. The
    derived lists are functions; the page's own state is the class
    `DashboardView`. */
module Dashboard {
  import opened Types
  import opened MockData
  import opened MachineData

  // ------------------------------------------------------------ filtering

  /** The filter buttons: "ALL" or one status. */
  datatype StatusFilter = AllStatuses | OnlyStatus(status: MachineStatus)

  datatype ViewMode = Heatmap | Grid

  predicate Passes(m: Machine, f: StatusFilter)
  {
    f.AllStatuses? || m.status == f.status
  }

  /** `filteredMachines`: the fleet itself for "ALL", otherwise the
      machines of that status. Nothing is added and nothing passing is lost. */
  function FilterMachines(ms: seq<Machine>, f: StatusFilter): (r: seq<Machine>)
    ensures |r| <= |ms|
    ensures forall m :: m in r <==> m in ms && Passes(m, f)
  {
    if ms == [] then []
    else if Passes(ms[0], f) then [ms[0]] + FilterMachines(ms[1..], f)
    else FilterMachines(ms[1..], f)
  }

  /** With "ALL" the filtered list is the fleet, in the same order. */
  lemma {:induction false} FilterAllIsFleet(ms: seq<Machine>)
    ensures FilterMachines(ms, AllStatuses) == ms
  {
    if ms != [] {
      FilterAllIsFleet(ms[1..]);
    }
  }

  /** Filtering distributes over concatenation: the relative order of the
      machines that pass is the fleet's order. */
  lemma {:induction false} FilterConcat(a: seq<Machine>, b: seq<Machine>, f: StatusFilter)
    ensures FilterMachines(a + b, f) == FilterMachines(a, f) + FilterMachines(b, f)
  {
    if a == [] {
      assert a + b == b;
    } else {
      var rest := a[1..];
      assert (a + b)[0] == a[0] && (a + b)[1..] == rest + b;
      FilterConcat(rest, b, f);
      var x, y := FilterMachines(rest, f), FilterMachines(b, f);
      if Passes(a[0], f) {
        assert [a[0]] + (x + y) == ([a[0]] + x) + y;
      }
    }
  }

  /** The number a status button shows is the length of its filtered list. */
  lemma {:induction false} FilterCountsStatus(ms: seq<Machine>, s: MachineStatus)
    ensures |FilterMachines(ms, OnlyStatus(s))| == CountStatus(ms, s)
  {
    if ms != [] {
      FilterCountsStatus(ms[1..], s);
    }
  }

  /** A tick changes no status and keeps the fleet's order, so it never
      changes which positions a filter keeps, nor how many. */
  lemma {:induction false} FilterLengthStable(a: seq<Machine>, b: seq<Machine>, f: StatusFilter)
    requires |a| == |b| && forall k :: 0 <= k < |a| ==> a[k].status == b[k].status
    ensures |FilterMachines(a, f)| == |FilterMachines(b, f)|
  {
    if a != [] {
      FilterLengthStable(a[1..], b[1..], f);
    }
  }

  // ----------------------------------------------------------- pagination

  const ItemsPerPage: nat := 12

  /** `Math.ceil(n / 12)`: the fewest pages of twelve that hold `n` items.
      There is no minimum of one: an empty list has zero pages. */
  function TotalPages(n: nat): (r: nat)
    ensures n <= r * ItemsPerPage
    ensures r == 0 || (r - 1) * ItemsPerPage < n
    ensures r == 0 <==> n == 0
  {
    (n + ItemsPerPage - 1) / ItemsPerPage
  }

  /** How `Array.prototype.slice` reads an index: negative counts from the
      end, and the result is clamped to [0, len]. */
  function SliceIndex(i: int, len: nat): (r: nat)
    ensures r <= len
    ensures 0 <= i <= len ==> r == i
    ensures i > len ==> r == len
    ensures i < 0 ==> r == if len + i < 0 then 0 else len + i
  {
    if i < 0 then (if len + i < 0 then 0 else len + i)
    else if i > len then len
    else i
  }

  /** Reading two indices never widens the gap between them. */
  lemma SliceIndexSpan(i: int, j: int, len: nat)
    ensures i <= j ==> SliceIndex(j, len) - SliceIndex(i, len) <= j - i
  {
  }

  /** `xs.slice(start, end)`. */
  function JsSlice<T>(xs: seq<T>, start: int, end: int): (r: seq<T>)
    ensures 0 <= start <= end <= |xs| ==> r == xs[start..end]
    ensures start <= end ==> |r| <= end - start
  {
    SliceIndexSpan(start, end, |xs|);
    var from := SliceIndex(start, |xs|);
    var to := SliceIndex(end, |xs|);
    if from >= to then [] else xs[from..to]
  }

  /** `paginatedMachines` for page `p`. */
  function Paginate<T>(fs: seq<T>, p: int): (r: seq<T>)
    ensures |r| <= ItemsPerPage
  {
    JsSlice(fs, (p - 1) * ItemsPerPage, p * ItemsPerPage)
  }

  function Min(a: int, b: int): int { if a <= b then a else b }

  /** For a page at or after the first, the page is the stretch of the list
      from `(p-1)*12` up to `p*12`, cut at the end of the list. It is
      non-empty exactly for the pages the counter shows. */
  lemma PageContents<T>(fs: seq<T>, p: int)
    requires p >= 1
    ensures (p - 1) * ItemsPerPage <= |fs| ==>
      Paginate(fs, p) == fs[(p - 1) * ItemsPerPage..Min(p * ItemsPerPage, |fs|)]
    ensures Paginate(fs, p) != [] <==> p <= TotalPages(|fs|)
  {
  }

  /** Pages `first` to `last`, one after the other. */
  function ConcatPages<T>(fs: seq<T>, first: int, last: int): seq<T>
    decreases last - first + 1
  {
    if first > last then [] else Paginate(fs, first) + ConcatPages(fs, first + 1, last)
  }

  lemma {:induction false} ConcatPagesSuffix<T>(fs: seq<T>, p: int)
    requires 1 <= p <= TotalPages(|fs|) + 1
    ensures ConcatPages(fs, p, TotalPages(|fs|)) == fs[Min((p - 1) * ItemsPerPage, |fs|)..]
    decreases TotalPages(|fs|) + 1 - p
  {
    var t := TotalPages(|fs|);
    if p <= t {
      ConcatPagesSuffix(fs, p + 1);
      PageContents(fs, p);
      var lo := (p - 1) * ItemsPerPage;
      var hi := Min(p * ItemsPerPage, |fs|);
      assert fs[lo..] == fs[lo..hi] + fs[hi..];
    }
  }

  /** Reading pages 1 to `totalPages` in turn shows every filtered machine
      exactly once, in order. */
  lemma PagesReconstruct<T>(fs: seq<T>)
    ensures ConcatPages(fs, 1, TotalPages(|fs|)) == fs
  {
    ConcatPagesSuffix(fs, 1);
  }

  /** The "previous" button is disabled on page 1, "next" on the last page. */
  predicate PrevEnabled(page: int) { page != 1 }

  predicate NextEnabled(page: int, total: nat) { page != total }

  /** Next is disabled only by equality: inside a non-empty page range it is
      enabled exactly before the last page, but with zero pages it is never
      disabled, and pressing it walks past every page. */
  lemma NextGuard(page: int, total: nat)
    ensures 1 <= page <= total ==> (NextEnabled(page, total) <==> page < total)
    ensures total == 0 && page >= 1 ==> NextEnabled(page, total) && NextEnabled(page + 1, total)
  {
  }

  /** The autoplay interval's update of the page. */
  function AutoPlayStep(prev: int, total: nat): (r: int)
    ensures prev >= 0 ==> r >= 1
    ensures prev >= total ==> r == 1
    ensures prev < total ==> r == prev + 1
  {
    if prev >= total then 1 else prev + 1
  }

  /** `k` autoplay steps. */
  function AutoPlayRun(p: int, total: nat, k: nat): int
    decreases k
  {
    if k == 0 then p else AutoPlayRun(AutoPlayStep(p, total), total, k - 1)
  }

  /** Autoplay keeps the page inside a non-empty range. */
  lemma AutoPlayInRange(prev: int, total: nat)
    requires 1 <= prev <= total
    ensures 1 <= AutoPlayStep(prev, total) <= total
  {
  }

  lemma {:induction false} AutoPlayAdvances(p: int, total: nat, k: nat)
    requires 1 <= p && p + k <= total
    ensures AutoPlayRun(p, total, k) == p + k
    decreases k
  {
    if k > 0 {
      AutoPlayAdvances(p + 1, total, k - 1);
    }
  }

  /** From page 1, autoplay shows pages 1, 2, ..., total in order and is
      back on page 1 after `total` steps. */
  lemma AutoPlayCycle(total: nat, k: nat)
    requires total >= 1
    ensures k < total ==> AutoPlayRun(1, total, k) == 1 + k
    ensures AutoPlayRun(1, total, total) == 1
  {
    if k < total {
      AutoPlayAdvances(1, total, k);
    }
    AutoPlayAdvances(1, total, total - 1);
    AutoPlayRunSplit(1, total, total - 1);
  }

  lemma {:induction false} AutoPlayRunSplit(p: int, total: nat, k: nat)
    ensures AutoPlayRun(p, total, k + 1) == AutoPlayStep(AutoPlayRun(p, total, k), total)
    decreases k
  {
    if k > 0 {
      AutoPlayRunSplit(AutoPlayStep(p, total), total, k - 1);
    }
  }

  // ------------------------------------------------------------ zones

  const Zones: seq<string> := [ZoneA, ZoneB, ZoneC]

  /** `filteredMachines.filter((m) => m.zone === zone)`. */
  function InZone(ms: seq<Machine>, z: string): (r: seq<Machine>)
    ensures |r| <= |ms|
    ensures forall m :: m in r <==> m in ms && m.zone == z
  {
    if ms == [] then []
    else if ms[0].zone == z then [ms[0]] + InZone(ms[1..], z)
    else InZone(ms[1..], z)
  }

  datatype ZoneGroup = ZoneGroup(zone: string, machines: seq<Machine>)

  function GroupsOver(fs: seq<Machine>, zones: seq<string>): seq<ZoneGroup>
  {
    if zones == [] then []
    else if |InZone(fs, zones[0])| == 0 then GroupsOver(fs, zones[1..])
    else [ZoneGroup(zones[0], InZone(fs, zones[0]))] + GroupsOver(fs, zones[1..])
  }

  /** The heatmap sections, in the order A区, B区, C区. */
  function HeatmapGroups(fs: seq<Machine>): seq<ZoneGroup>
  {
    GroupsOver(fs, Zones)
  }

  /** Each section holds the filtered machines of its zone, in order, and
      is never empty; a zone has a section exactly when it has a machine;
      sections follow the order of `zones`. */
  lemma {:induction false} GroupsOverFacts(fs: seq<Machine>, zones: seq<string>)
    ensures |GroupsOver(fs, zones)| <= |zones|
    ensures forall g :: g in GroupsOver(fs, zones) ==>
      g.zone in zones && g.machines == InZone(fs, g.zone) && g.machines != []
    ensures forall z :: z in zones ==>
      (InZone(fs, z) != [] <==> exists g :: g in GroupsOver(fs, zones) && g.zone == z)
  {
    if zones != [] {
      GroupsOverFacts(fs, zones[1..]);
      if InZone(fs, zones[0]) != [] {
        assert ZoneGroup(zones[0], InZone(fs, zones[0])) in GroupsOver(fs, zones);
      }
    }
  }

  /** The section a zone gets: none when it has no machine. */
  function Section(fs: seq<Machine>, z: string): seq<ZoneGroup>
  {
    if InZone(fs, z) == [] then [] else [ZoneGroup(z, InZone(fs, z))]
  }

  /** The heatmap is the A区 section, then B区, then C区, each present
      exactly when its zone has a filtered machine. */
  lemma HeatmapShape(fs: seq<Machine>)
    ensures HeatmapGroups(fs) == Section(fs, ZoneA) + Section(fs, ZoneB) + Section(fs, ZoneC)
  {
    assert Zones[1..] == [ZoneB, ZoneC];
    assert [ZoneB, ZoneC][1..] == [ZoneC];
    assert [ZoneC][1..] == [];
    assert GroupsOver(fs, [ZoneC]) == Section(fs, ZoneC);
    assert GroupsOver(fs, [ZoneB, ZoneC]) == Section(fs, ZoneB) + Section(fs, ZoneC);
  }

  /** Sections appear in the fixed zone order, each zone at most once. */
  lemma HeatmapOrder(fs: seq<Machine>, i: int, j: int)
    requires 0 <= i < j < |HeatmapGroups(fs)|
    ensures HeatmapGroups(fs)[i].zone != HeatmapGroups(fs)[j].zone
    ensures HeatmapGroups(fs)[i].zone == ZoneA || HeatmapGroups(fs)[j].zone == ZoneC
  {
    HeatmapShape(fs);
  }

  function GroupedCount(gs: seq<ZoneGroup>): nat
  {
    if gs == [] then 0 else |gs[0].machines| + GroupedCount(gs[1..])
  }

  lemma {:induction false} GroupedCountConcat(a: seq<ZoneGroup>, b: seq<ZoneGroup>)
    ensures GroupedCount(a + b) == GroupedCount(a) + GroupedCount(b)
  {
    if a != [] {
      assert (a + b)[0] == a[0];
      assert (a + b)[1..] == a[1..] + b;
      GroupedCountConcat(a[1..], b);
      assert GroupedCount(a + b) == |a[0].machines| + GroupedCount(a[1..] + b);
    } else {
      assert a + b == b;
    }
  }

  lemma SectionCount(fs: seq<Machine>, z: string)
    ensures GroupedCount(Section(fs, z)) == |InZone(fs, z)|
  {
    if InZone(fs, z) != [] {
      assert Section(fs, z)[1..] == [];
    }
  }

  lemma {:induction false} ZoneCountsAddUp(fs: seq<Machine>)
    requires forall k :: 0 <= k < |fs| ==> fs[k].zone in Zones
    ensures |InZone(fs, ZoneA)| + |InZone(fs, ZoneB)| + |InZone(fs, ZoneC)| == |fs|
  {
    if fs != [] {
      ZoneCountsAddUp(fs[1..]);
    }
  }

  /** When every machine sits in one of the three zones (as every generated
      machine does), the heatmap shows each filtered machine exactly once. */
  lemma HeatmapCoversFleet(fs: seq<Machine>)
    requires forall k :: 0 <= k < |fs| ==> fs[k].zone in Zones
    ensures GroupedCount(HeatmapGroups(fs)) == |fs|
  {
    ZoneCountsAddUp(fs);
    HeatmapShape(fs);
    GroupedCountConcat(Section(fs, ZoneA), Section(fs, ZoneB));
    GroupedCountConcat(Section(fs, ZoneA) + Section(fs, ZoneB), Section(fs, ZoneC));
    SectionCount(fs, ZoneA);
    SectionCount(fs, ZoneB);
    SectionCount(fs, ZoneC);
  }

  lemma ZoneRuleIsTotal(i: int)
    ensures ZoneFor(i) in Zones
  {
  }

  // --------------------------------------------------------- alarm queue

  /** The queue in the left column lists every ALARM machine of the whole
      fleet: the status filter plays no part. */
  function AlarmQueue(ms: seq<Machine>): (r: seq<Machine>)
    ensures forall m :: m in r <==> m in ms && m.status == Alarm
  {
    FilterMachines(ms, OnlyStatus(Alarm))
  }

  /** The badge over the queue counts exactly its entries, and the
      "no alarms" line shows exactly when the queue is empty. */
  lemma AlarmQueueMatchesBadge(ms: seq<Machine>)
    ensures |AlarmQueue(ms)| == StatsOf(ms).alarm
    ensures StatsOf(ms).alarm == 0 <==> AlarmQueue(ms) == []
  {
    FilterCountsStatus(ms, Alarm);
  }

  // ------------------------------------------------------ the page state

  class DashboardView {
    var viewMode: ViewMode
    var statusFilter: StatusFilter
    var currentPage: int
    var isAutoPlay: bool
    var selectedMachine: Option<Machine>

    /** Pages are counted from one; no handler takes the counter below. */
    ghost predicate Valid()
      reads this
    {
      currentPage >= 1
    }

    function Filtered(ms: seq<Machine>): seq<Machine>
      reads this
    {
      FilterMachines(ms, statusFilter)
    }

    function PageCount(ms: seq<Machine>): nat
      reads this
    {
      TotalPages(|Filtered(ms)|)
    }

    /** The cards of the grid view. */
    function Shown(ms: seq<Machine>): (r: seq<Machine>)
      reads this
      ensures |r| <= ItemsPerPage
      ensures forall m :: m in r ==> m in ms && Passes(m, statusFilter)
    {
      Paginate(Filtered(ms), currentPage)
    }

    /** The page stays within the counter whenever there is a page at all. */
    ghost predicate PageInRange(ms: seq<Machine>)
      reads this
    {
      PageCount(ms) > 0 ==> currentPage <= PageCount(ms)
    }

    constructor ()
      ensures viewMode == Heatmap && statusFilter == AllStatuses && currentPage == 1
      ensures !isAutoPlay && selectedMachine == None
      ensures Valid()
    {
      viewMode := Heatmap;
      statusFilter := AllStatuses;
      currentPage := 1;
      isAutoPlay := false;
      selectedMachine := None;
    }

    /** A filter button, followed by the reset effect, which only runs when
        the filter actually changed. */
    method SetStatusFilter(f: StatusFilter)
      requires Valid()
      modifies this`statusFilter, this`currentPage
      ensures statusFilter == f
      ensures currentPage == if f != old(statusFilter) then 1 else old(currentPage)
      ensures Valid()
    {
      if f != statusFilter {
        statusFilter := f;
        currentPage := 1;
      }
    }

    /** A view button, followed by the same reset effect. */
    method SetViewMode(v: ViewMode)
      requires Valid()
      modifies this`viewMode, this`currentPage
      ensures viewMode == v
      ensures currentPage == if v != old(viewMode) then 1 else old(currentPage)
      ensures Valid()
    {
      if v != viewMode {
        viewMode := v;
        currentPage := 1;
      }
    }

    /** The play/pause button, which is only rendered in the grid view. */
    method ToggleAutoPlay()
      modifies this`isAutoPlay
      ensures isAutoPlay == if viewMode == Grid then !old(isAutoPlay) else old(isAutoPlay)
    {
      if viewMode == Grid {
        isAutoPlay := !isAutoPlay;
      }
    }

    /** One firing of the five-second interval, which exists only while
        autoplay is on in the grid view. */
    method AutoPlayTick(ms: seq<Machine>)
      requires Valid()
      modifies this`currentPage
      ensures currentPage ==
        if isAutoPlay && viewMode == Grid then AutoPlayStep(old(currentPage), PageCount(ms))
        else old(currentPage)
      ensures Valid()
      ensures old(PageInRange(ms)) ==> PageInRange(ms)
    {
      if isAutoPlay && viewMode == Grid {
        currentPage := AutoPlayStep(currentPage, PageCount(ms));
      }
    }

    /** The "previous" button of the grid view. */
    method PrevPage()
      requires Valid()
      modifies this`currentPage
      ensures currentPage ==
        if viewMode == Grid && PrevEnabled(old(currentPage)) then old(currentPage) - 1 else old(currentPage)
      ensures Valid()
    {
      if viewMode == Grid && PrevEnabled(currentPage) {
        currentPage := currentPage - 1;
      }
    }

    /** The "next" button of the grid view. */
    method NextPage(ms: seq<Machine>)
      requires Valid()
      modifies this`currentPage
      ensures currentPage ==
        if viewMode == Grid && NextEnabled(old(currentPage), PageCount(ms)) then old(currentPage) + 1
        else old(currentPage)
      ensures Valid()
      ensures old(PageInRange(ms)) ==> PageInRange(ms)
    {
      if viewMode == Grid && NextEnabled(currentPage, PageCount(ms)) {
        currentPage := currentPage + 1;
      }
    }

    /** A click on a heatmap cell or an alarm queue entry. */
    method Select(m: Machine)
      modifies this`selectedMachine
      ensures selectedMachine == Some(m)
    {
      selectedMachine := Some(m);
    }

    /** The detail panel's close button. */
    method CloseDetail()
      modifies this`selectedMachine
      ensures selectedMachine == None
    {
      selectedMachine := None;
    }
  }
}
