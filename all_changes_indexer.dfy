/** Reindexing all changes of a site: projects (less the skipped ones) are split into slices of at most
    a thousand changes each, a change belonging to the slice its id selects modulo the slice count;
    scheduling is abandoned when more than half of the projects cannot be read, and the new index is
    not marked ready when more than a tenth of the changes failed. */
module ChangeIndexing {
  import opened Common

  const PROJECT_SLICE_MAX_REFS: nat := 1000

  /** The number of slices a project with `size` changes is indexed in: none for an empty project. */
  function SliceCount(size: nat): nat {
    if size > 0 then 1 + (size - 1) / PROJECT_SLICE_MAX_REFS else 0
  }

  /** The slice count is the size divided by a thousand, rounded up. */
  lemma SliceCountIsCeiling(size: nat)
    ensures size == 0 ==> SliceCount(size) == 0
    ensures size > 0 ==>
      (SliceCount(size) - 1) * PROJECT_SLICE_MAX_REFS < size <= SliceCount(size) * PROJECT_SLICE_MAX_REFS
  {
  }

  /** The filter a slice scans with: Java's remainder of the change id by the slice count. */
  predicate InSlice(id: int, slice: int, slices: int)
    requires slices > 0
  {
    JavaRem(id, slices) == slice
  }

  /** Every non-negative id falls into exactly one of the slices `0 … slices - 1`; a negative id, whose
      remainder is negative, is only ever picked up by slice 0. */
  lemma SlicesPartition(id: int, slices: nat)
    requires slices > 0
    ensures id >= 0 ==> 0 <= id % slices < slices && InSlice(id, id % slices, slices)
    ensures id >= 0 ==> forall s :: InSlice(id, s, slices) <==> s == id % slices
    ensures id < 0 ==> forall s :: 0 <= s < slices && InSlice(id, s, slices) ==> s == 0
  {
  }

  datatype ProjectSlice = ProjectSlice(name: string, slice: nat, slices: nat, changeIds: seq<int>)

  /** What reading a project's repository gives: nothing, or the ids of its changes. */
  datatype ProjectScan = ReadFailed | Scanned(changeIds: seq<int>)

  /** What `schedule` gathers: the slices submitted, the number of changes, the projects that failed. */
  datatype Schedule = Schedule(slices: seq<ProjectSlice>, changeCount: nat, projectsFailed: nat)

  /** The slices `ProjectSliceCreator` submits for one project. */
  function SlicesOf(name: string, ids: seq<int>): (r: seq<ProjectSlice>)
    ensures |r| == SliceCount(|ids|)
  {
    seq(SliceCount(|ids|), i requires 0 <= i < SliceCount(|ids|) => ProjectSlice(name, i, SliceCount(|ids|), ids))
  }

  /** The projects handled in `order`. */
  function ScheduleAll(order: seq<string>, scan: string -> ProjectScan): Schedule {
    if |order| == 0 then Schedule([], 0, 0)
    else
      var s := ScheduleAll(order[..|order| - 1], scan);
      var name := order[|order| - 1];
      match scan(name)
      case ReadFailed => s.(projectsFailed := s.projectsFailed + 1)
      case Scanned(ids) => Schedule(s.slices + SlicesOf(name, ids), s.changeCount + |ids|, s.projectsFailed)
  }

  const ABORT_MESSAGE: string := "Over 50%% of the projects could not be collected: aborted"

  /** `schedule`: refused when the failed projects exceed half the project count, rounded down. */
  function Scheduled(projects: set<string>, order: seq<string>, scan: string -> ProjectScan): Result<Schedule, string> {
    var s := ScheduleAll(order, scan);
    if s.projectsFailed > |projects| / 2 then Err(ABORT_MESSAGE) else Ok(s)
  }

  /** Every submitted slice belongs to a project in the order that was read, has the slice count of its
      size and a slice number below it; every read project with changes has all its slices submitted;
      and the failure count never exceeds the projects. */
  lemma {:induction false} ScheduleAllFacts(order: seq<string>, scan: string -> ProjectScan)
    ensures var s := ScheduleAll(order, scan);
      && s.projectsFailed <= |order|
      && (forall sl :: sl in s.slices ==>
            sl.name in order && scan(sl.name) == Scanned(sl.changeIds)
            && sl.slices == SliceCount(|sl.changeIds|) && sl.slice < sl.slices)
      && (forall p, k :: p in order && scan(p).Scanned? && 0 <= k < SliceCount(|scan(p).changeIds|) ==>
            ProjectSlice(p, k, SliceCount(|scan(p).changeIds|), scan(p).changeIds) in s.slices)
  {
    if |order| > 0 {
      var pre := order[..|order| - 1];
      var name := order[|order| - 1];
      ScheduleAllFacts(pre, scan);
      assert order == pre + [name];
      var s := ScheduleAll(order, scan);
      var s0 := ScheduleAll(pre, scan);
      forall p, k | p in order && scan(p).Scanned? && 0 <= k < SliceCount(|scan(p).changeIds|)
        ensures ProjectSlice(p, k, SliceCount(|scan(p).changeIds|), scan(p).changeIds) in s.slices
      {
        if p == name {
          assert SlicesOf(name, scan(p).changeIds)[k] == ProjectSlice(p, k, SliceCount(|scan(p).changeIds|), scan(p).changeIds);
        }
      }
    }
  }

  /** Only projects outside the skip set are scheduled, and scheduling is abandoned exactly when more than
      half of them fail. */
  lemma SkippedNeverScheduled(all: set<string>, skip: set<string>, order: seq<string>, scan: string -> ProjectScan)
    requires Enumerates(order, all - skip)
    ensures var r := Scheduled(all - skip, order, scan);
      && (r.Ok? ==> forall sl :: sl in r.value.slices ==> sl.name in all && sl.name !in skip)
      && (r.Err? <==> ScheduleAll(order, scan).projectsFailed > |all - skip| / 2)
  {
    ScheduleAllFacts(order, scan);
  }

  /** When no project fails, scheduling goes ahead; when every one of at least one project fails, it is
      abandoned. */
  lemma AbortThreshold(projects: set<string>, order: seq<string>, scan: string -> ProjectScan)
    requires Enumerates(order, projects)
    ensures (forall p :: p in projects ==> scan(p).Scanned?) ==> Scheduled(projects, order, scan).Ok?
    ensures |projects| > 0 && (forall p :: p in projects ==> scan(p).ReadFailed?) ==> Scheduled(projects, order, scan).Err?
  {
    EnumeratesSize(order, projects);
    if forall p :: p in projects ==> scan(p).Scanned? {
      NoFailures(order, scan);
    }
    if forall p :: p in projects ==> scan(p).ReadFailed? {
      AllFail(order, scan);
    }
  }

  lemma {:induction false} NoFailures(order: seq<string>, scan: string -> ProjectScan)
    requires forall i :: 0 <= i < |order| ==> scan(order[i]).Scanned?
    ensures ScheduleAll(order, scan).projectsFailed == 0
  {
    if |order| > 0 {
      NoFailures(order[..|order| - 1], scan);
    }
  }

  lemma {:induction false} AllFail(order: seq<string>, scan: string -> ProjectScan)
    requires forall i :: 0 <= i < |order| ==> scan(order[i]).ReadFailed?
    ensures ScheduleAll(order, scan).projectsFailed == |order|
  {
    if |order| > 0 {
      AllFail(order[..|order| - 1], scan);
    }
  }

  lemma EnumeratesSize(order: seq<string>, s: set<string>)
    requires Enumerates(order, s)
    ensures |order| == |s|
  {
    DistinctCard(order);
    assert (set i | 0 <= i < |order| :: order[i]) == s;
  }

  lemma {:induction false} DistinctCard(order: seq<string>)
    requires forall i, j :: 0 <= i < j < |order| ==> order[i] != order[j]
    ensures |set i | 0 <= i < |order| :: order[i]| == |order|
  {
    if |order| > 0 {
      var pre := order[..|order| - 1];
      var last := order[|order| - 1];
      DistinctCard(pre);
      assert (set i | 0 <= i < |order| :: order[i]) == (set i | 0 <= i < |pre| :: pre[i]) + {last};
      assert last !in (set i | 0 <= i < |pre| :: pre[i]);
    }
  }

  /** The slice loop of `ProjectSliceCreator`. */
  method SubmitSlices(name: string, ids: seq<int>) returns (r: seq<ProjectSlice>)
    ensures r == SlicesOf(name, ids)
  {
    var slices := SliceCount(|ids|);
    r := [];
    for slice := 0 to slices
      invariant |r| == slice
      invariant forall i :: 0 <= i < slice ==> r[i] == ProjectSlice(name, i, slices, ids)
    {
      r := r + [ProjectSlice(name, slice, slices, ids)];
    }
  }

  /** `schedule`: every project outside the skip set is read in the set's iteration order `order`, and
      its slices submitted. */
  method ScheduleSlices(all: set<string>, skip: set<string>, order: seq<string>, scan: string -> ProjectScan)
    returns (r: Result<Schedule, string>)
    requires Enumerates(order, all - skip)
    ensures r == Scheduled(all - skip, order, scan)
  {
    var projectCount := |all - skip|;
    var sliceIndexerFutures: seq<ProjectSlice> := [];
    var changeCount: nat := 0;
    var projectsFailed: nat := 0;
    for i := 0 to |order|
      invariant ScheduleAll(order[..i], scan) == Schedule(sliceIndexerFutures, changeCount, projectsFailed)
    {
      assert order[..i + 1][..i] == order[..i];
      var name := order[i];
      match scan(name)
      case ReadFailed =>
        projectsFailed := projectsFailed + 1;
      case Scanned(ids) =>
        changeCount := changeCount + |ids|;
        if |ids| > 0 {
          var slices := SubmitSlices(name, ids);
          sliceIndexerFutures := sliceIndexerFutures + slices;
        } else {
          assert SlicesOf(name, ids) == [];
        }
    }
    assert order[..|order|] == order;
    if projectsFailed > projectCount / 2 {
      return Err(ABORT_MESSAGE);
    }
    return Ok(Schedule(sliceIndexerFutures, changeCount, projectsFailed));
  }

  // ---------------------------------------------------------------------------
  // The outcome

  datatype IndexResult = IndexResult(success: bool, doneCount: nat, failedCount: nat)

  /** The readiness rule: more than ten percent failed changes, stated on integers. */
  predicate TooManyFailed(nFailed: nat, nDone: nat) {
    10 * nFailed > nFailed + nDone
  }

  /** The integer rule agrees with the percentage computed on reals, whenever there is a change at all;
      with none, the percentage is undefined and the comparison false, as the rule is. */
  lemma TooManyFailedIsPercentage(nFailed: nat, nDone: nat)
    ensures nFailed + nDone == 0 ==> !TooManyFailed(nFailed, nDone)
    ensures nFailed + nDone > 0 ==>
      (TooManyFailed(nFailed, nDone) <==> (nFailed as real) / ((nFailed + nDone) as real) * 100.0 > 10.0)
  {
    if nFailed + nDone > 0 {
      var t := (nFailed + nDone) as real;
      var f := nFailed as real;
      var q := f / t;
      assert q * t == f;
      ScaleReal(q * 100.0, 10.0, t);
      assert q * 100.0 * t == f * 100.0;
    }
  }

  lemma ScaleReal(a: real, b: real, t: real)
    requires t > 0.0
    ensures a > b <==> a * t > b * t
  {
  }

  /** `indexAll`: no counts when scheduling is abandoned; otherwise the counts, and success when nothing
      went wrong while waiting (`waitOk`) and not too many changes failed. */
  function IndexAllResult(schedule: Result<Schedule, string>, waitOk: bool, nDone: nat, nFailed: nat): (r: IndexResult)
    ensures schedule.Err? ==> r == IndexResult(false, 0, 0)
    ensures schedule.Ok? ==> r.doneCount == nDone && r.failedCount == nFailed
    ensures schedule.Ok? ==> (r.success <==> waitOk && 10 * nFailed <= nFailed + nDone)
  {
    if schedule.Err? then IndexResult(false, 0, 0)
    else IndexResult(waitOk && !TooManyFailed(nFailed, nDone), nDone, nFailed)
  }
}
