/** One undisturbed run of `purge::run`: what it deletes, what it reports, and what a dry run promises. */
module Purge {
  import opened Common
  import opened JobTable
  import opened Paths
  import opened InputTable
  import opened Lifecycle

  datatype Opts = Opts(now: int, deleteGrace: int, cacheTtl: int, dryRun: bool) {
    function JobCutoff(): int { now - deleteGrace }
    function InputCutoff(): int { now - cacheTtl }
  }

  datatype Report = Report(jobsHardDeleted: nat, jobFilesRemoved: nat, inputsPurged: nat, inputFilesRemoved: nat)

  // ------------------------- what a purge is for -------------------------

  function StaleJobs(t: Table, cutoff: int): set<string> { set id | id in t && Stale(t[id], cutoff) }

  function NamesOf(r: Row): seq<string> { JobFiles(r.outputPath, r.thumbPath, r.previewPath) }

  /** The file names recorded for some jobs, counted per row and place. */
  function Slots(t: Table, ids: set<string>): set<(string, nat)> {
    set id, k: nat | id in ids && id in t && k < |NamesOf(t[id])| :: (id, k)
  }

  function Named(t: Table, ids: set<string>): set<string> {
    set id, p | id in ids && id in t && p in NamesOf(t[id]) :: p
  }

  predicate Referenced(t: Table, input: int) {
    exists id :: id in t && t[id].spec.inputId == input && t[id].deletedAt.None?
  }

  predicate StaleInput(t: Table, inputs: Inputs, id: int, cutoff: int) {
    PathIsSome(inputs, id) && inputs[id].lastUsedAt < cutoff && !Referenced(t, id)
  }

  function StaleInputs(t: Table, inputs: Inputs, cutoff: int): set<int> {
    set id | id in inputs && StaleInput(t, inputs, id, cutoff)
  }

  function Cached(inputs: Inputs, ids: set<int>): set<string> {
    set id | id in ids && PathIsSome(inputs, id) :: inputs[id].path.value
  }

  function Cleared(inputs: Inputs, ids: set<int>): Inputs {
    map id | id in inputs :: if id in ids then inputs[id].(path := None) else inputs[id]
  }

  // ------------------------------ counting ------------------------------

  lemma {:induction false} CountPlaces(id: string, n: nat)
    ensures |set k: nat | k < n :: (id, k)| == n
  {
    var all := set k: nat | k < n :: (id, k);
    if n == 0 {
      assert all == {};
    } else {
      CountPlaces(id, n - 1);
      assert all == (set k: nat | k < n - 1 :: (id, k)) + {(id, n - 1)};
    }
  }

  lemma SlotsGrow(t: Table, ids: set<string>, id: string)
    requires id in t && id !in ids
    ensures |Slots(t, ids + {id})| == |Slots(t, ids)| + |NamesOf(t[id])|
  {
    var own := set k: nat | k < |NamesOf(t[id])| :: (id, k);
    CountPlaces(id, |NamesOf(t[id])|);
    assert Slots(t, ids + {id}) == Slots(t, ids) + own;
    assert Slots(t, ids) !! own;
  }

  lemma NamedGrows(t: Table, ids: set<string>, id: string)
    requires id in t
    ensures Named(t, ids + {id}) == Named(t, ids) + SetOf(NamesOf(t[id]))
  {
  }

  function SetOf(paths: seq<string>): set<string> { set p | p in paths }

  lemma SetOfConcat(a: seq<string>, b: seq<string>)
    ensures SetOf(a + b) == SetOf(a) + SetOf(b)
  {
  }

  function IdsOf(stale: seq<StaleJob>): set<string> { set i | 0 <= i < |stale| :: stale[i].id }

  lemma IdsGrow(stale: seq<StaleJob>, i: nat)
    requires i < |stale|
    ensures IdsOf(stale[..i + 1]) == IdsOf(stale[..i]) + {stale[i].id}
  {
    assert stale[..i + 1] == stale[..i] + [stale[i]];
    forall id | id in IdsOf(stale[..i + 1]) ensures id in IdsOf(stale[..i]) + {stale[i].id} {
      var k :| 0 <= k < i + 1 && stale[..i + 1][k].id == id;
      assert k < i ==> stale[..i][k].id == id;
    }
    forall id | id in IdsOf(stale[..i]) ensures id in IdsOf(stale[..i + 1]) {
      var k :| 0 <= k < i && stale[..i][k].id == id;
      assert stale[..i + 1][k].id == id;
    }
    assert stale[..i + 1][i].id == stale[i].id;
  }

  lemma SnapshotIsComplete(t: Table, cutoff: int, stale: seq<StaleJob>)
    requires IsSnapshot(t, cutoff, stale)
    ensures IdsOf(stale) == StaleJobs(t, cutoff)
  {
  }

  function RowToPurge(t: Table, id: string): StaleJob
    requires id in t
  {
    StaleJob(id, t[id].outputPath, t[id].thumbPath, t[id].previewPath)
  }

  /** `stale` lists all rows to purge but those in `left`, each once. */
  ghost predicate PartOfSnapshot(t: Table, cutoff: int, stale: seq<StaleJob>, left: set<string>) {
    && (forall i, j :: 0 <= i < j < |stale| ==> stale[i].id != stale[j].id)
    && (forall id :: id in t && Stale(t[id], cutoff) && id !in left ==>
          exists i :: 0 <= i < |stale| && stale[i].id == id)
    && (forall i :: 0 <= i < |stale| ==>
         && stale[i].id !in left && stale[i].id in t && Stale(t[stale[i].id], cutoff)
         && stale[i] == RowToPurge(t, stale[i].id))
  }

  lemma SnapshotGrows(t: Table, cutoff: int, stale: seq<StaleJob>, left: set<string>, id: string)
    requires PartOfSnapshot(t, cutoff, stale, left) && id in left && id in t && Stale(t[id], cutoff)
    ensures PartOfSnapshot(t, cutoff, stale + [RowToPurge(t, id)], left - {id})
  {
    var stale' := stale + [RowToPurge(t, id)];
    forall other | other in t && Stale(t[other], cutoff) && other !in left - {id}
      ensures exists i :: 0 <= i < |stale'| && stale'[i].id == other
    {
      if other == id {
        assert stale'[|stale|].id == other;
      } else {
        var i :| 0 <= i < |stale| && stale[i].id == other;
        assert stale'[i].id == other;
      }
    }
  }

  /** All names the rows of a snapshot record, in purge's order. */
  function AllFiles(stale: seq<StaleJob>): seq<string> {
    if stale == [] then [] else AllFiles(stale[..|stale| - 1]) + FilesOf(stale[|stale| - 1])
  }

  predicate EachOnce(t: Table, stale: seq<StaleJob>) {
    && (forall i, j :: 0 <= i < j < |stale| ==> stale[i].id != stale[j].id)
    && (forall i :: 0 <= i < |stale| ==> stale[i].id in t && stale[i] == RowToPurge(t, stale[i].id))
  }

  /** Walking through distinct rows meets every recorded name, and every place one is recorded in, once. */
  lemma {:induction false} RowTotals(t: Table, stale: seq<StaleJob>)
    requires EachOnce(t, stale)
    ensures |IdsOf(stale)| == |stale|
    ensures SetOf(AllFiles(stale)) == Named(t, IdsOf(stale))
    ensures |AllFiles(stale)| == |Slots(t, IdsOf(stale))|
  {
    if stale == [] {
      assert IdsOf(stale) == {} && Named(t, {}) == {} && Slots(t, {}) == {};
    } else {
      var n := |stale| - 1;
      RowTotals(t, stale[..n]);
      LastIsNew(stale, n);
      LastNames(t, stale, n);
      OneMoreRow(t, IdsOf(stale[..n]), stale[n].id, AllFiles(stale[..n]));
    }
  }

  lemma LastNames(t: Table, stale: seq<StaleJob>, n: nat)
    requires EachOnce(t, stale) && |stale| == n + 1
    ensures AllFiles(stale) == AllFiles(stale[..n]) + NamesOf(t[stale[n].id])
  {
  }

  lemma LastIsNew(stale: seq<StaleJob>, n: nat)
    requires |stale| == n + 1
    requires forall i, j :: 0 <= i < j < |stale| ==> stale[i].id != stale[j].id
    ensures stale[n].id !in IdsOf(stale[..n]) && IdsOf(stale) == IdsOf(stale[..n]) + {stale[n].id}
  {
    IdsGrow(stale, n);
    assert stale[..n + 1] == stale;
    assert forall k :: 0 <= k < n ==> stale[..n][k] == stale[k] && stale[k].id != stale[n].id;
  }

  lemma OneMoreRow(t: Table, seen: set<string>, id: string, paths: seq<string>)
    requires id in t && id !in seen && SetOf(paths) == Named(t, seen) && |paths| == |Slots(t, seen)|
    ensures SetOf(paths + NamesOf(t[id])) == Named(t, seen + {id})
    ensures |paths + NamesOf(t[id])| == |Slots(t, seen + {id})|
    ensures |seen + {id}| == |seen| + 1
  {
    SetOfConcat(paths, NamesOf(t[id]));
    NamedGrows(t, seen, id);
    SlotsGrow(t, seen, id);
  }

  function DeleteAll(t: Table, stale: seq<StaleJob>): Table {
    if stale == [] then t else HardDelete(DeleteAll(t, stale[..|stale| - 1]), stale[|stale| - 1].id)
  }

  lemma DeleteAllGrows(t: Table, stale: seq<StaleJob>, i: nat)
    requires i < |stale|
    ensures DeleteAll(t, stale[..i + 1]) == HardDelete(DeleteAll(t, stale[..i]), stale[i].id)
    ensures AllFiles(stale[..i + 1]) == AllFiles(stale[..i]) + FilesOf(stale[i])
  {
    assert stale[..i + 1][..i] == stale[..i];
  }

  lemma {:induction false} DeleteAllIsMinus(t: Table, stale: seq<StaleJob>)
    ensures DeleteAll(t, stale) == t - IdsOf(stale)
  {
    if stale != [] {
      var n := |stale| - 1;
      DeleteAllIsMinus(t, stale[..n]);
      IdsGrow(stale, n);
      assert stale[..n + 1] == stale;
    }
  }

  function InputIdsOf(idle: seq<IdleInput>): set<int> { set i | 0 <= i < |idle| :: idle[i].id }

  function PathsOf(idle: seq<IdleInput>): seq<string> { seq(|idle|, i requires 0 <= i < |idle| => idle[i].path) }

  /** `idle` is the answer of purge's second SELECT, in some order. */
  predicate IsIdleSnapshot(t: Table, inputs: Inputs, cutoff: int, idle: seq<IdleInput>) {
    && (forall i, j :: 0 <= i < j < |idle| ==> idle[i].id != idle[j].id)
    && InputIdsOf(idle) == StaleInputs(t, inputs, cutoff)
    && (forall i :: 0 <= i < |idle| ==> PathIsSome(inputs, idle[i].id) && inputs[idle[i].id].path.value == idle[i].path)
  }

  function ClearAll(inputs: Inputs, idle: seq<IdleInput>): Inputs {
    if idle == [] then inputs else ClearPath(ClearAll(inputs, idle[..|idle| - 1]), idle[|idle| - 1].id)
  }

  lemma ClearAllGrows(inputs: Inputs, idle: seq<IdleInput>, i: nat)
    requires i < |idle|
    ensures ClearAll(inputs, idle[..i + 1]) == ClearPath(ClearAll(inputs, idle[..i]), idle[i].id)
    ensures PathsOf(idle[..i + 1]) == PathsOf(idle[..i]) + [idle[i].path]
  {
    assert idle[..i + 1][..i] == idle[..i];
  }

  lemma {:induction false} ClearAllIsCleared(inputs: Inputs, idle: seq<IdleInput>)
    ensures ClearAll(inputs, idle) == Cleared(inputs, InputIdsOf(idle))
  {
    if idle != [] {
      var n := |idle| - 1;
      ClearAllIsCleared(inputs, idle[..n]);
      InputIdsGrow(idle[..n], idle[n]);
      assert idle == idle[..n] + [idle[n]];
    }
  }

  lemma InputIdsGrow(idle: seq<IdleInput>, next: IdleInput)
    ensures InputIdsOf(idle + [next]) == InputIdsOf(idle) + {next.id}
  {
    var all := idle + [next];
    assert all[|idle|].id == next.id;
    forall id | id in InputIdsOf(idle) ensures id in InputIdsOf(all) {
      var k :| 0 <= k < |idle| && idle[k].id == id;
      assert all[k].id == id;
    }
  }

  lemma {:induction false} DistinctCount(idle: seq<IdleInput>)
    requires forall i, j :: 0 <= i < j < |idle| ==> idle[i].id != idle[j].id
    ensures |InputIdsOf(idle)| == |idle|
  {
    if idle == [] {
      assert InputIdsOf(idle) == {};
    } else {
      var n := |idle| - 1;
      DistinctCount(idle[..n]);
      InputIdsGrow(idle[..n], idle[n]);
      assert idle == idle[..n] + [idle[n]];
      assert forall k :: 0 <= k < n ==> idle[..n][k].id != idle[n].id;
    }
  }

  lemma PathsAreCached(t: Table, inputs: Inputs, cutoff: int, idle: seq<IdleInput>)
    requires IsIdleSnapshot(t, inputs, cutoff, idle)
    ensures SetOf(PathsOf(idle)) == Cached(inputs, StaleInputs(t, inputs, cutoff))
  {
    var ids := StaleInputs(t, inputs, cutoff);
    forall p | p in Cached(inputs, ids) ensures p in PathsOf(idle) {
      var id :| id in ids && PathIsSome(inputs, id) && inputs[id].path.value == p;
      var i :| 0 <= i < |idle| && idle[i].id == id;
      assert PathsOf(idle)[i] == p;
    }
    forall p | p in PathsOf(idle) ensures p in Cached(inputs, ids) {
      var i :| 0 <= i < |idle| && PathsOf(idle)[i] == p;
      assert idle[i].id in ids;
    }
  }

  /** The disk after unlinking `gone`, where `stuck` files stay. */
  function Without(files: set<string>, gone: set<string>, stuck: set<string>): set<string> { files - (gone - stuck) }

  function TryUnlink(files: set<string>, path: string, stuck: set<string>): set<string> {
    if path in files && path !in stuck then files - {path} else files
  }

  function UnlinkAll(files: set<string>, paths: seq<string>, stuck: set<string>): set<string> {
    if paths == [] then files
    else TryUnlink(UnlinkAll(files, paths[..|paths| - 1], stuck), paths[|paths| - 1], stuck)
  }

  lemma UnlinkAllGrows(files: set<string>, paths: seq<string>, path: string, stuck: set<string>)
    ensures UnlinkAll(files, paths + [path], stuck) == TryUnlink(UnlinkAll(files, paths, stuck), path, stuck)
  {
    assert (paths + [path])[..|paths|] == paths;
  }

  lemma {:induction false} UnlinkAllConcat(files: set<string>, a: seq<string>, b: seq<string>, stuck: set<string>)
    ensures UnlinkAll(files, a + b, stuck) == UnlinkAll(UnlinkAll(files, a, stuck), b, stuck)
  {
    if b == [] {
      assert a + b == a;
    } else {
      var n := |b| - 1;
      UnlinkAllConcat(files, a, b[..n], stuck);
      assert (a + b)[..|a| + n] == a + b[..n];
    }
  }

  /** In whatever order, unlinking takes away the named files that are not stuck. */
  lemma {:induction false} UnlinkAllIsWithout(files: set<string>, paths: seq<string>, stuck: set<string>)
    ensures UnlinkAll(files, paths, stuck) == Without(files, SetOf(paths), stuck)
  {
    if paths != [] {
      var n := |paths| - 1;
      UnlinkAllIsWithout(files, paths[..n], stuck);
      assert paths == paths[..n] + [paths[n]];
      SetOfConcat(paths[..n], [paths[n]]);
    }
  }

  /** Everything a purge can change. */
  datatype World = World(jobs: Table, inputs: Inputs, files: set<string>)

  /** What a real run leaves behind. */
  function Purged(w: World, opts: Opts, stuck: set<string>): World {
    var stale := StaleJobs(w.jobs, opts.JobCutoff());
    var jobs := w.jobs - stale;
    var idle := StaleInputs(jobs, w.inputs, opts.InputCutoff());
    World(jobs, Cleared(w.inputs, idle),
          Without(Without(w.files, Named(w.jobs, stale), stuck), Cached(w.inputs, idle), stuck))
  }

  /** A real run's file counts add up to the files that are gone; a dry run counts every recorded name. */
  predicate Reports(opts: Opts, w: World, w': World, r: Report) {
    var stale := StaleJobs(w.jobs, opts.JobCutoff());
    var idle := StaleInputs(w'.jobs, w.inputs, opts.InputCutoff());
    && r.jobsHardDeleted == |stale|
    && r.inputsPurged == |idle|
    && r.jobFilesRemoved <= |Slots(w.jobs, stale)|
    && r.inputFilesRemoved <= |idle|
    && (opts.dryRun ==> r.jobFilesRemoved == |Slots(w.jobs, stale)| && r.inputFilesRemoved == |idle|)
    && (!opts.dryRun ==> r.jobFilesRemoved + r.inputFilesRemoved == |w.files| - |w'.files|)
  }

  // --------------------- the same, column by column ----------------------

  lemma NamedAre(t: Table, ids: set<string>, p: string)
    ensures p in Named(t, ids) <==> exists id :: id in ids && id in t && IsFileOf(t[id], p)
  {
    forall id | id in ids && id in t ensures p in NamesOf(t[id]) <==> IsFileOf(t[id], p) {
      JobFilesAre(t[id].outputPath, t[id].thumbPath, t[id].previewPath);
    }
  }

  /** The jobs loop takes every file of a purged row but the stuck ones, and no other file. */
  lemma JobFilesGo(t: Table, cutoff: int, files: set<string>, stuck: set<string>)
    ensures var left := Without(files, Named(t, StaleJobs(t, cutoff)), stuck);
      && left <= files
      && (forall id, p :: id in t && Stale(t[id], cutoff) && IsFileOf(t[id], p) && p in left ==> p in stuck)
      && (forall p :: p in files && p !in left ==>
           p !in stuck && exists id :: id in t && Stale(t[id], cutoff) && IsFileOf(t[id], p))
  {
    forall p { NamedAre(t, StaleJobs(t, cutoff), p); }
  }

  /**
   What a real run does, given the rows deleted before the grace period and the inputs that hold a file,
   were last used before the cache's time to live, and belong to no visible job.
   */
  lemma PurgedIs(opts: Opts, w: World, stuck: set<string>, stale: set<string>, idle: set<int>)
    requires forall id :: id in stale <==>
      id in w.jobs && w.jobs[id].deletedAt.Some? && w.jobs[id].deletedAt.value < opts.now - opts.deleteGrace
    requires forall i :: i in idle <==>
      && i in w.inputs && w.inputs[i].path.Some? && w.inputs[i].lastUsedAt < opts.now - opts.cacheTtl
      && forall id :: id in w.jobs && w.jobs[id].spec.inputId == i ==> w.jobs[id].deletedAt.Some?
    ensures var v := Purged(w, opts, stuck);
      && v.jobs == w.jobs - stale
      && v.inputs.Keys == w.inputs.Keys
      && (forall i :: i in w.inputs ==> v.inputs[i] == if i in idle then w.inputs[i].(path := None) else w.inputs[i])
      && v.files <= w.files
      && (forall p :: p in w.files && p !in v.files ==> p !in stuck)
      && (forall p :: p in w.files && p !in v.files && (forall i :: i in idle ==> w.inputs[i].path != Some(p)) ==>
           exists id :: id in stale && IsFileOf(w.jobs[id], p))
      && (forall id, p :: id in stale && IsFileOf(w.jobs[id], p) && p in v.files ==> p in stuck)
      && (forall i :: i in idle && w.inputs[i].path.value in v.files ==> w.inputs[i].path.value in stuck)
  {
    assert StaleJobs(w.jobs, opts.JobCutoff()) == stale;
    DeletedJobsPinNothing(w.jobs, w.inputs, opts.JobCutoff(), opts.InputCutoff());
    IdleAre(w.jobs, w.inputs, opts.InputCutoff(), idle);
    forall p { NamedAre(w.jobs, stale, p); }
  }

  lemma IdleAre(t: Table, inputs: Inputs, cutoff: int, idle: set<int>)
    requires forall i :: i in idle <==>
      && i in inputs && inputs[i].path.Some? && inputs[i].lastUsedAt < cutoff
      && forall id :: id in t && t[id].spec.inputId == i ==> t[id].deletedAt.Some?
    ensures StaleInputs(t, inputs, cutoff) == idle
  {
    forall i ensures i in StaleInputs(t, inputs, cutoff) <==> i in idle {
      assert !Referenced(t, i) <==> forall id :: id in t && t[id].spec.inputId == i ==> t[id].deletedAt.Some?;
    }
  }

  /** The places a row is recorded in: one for its output, two each for its thumb and its preview. */
  lemma {:induction false} SlotsAre(t: Table, ids: set<string>, out: set<string>, thumb: set<string>, prev: set<string>)
    requires ids <= t.Keys
    requires forall id :: id in out <==> id in ids && t[id].outputPath.Some?
    requires forall id :: id in thumb <==> id in ids && t[id].thumbPath.Some?
    requires forall id :: id in prev <==> id in ids && t[id].previewPath.Some?
    ensures |Slots(t, ids)| == |out| + 2 * |thumb| + 2 * |prev|
    decreases ids
  {
    if ids == {} {
      assert Slots(t, ids) == {} && out == {} && thumb == {} && prev == {};
    } else {
      var id :| id in ids;
      SlotsAre(t, ids - {id}, out - {id}, thumb - {id}, prev - {id});
      assert ids - {id} + {id} == ids;
      SlotsGrow(t, ids - {id}, id);
      JobFilesAre(t[id].outputPath, t[id].thumbPath, t[id].previewPath);
    }
  }

  /** What a run reports, given the same rows and inputs, and which of the rows record an output, thumb and preview. */
  lemma ReportIs(opts: Opts, w: World, w': World, r: Report, stale: set<string>, idle: set<int>,
                 out: set<string>, thumb: set<string>, prev: set<string>)
    requires Reports(opts, w, w', r)
    requires w'.jobs == if opts.dryRun then w.jobs else w.jobs - stale
    requires forall id :: id in stale <==>
      id in w.jobs && w.jobs[id].deletedAt.Some? && w.jobs[id].deletedAt.value < opts.now - opts.deleteGrace
    requires forall i :: i in idle <==>
      && i in w.inputs && w.inputs[i].path.Some? && w.inputs[i].lastUsedAt < opts.now - opts.cacheTtl
      && forall id :: id in w.jobs && w.jobs[id].spec.inputId == i ==> w.jobs[id].deletedAt.Some?
    requires forall id :: id in out <==> id in stale && w.jobs[id].outputPath.Some?
    requires forall id :: id in thumb <==> id in stale && w.jobs[id].thumbPath.Some?
    requires forall id :: id in prev <==> id in stale && w.jobs[id].previewPath.Some?
    ensures r.jobsHardDeleted == |stale| && r.inputsPurged == |idle|
    ensures opts.dryRun ==> r.jobFilesRemoved == |out| + 2 * |thumb| + 2 * |prev| && r.inputFilesRemoved == |idle|
    ensures !opts.dryRun ==> r.jobFilesRemoved + r.inputFilesRemoved == |w.files| - |w'.files|
  {
    assert StaleJobs(w.jobs, opts.JobCutoff()) == stale;
    DeletedJobsPinNothing(w.jobs, w.inputs, opts.JobCutoff(), opts.InputCutoff());
    IdleAre(w.jobs, w.inputs, opts.InputCutoff(), idle);
    SlotsAre(w.jobs, stale, out, thumb, prev);
  }

  // --------------------------- the purge itself ---------------------------

  class Housekeeper {
    var jobs: Table
    var inputs: Inputs
    var files: set<string>
    const stuck: set<string>  // files that cannot be unlinked

    constructor (jobs: Table, inputs: Inputs, files: set<string>, stuck: set<string>)
      ensures this.jobs == jobs && this.inputs == inputs && this.files == files && this.stuck == stuck
    {
      this.jobs, this.inputs, this.files, this.stuck := jobs, inputs, files, stuck;
    }

    /** `remove_file`: a missing file and a refusal are both survived, and not counted. */
    method RemoveFile(path: string) returns (ok: bool)
      modifies this`files
      ensures ok <==> path in old(files) && path !in stuck
      ensures files == TryUnlink(old(files), path, stuck)
    {
      ok := path in files && path !in stuck;
      if ok { files := files - {path}; }
    }

    method RemoveFiles(paths: seq<string>, dryRun: bool) returns (removed: nat)
      modifies this`files
      ensures files == if dryRun then old(files) else UnlinkAll(old(files), paths, stuck)
      ensures removed <= |paths|
      ensures removed == if dryRun then |paths| else |old(files)| - |files|
    {
      removed := 0;
      for i := 0 to |paths|
        invariant files == if dryRun then old(files) else UnlinkAll(old(files), paths[..i], stuck)
        invariant removed <= i
        invariant removed == if dryRun then i else |old(files)| - |files|
      {
        assert paths[..i + 1] == paths[..i] + [paths[i]];
        if dryRun {
          removed := removed + 1;
        } else {
          UnlinkAllGrows(old(files), paths[..i], paths[i], stuck);
          var ok := RemoveFile(paths[i]);
          if ok { removed := removed + 1; }
        }
      }
      assert paths[..|paths|] == paths;
    }

    method SelectStaleJobs(cutoff: int) returns (stale: seq<StaleJob>)
      ensures IsSnapshot(jobs, cutoff, stale)
    {
      stale := [];
      var left := StaleJobs(jobs, cutoff);
      while left != {}
        invariant left <= StaleJobs(jobs, cutoff)
        invariant PartOfSnapshot(jobs, cutoff, stale, left)
        decreases left
      {
        var id :| id in left;
        SnapshotGrows(jobs, cutoff, stale, left, id);
        left := left - {id};
        stale := stale + [RowToPurge(jobs, id)];
      }
    }

    /** The first loop: unlink a row's files, delete the row, take the next. */
    method DeleteRows(stale: seq<StaleJob>, dryRun: bool) returns (deleted: nat, removed: nat)
      modifies this`jobs, this`files
      ensures deleted == |stale|
      ensures jobs == if dryRun then old(jobs) else DeleteAll(old(jobs), stale)
      ensures files == if dryRun then old(files) else UnlinkAll(old(files), AllFiles(stale), stuck)
      ensures removed <= |AllFiles(stale)|
      ensures removed == if dryRun then |AllFiles(stale)| else |old(files)| - |files|
    {
      deleted, removed := 0, 0;
      for i := 0 to |stale|
        invariant deleted == i
        invariant jobs == if dryRun then old(jobs) else DeleteAll(old(jobs), stale[..i])
        invariant files == if dryRun then old(files) else UnlinkAll(old(files), AllFiles(stale[..i]), stuck)
        invariant removed <= |AllFiles(stale[..i])|
        invariant removed == if dryRun then |AllFiles(stale[..i])| else |old(files)| - |files|
      {
        DeleteAllGrows(old(jobs), stale, i);
        UnlinkAllConcat(old(files), AllFiles(stale[..i]), FilesOf(stale[i]), stuck);
        var n := RemoveFiles(FilesOf(stale[i]), dryRun);
        removed := removed + n;
        if !dryRun { jobs := HardDelete(jobs, stale[i].id); }
        deleted := deleted + 1;
      }
      assert stale[..|stale|] == stale;
    }

    method PurgeJobs(cutoff: int, dryRun: bool) returns (deleted: nat, removed: nat)
      modifies this`jobs, this`files
      ensures deleted == |StaleJobs(old(jobs), cutoff)|
      ensures jobs == if dryRun then old(jobs) else old(jobs) - StaleJobs(old(jobs), cutoff)
      ensures files == if dryRun then old(files)
                       else Without(old(files), Named(old(jobs), StaleJobs(old(jobs), cutoff)), stuck)
      ensures removed <= |Slots(old(jobs), StaleJobs(old(jobs), cutoff))|
      ensures removed == if dryRun then |Slots(old(jobs), StaleJobs(old(jobs), cutoff))| else |old(files)| - |files|
      // row by row: what goes, that its five files go with it, and that nothing else does
      ensures !dryRun ==> forall id :: id in old(jobs) ==>
                (id !in jobs <==> old(jobs)[id].deletedAt.Some? && old(jobs)[id].deletedAt.value < cutoff)
      ensures forall id, p :: id in old(jobs) && id !in jobs && IsFileOf(old(jobs)[id], p) && p in files ==> p in stuck
      ensures forall p :: p in old(files) && p !in files ==>
                p !in stuck && exists id :: id in old(jobs) && id !in jobs && IsFileOf(old(jobs)[id], p)
    {
      JobFilesGo(jobs, cutoff, files, stuck);
      var stale := SelectStaleJobs(cutoff);
      RowTotals(jobs, stale);
      SnapshotIsComplete(jobs, cutoff, stale);
      DeleteAllIsMinus(jobs, stale);
      UnlinkAllIsWithout(files, AllFiles(stale), stuck);
      deleted, removed := DeleteRows(stale, dryRun);
    }

    method SelectStaleInputs(cutoff: int) returns (idle: seq<IdleInput>)
      ensures IsIdleSnapshot(jobs, inputs, cutoff, idle)
    {
      idle := [];
      var left := StaleInputs(jobs, inputs, cutoff);
      while left != {}
        invariant left + InputIdsOf(idle) == StaleInputs(jobs, inputs, cutoff) && left !! InputIdsOf(idle)
        invariant forall i, j :: 0 <= i < j < |idle| ==> idle[i].id != idle[j].id
        invariant forall i :: 0 <= i < |idle| ==>
                    PathIsSome(inputs, idle[i].id) && inputs[idle[i].id].path.value == idle[i].path
        decreases left
      {
        var id :| id in left;
        left := left - {id};
        InputIdsGrow(idle, IdleInput(id, inputs[id].path.value));
        assert forall i :: 0 <= i < |idle| ==> idle[i].id in InputIdsOf(idle);
        idle := idle + [IdleInput(id, inputs[id].path.value)];
      }
    }

    /** The second loop: unlink the cached file, clear the path, take the next. */
    method ClearRows(idle: seq<IdleInput>, dryRun: bool) returns (purged: nat, removed: nat)
      modifies this`inputs, this`files
      ensures purged == |idle|
      ensures inputs == if dryRun then old(inputs) else ClearAll(old(inputs), idle)
      ensures files == if dryRun then old(files) else UnlinkAll(old(files), PathsOf(idle), stuck)
      ensures removed <= purged
      ensures removed == if dryRun then purged else |old(files)| - |files|
    {
      purged, removed := 0, 0;
      for i := 0 to |idle|
        invariant purged == i
        invariant inputs == if dryRun then old(inputs) else ClearAll(old(inputs), idle[..i])
        invariant files == if dryRun then old(files) else UnlinkAll(old(files), PathsOf(idle[..i]), stuck)
        invariant removed <= i
        invariant removed == if dryRun then i else |old(files)| - |files|
      {
        ClearAllGrows(old(inputs), idle, i);
        UnlinkAllGrows(old(files), PathsOf(idle[..i]), idle[i].path, stuck);
        if dryRun {
          removed := removed + 1;
        } else {
          var ok := RemoveFile(idle[i].path);
          if ok { removed := removed + 1; }
          inputs := ClearPath(inputs, idle[i].id);
        }
        purged := purged + 1;
      }
      assert idle[..|idle|] == idle;
    }

    method PurgeInputs(cutoff: int, dryRun: bool) returns (purged: nat, removed: nat)
      modifies this`inputs, this`files
      ensures purged == |StaleInputs(jobs, old(inputs), cutoff)|
      ensures inputs == if dryRun then old(inputs) else Cleared(old(inputs), StaleInputs(jobs, old(inputs), cutoff))
      ensures files == if dryRun then old(files)
                       else Without(old(files), Cached(old(inputs), StaleInputs(jobs, old(inputs), cutoff)), stuck)
      ensures removed <= purged
      ensures removed == if dryRun then purged else |old(files)| - |files|
    {
      var idle := SelectStaleInputs(cutoff);
      DistinctCount(idle);
      ClearAllIsCleared(inputs, idle);
      PathsAreCached(jobs, inputs, cutoff, idle);
      UnlinkAllIsWithout(files, PathsOf(idle), stuck);
      purged, removed := ClearRows(idle, dryRun);
    }

    ghost function Contents(): World
      reads this
    {
      World(jobs, inputs, files)
    }

    /** `purge::run`, with the sweep of ComfyUI's directories switched off. */
    method Run(opts: Opts) returns (report: Report)
      modifies this`jobs, this`inputs, this`files
      ensures Contents() == if opts.dryRun then old(Contents()) else Purged(old(Contents()), opts, stuck)
      ensures Reports(opts, old(Contents()), Contents(), report)
      ensures forall id, p :: id in old(jobs) && id !in jobs && IsFileOf(old(jobs)[id], p) && p in files ==> p in stuck
    {
      var deleted, jobFiles := PurgeJobs(opts.JobCutoff(), opts.dryRun);
      var purged, inputFiles := PurgeInputs(opts.InputCutoff(), opts.dryRun);
      report := Report(deleted, jobFiles, purged, inputFiles);
    }
  }

  // ------------------------------ theorems ------------------------------

  /** The jobs a purge deletes keep no input alive, so deleting them first frees no further input. */
  lemma DeletedJobsPinNothing(t: Table, inputs: Inputs, jobCutoff: int, inputCutoff: int)
    ensures StaleInputs(t - StaleJobs(t, jobCutoff), inputs, inputCutoff) == StaleInputs(t, inputs, inputCutoff)
  {
    var left := t - StaleJobs(t, jobCutoff);
    forall i ensures Referenced(left, i) <==> Referenced(t, i) {
      if Referenced(t, i) {
        var id :| id in t && t[id].spec.inputId == i && t[id].deletedAt.None?;
        assert id in left;
      }
    }
  }

  /** A dry run announces the rows a real run would take, and at least as many files. */
  lemma DryRunForecasts(opts: Opts, w: World, v: World, forecast: Report, actual: Report)
    requires opts.dryRun && Reports(opts, w, w, forecast)
    requires v.jobs == w.jobs - StaleJobs(w.jobs, opts.JobCutoff())
    requires Reports(opts.(dryRun := false), w, v, actual)
    ensures forecast.jobsHardDeleted == actual.jobsHardDeleted
    ensures forecast.inputsPurged == actual.inputsPurged
    ensures forecast.jobFilesRemoved >= actual.jobFilesRemoved
    ensures forecast.inputFilesRemoved >= actual.inputFilesRemoved
  {
    var stale := StaleJobs(w.jobs, opts.JobCutoff());
    assert stale == StaleJobs(w.jobs, opts.(dryRun := false).JobCutoff());
    DeletedJobsPinNothing(w.jobs, w.inputs, opts.JobCutoff(), opts.InputCutoff());
    assert actual.jobFilesRemoved <= |Slots(w.jobs, stale)| == forecast.jobFilesRemoved;
  }

  /** A second purge with the same options finds nothing at all. */
  lemma PurgeIsIdempotent(opts: Opts, w: World, stuck: set<string>)
    ensures Purged(Purged(w, opts, stuck), opts, stuck) == Purged(w, opts, stuck)
    ensures StaleJobs(Purged(w, opts, stuck).jobs, opts.JobCutoff()) == {}
    ensures StaleInputs(Purged(w, opts, stuck).jobs, Purged(w, opts, stuck).inputs, opts.InputCutoff()) == {}
  {
    var v := Purged(w, opts, stuck);
    var idle := StaleInputs(v.jobs, w.inputs, opts.InputCutoff());
    assert StaleJobs(v.jobs, opts.JobCutoff()) == {};
    assert v.jobs - {} == v.jobs;
    forall id ensures !StaleInput(v.jobs, v.inputs, id, opts.InputCutoff()) {
      if id in v.inputs && id !in idle { assert v.inputs[id] == w.inputs[id]; }
    }
    assert StaleInputs(v.jobs, v.inputs, opts.InputCutoff()) == {};
    assert Cleared(v.inputs, {}) == v.inputs;
    assert Named(v.jobs, {}) == {} && Cached(v.inputs, {}) == {};
  }

  lemma SecondPurgeReportsNothing(opts: Opts, w: World, stuck: set<string>, again: World, r: Report)
    requires Reports(opts, Purged(w, opts, stuck), again, r)
    requires again == if opts.dryRun then Purged(w, opts, stuck) else Purged(Purged(w, opts, stuck), opts, stuck)
    ensures r == Report(0, 0, 0, 0) && again == Purged(w, opts, stuck)
  {
    var v := Purged(w, opts, stuck);
    PurgeIsIdempotent(opts, w, stuck);
    DeletedJobsPinNothing(v.jobs, v.inputs, opts.JobCutoff(), opts.InputCutoff());
    assert Slots(v.jobs, {}) == {};
  }

  /** Names on disk: what the rest of the program keeps true of ids, output names and cache paths. */
  predicate WellNamed(w: World) {
    && WellNamedInputs(w.inputs)
    && forall id :: id in w.jobs ==>
         IsUuid(id) && NamesOwnFiles(id, w.jobs[id].outputPath, w.jobs[id].thumbPath, w.jobs[id].previewPath)
  }

  /** An input some live job uses keeps its row, its path and its file. */
  lemma LiveInputsSurvive(opts: Opts, w: World, stuck: set<string>, id: int)
    requires WellNamed(w) && id in w.inputs && Referenced(w.jobs, id)
    ensures var v := Purged(w, opts, stuck);
            && id in v.inputs && v.inputs[id] == w.inputs[id]
            && (w.inputs[id].path.Some? && w.inputs[id].path.value in w.files ==> w.inputs[id].path.value in v.files)
  {
    DeletedJobsPinNothing(w.jobs, w.inputs, opts.JobCutoff(), opts.InputCutoff());
    if w.inputs[id].path.Some? {
      var path := w.inputs[id].path.value;
      var idle := StaleInputs(w.jobs, w.inputs, opts.InputCutoff());
      forall other | other in idle ensures w.inputs[other].path != Some(path) {
        if w.inputs[other].path == Some(path) { CachePathOwner(w.inputs[id].sha256, w.inputs[other].sha256, path); }
      }
      CacheIsNotNamed(w, path, StaleJobs(w.jobs, opts.JobCutoff()), w.inputs[id].sha256);
    }
  }

  lemma CacheIsNotNamed(w: World, path: string, ids: set<string>, sha: string)
    requires WellNamed(w) && IsCachePathOf(sha, path)
    ensures path !in Named(w.jobs, ids)
  {
    assert path[0] == 'c';
    forall id | id in ids && id in w.jobs ensures path !in NamesOf(w.jobs[id]) {
      if path in NamesOf(w.jobs[id]) {
        OwnsWhatItNames(w, id, path);
        OwnerAt(id, path);
      }
    }
  }

  lemma OwnsWhatItNames(w: World, id: string, path: string)
    requires WellNamed(w) && id in w.jobs && path in NamesOf(w.jobs[id])
    ensures OwnedBy(id, path)
  {
    var r := w.jobs[id];
    JobFilesAreOwned(id, r.outputPath, r.thumbPath, r.previewPath, path);
  }

  /** A job that is not stale keeps its row and every file that carries its name. */
  lemma KeptJobsKeepTheirFiles(opts: Opts, w: World, stuck: set<string>, id: string, path: string)
    requires WellNamed(w) && id in w.jobs && !Stale(w.jobs[id], opts.JobCutoff())
    requires OwnedBy(id, path) && path in w.files
    ensures id in Purged(w, opts, stuck).jobs && Purged(w, opts, stuck).jobs[id] == w.jobs[id]
    ensures path in Purged(w, opts, stuck).files
  {
    var stale := StaleJobs(w.jobs, opts.JobCutoff());
    forall other | other in stale ensures path !in NamesOf(w.jobs[other]) {
      if path in NamesOf(w.jobs[other]) {
        OwnsWhatItNames(w, other, path);
        OwnerIsUnique(id, other, path);
      }
    }
    OwnerAt(id, path);
    forall i | i in w.inputs && w.inputs[i].path.Some? ensures w.inputs[i].path.value != path {
      assert w.inputs[i].path.value[0] == 'c';
    }
  }
}
