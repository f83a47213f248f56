/** The worker's drain loop and `process_job`, run with nobody else touching the table. */
module Drain {
  import opened Common
  import opened JobTable
  import opened KeyOrder
  import opened Paths
  import opened JobStore
  import opened LifecycleRows
  import opened Lifecycle
  import LifecycleInvariant
  import Comfy

  datatype HistoryEntry = HistoryEntry(succeeded: bool, images: seq<string>)

  /**
   Everything outside the table that the processing of one job meets. A retried call carries the
   answers its three tries would get; error texts are as stored, already redacted.
   */
  datatype Attempt = Attempt(
    claimedAt: int,
    endedAt: int,
    input: Option<Option<string>>,     // the inputs row and its path: no row, purged, or a file name
    templateSupported: bool,
    inputReadable: bool,
    upload: seq<Comfy.Response<string>>,
    socket: Comfy.Response<bool>,
    submit: seq<Comfy.Response<string>>,
    frames: seq<Comfy.Frame>,          // received before the per-job timeout
    timedOut: bool,
    history: seq<Comfy.Response<Option<HistoryEntry>>>,
    view: seq<Comfy.Response<bool>>,
    saved: bool,                       // the output file was written
    width: Option<int>,
    height: Option<int>)

  predicate Answered(a: Attempt) {
    |a.upload| == |a.submit| == |a.history| == |a.view| == Comfy.MAX_ATTEMPTS
  }

  function FromError(e: Comfy.Error): Outcome {
    if Comfy.IsUnreachable(e) then Unreachable else Errored(e.text)
  }

  datatype Stage = Stopped(outcome: Outcome) | Going(promptId: string)

  /** From the claim to the stored prompt id. */
  function Submission(a: Attempt): Stage
    requires Answered(a)
  {
    if a.input.None? then Stopped(Errored("input row disappeared"))
    else if a.input.value.None? then Stopped(Errored("input file purged"))
    else if !a.templateSupported then Stopped(Errored("workflow not supported"))
    else if !a.inputReadable then Stopped(Errored("read input"))
    else
      match Comfy.Retried(a.upload, Comfy.Safe)
      case Err(e) => Stopped(FromError(e))
      case Ok(_) =>
        match a.socket
        case Err(e) => Stopped(FromError(e))
        case Ok(_) =>
          match Comfy.Retried(a.submit, Comfy.ConnectOnly)
          case Err(e) => Stopped(FromError(e))
          case Ok(promptId) => Going(promptId)
  }

  /** From the submitted prompt to the saved output. */
  function Collection(id: string, promptId: string, a: Attempt): Outcome
    requires Answered(a)
  {
    if a.timedOut then Errored("comfyui timeout")
    else if !Comfy.Await(a.frames, promptId).result.Completed? then Errored("comfy stream failed")
    else
      match Comfy.Retried(a.history, Comfy.Safe)
      case Err(e) => FromError(e)
      case Ok(entry) =>
        if entry.None? then Errored("comfy history empty")
        else if !entry.value.succeeded then Errored("comfyui execution failed")
        else
          match Comfy.PrimaryOutput(entry.value.images, OutputPrefix(id))
          case None => Errored("no output image matched")
          case Some(f) =>
            match Comfy.Retried(a.view, Comfy.Safe)
            case Err(e) => FromError(e)
            case Ok(_) =>
              if DataPath(OUTPUTS, f).None? || !a.saved then Errored("save output")
              else Produced(DataPath(OUTPUTS, f).value, a.width, a.height)
  }

  function Judge(id: string, a: Attempt): Outcome
    requires Answered(a)
  {
    match Submission(a)
    case Stopped(o) => o
    case Going(promptId) => Collection(id, promptId, a)
  }

  // ------------------------ how an attempt ends --------------------------

  /** The job has a cached input that can be read, and a supported workflow. */
  predicate IsPrepared(a: Attempt) {
    a.input.Some? && a.input.value.Some? && a.templateSupported && a.inputReadable
  }

  /** ComfyUI was not there, as opposed to an answer it gave. */
  predicate NoBackend(e: Comfy.Error) { e.Connect? || e.SocketUnavailable? }

  /** `f` is the first of the images that carries the job's prefix. */
  predicate IsFirstImage(id: string, images: seq<string>, f: string) {
    exists i: nat ::
      && i < |images| && images[i] == f && "zun_" + id <= f
      && forall j :: 0 <= j < i ==> !("zun_" + id <= images[j])
  }

  predicate HasImage(id: string, images: seq<string>) { exists f :: f in images && "zun_" + id <= f }

  /** A name that stays in its directory. */
  predicate IsPlainName(f: string) {
    f != "" && '/' !in f && '\\' !in f && forall i :: 0 <= i < |f| - 1 && f[i] == '.' ==> f[i + 1] != '.'
  }

  /** The prompt was accepted under this id. */
  predicate IsSubmitted(a: Attempt, promptId: string)
    requires Answered(a)
  {
    && IsPrepared(a) && Comfy.Retried(a.upload, Comfy.Safe).Ok? && a.socket.Ok?
    && Comfy.Retried(a.submit, Comfy.ConnectOnly) == Comfy.Ok(promptId)
  }

  /** The prompt ran to its end in time. */
  predicate IsCompleted(a: Attempt, promptId: string) {
    !a.timedOut && Comfy.Await(a.frames, promptId).result == Comfy.Completed
  }

  /** The history lists an image `f` for the job, first with its prefix, which was fetched and saved. */
  predicate IsCollected(id: string, a: Attempt, f: string)
    requires Answered(a)
  {
    var history := Comfy.Retried(a.history, Comfy.Safe);
    && history.Ok? && history.value.Some? && history.value.value.succeeded
    && IsFirstImage(id, history.value.value.images, f)
    && Comfy.Retried(a.view, Comfy.Safe).Ok? && IsPlainName(f) && a.saved
  }

  /** Everything works. */
  ghost predicate Succeeds(id: string, a: Attempt)
    requires Answered(a)
  {
    exists promptId, f :: IsSubmitted(a, promptId) && IsCompleted(a, promptId) && IsCollected(id, a, f)
  }

  /** The backend is not there while the prompt is being submitted. */
  predicate LosesBackendEarly(a: Attempt)
    requires Answered(a)
  {
    var upload, submit := Comfy.Retried(a.upload, Comfy.Safe), Comfy.Retried(a.submit, Comfy.ConnectOnly);
    IsPrepared(a) &&
    if upload.Err? then NoBackend(upload.error)
    else if a.socket.Err? then NoBackend(a.socket.error)
    else submit.Err? && NoBackend(submit.error)
  }

  /** The backend is not there while the result is being fetched. */
  predicate LosesBackendLate(id: string, a: Attempt)
    requires Answered(a)
  {
    var history, view := Comfy.Retried(a.history, Comfy.Safe), Comfy.Retried(a.view, Comfy.Safe);
    if history.Err? then NoBackend(history.error)
    else
      && history.value.Some? && history.value.value.succeeded && HasImage(id, history.value.value.images)
      && view.Err? && NoBackend(view.error)
  }

  /** The first stage to fail fails because the backend is not there. */
  ghost predicate LosesBackend(id: string, a: Attempt)
    requires Answered(a)
  {
    || LosesBackendEarly(a)
    || exists promptId :: IsSubmitted(a, promptId) && IsCompleted(a, promptId) && LosesBackendLate(id, a)
  }

  lemma {:induction false} FirstImageIs(id: string, images: seq<string>)
    ensures Comfy.PrimaryOutput(images, OutputPrefix(id)).Some? <==> HasImage(id, images)
    ensures forall f :: IsFirstImage(id, images, f) <==> Comfy.PrimaryOutput(images, OutputPrefix(id)) == Some(f)
  {
    if images != [] {
      FirstImageIs(id, images[1..]);
      assert images == [images[0]] + images[1..];
      forall f ensures f in images <==> f == images[0] || f in images[1..] {}
      if OutputPrefix(id) <= images[0] {
        assert images[0] in images && IsFirstImage(id, images, images[0]);
        forall f | IsFirstImage(id, images, f) ensures f == images[0] {
          var i: nat :| i < |images| && images[i] == f && "zun_" + id <= f
                        && forall j :: 0 <= j < i ==> !("zun_" + id <= images[j]);
        }
      } else {
        forall f ensures IsFirstImage(id, images, f) <==> IsFirstImage(id, images[1..], f) {
          FirstImageShifts(id, images, f);
        }
      }
    }
  }

  lemma FirstImageShifts(id: string, images: seq<string>, f: string)
    requires images != [] && !(OutputPrefix(id) <= images[0])
    ensures IsFirstImage(id, images, f) <==> IsFirstImage(id, images[1..], f)
  {
    if IsFirstImage(id, images, f) {
      var i: nat :| i < |images| && images[i] == f && "zun_" + id <= f
                    && forall j :: 0 <= j < i ==> !("zun_" + id <= images[j]);
      assert images[1..][i - 1] == f;
    }
    if IsFirstImage(id, images[1..], f) {
      var i: nat :| i < |images[1..]| && images[1..][i] == f && "zun_" + id <= f
                    && forall j :: 0 <= j < i ==> !("zun_" + id <= images[1..][j]);
      assert images[i + 1] == f;
      forall j | 0 <= j < i + 1 ensures !("zun_" + id <= images[j]) {
        if j > 0 { assert images[j] == images[1..][j - 1]; }
      }
    }
  }

  lemma PlainNameIs(f: string)
    ensures IsPlainName(f) <==> DataPath(OUTPUTS, f).Some?
    ensures IsPlainName(f) ==> DataPath(OUTPUTS, f) == Some("outputs/" + f)
  {
    assert OUTPUTS + "/" + f == "outputs/" + f;
  }

  /** The second half: collected, backend lost, or failed. */
  lemma CollectionMeans(id: string, promptId: string, a: Attempt)
    requires Answered(a) && IsCompleted(a, promptId)
    ensures var o := Collection(id, promptId, a);
      && (o.Unreachable? <==> LosesBackendLate(id, a))
      && (forall f :: IsCollected(id, a, f) <==> o == Produced("outputs/" + f, a.width, a.height))
      && (o.Produced? ==> exists f :: IsCollected(id, a, f))
  {
    var history := Comfy.Retried(a.history, Comfy.Safe);
    if history.Ok? && history.value.Some? {
      var images := history.value.value.images;
      FirstImageIs(id, images);
      forall f { PlainNameIs(f); }
      var image := Comfy.PrimaryOutput(images, OutputPrefix(id));
      if image.Some? { OutputNamesDiffer(image.value); }
    }
  }

  lemma OutputNamesDiffer(f: string)
    ensures forall g :: "outputs/" + f == "outputs/" + g ==> f == g
  {
    forall g | "outputs/" + f == "outputs/" + g ensures f == g {
      assert f == ("outputs/" + f)[8..] && g == ("outputs/" + g)[8..];
    }
  }

  /** An attempt is done, given back or failed exactly as its answers say. */
  lemma OutcomeMeans(id: string, a: Attempt)
    requires Answered(a)
    ensures Judge(id, a).Produced? <==> Succeeds(id, a)
    ensures Judge(id, a).Unreachable? <==> LosesBackend(id, a)
  {
    if Submission(a).Going? {
      var promptId := Submission(a).promptId;
      assert forall p :: IsSubmitted(a, p) <==> p == promptId;
      if IsCompleted(a, promptId) { CollectionMeans(id, promptId, a); }
    } else {
      assert forall p :: !IsSubmitted(a, p);
    }
  }

  function StoredProgress(a: Attempt, promptId: string): seq<real> {
    Comfy.Throttled(0.0, Comfy.Await(a.frames, promptId).fractions)
  }

  /** The claimed row when the work is over and only the final statement is left. */
  function WorkedRow(r: Row, a: Attempt): Row
    requires Answered(a)
  {
    var claimed := r.(status := Running, startedAt := Some(a.claimedAt), progress := 0.0);
    match Submission(a)
    case Stopped(_) => claimed
    case Going(promptId) =>
      claimed.(comfyPromptId := Some(promptId), progress := Comfy.LastOf(0.0, StoredProgress(a, promptId)))
  }

  /** How a row looks after an undisturbed attempt: done, failed, or exactly as it was queued. */
  function SettledRow(id: string, r: Row, a: Attempt): Row
    requires Answered(a)
  {
    match Judge(id, a)
    case Unreachable => r
    case Errored(message) =>
      WorkedRow(r, a).(status := Failed, errorMessage := Some(message), completedAt := Some(a.endedAt))
    case Produced(path, w, h) =>
      WorkedRow(r, a).(status := Done, outputPath := Some(path), completedAt := Some(a.endedAt),
                       width := w, height := h, progress := 1.0)
  }

  /** A failure classified unreachable gives the row back exactly as it was claimed. */
  lemma RequeueUndoesTheClaim(id: string, r: Row, a: Attempt)
    requires Answered(a) && Coherent(id, r) && r.status.Queued?
    ensures WorkedRow(r, a).(status := Queued, startedAt := None, comfyPromptId := None, progress := 0.0) == r
  {
  }

  /** The job's input and template are available, and no connection to the backend can be made. */
  predicate MeetsDeadBackend(a: Attempt) {
    && a.input.Some? && a.input.value.Some? && a.templateSupported && a.inputReadable
    && forall i :: 0 <= i < |a.upload| ==> a.upload[i].Err? && a.upload[i].error.Connect?
  }

  /** Such an attempt is classified unreachable. */
  lemma DeadBackendIsUnreachable(id: string, a: Attempt)
    requires Answered(a) && MeetsDeadBackend(a)
    ensures Judge(id, a).Unreachable?
  {
    Comfy.NoConnectionIsUnreachable(a.upload, Comfy.Safe);
  }

  /**
   A process that dies at any point between the claim and the final statement loses nothing: the next
   startup's reset gives back the very table the job was claimed from.
   */
  lemma CrashUndoesTheClaim(t: Table, id: string, now: int, promptId: Option<string>, p: real)
    requires id in t && LiveQueued(t[id]) && CoherentTable(t)
    requires forall other :: other in t ==> !t[other].status.Running?
    ensures var claimed := t[id].(status := Running, startedAt := Some(now), comfyPromptId := promptId, progress := p);
      ResetRunning(t[id := claimed]) == t
  {
    assert Coherent(id, t[id]);
  }

  predicate IsDoneRow(r: Row, r': Row, a: Attempt, promptId: string, f: string) {
    r' == r.(status := Done, startedAt := Some(a.claimedAt), completedAt := Some(a.endedAt), progress := 1.0,
             comfyPromptId := Some(promptId), outputPath := Some("outputs/" + f), width := a.width, height := a.height)
  }

  /** ComfyUI, or the connection to it, gave this error in the first stage that failed. */
  ghost predicate BackendSaid(id: string, a: Attempt, e: Comfy.Error)
    requires Answered(a)
  {
    var upload, submit := Comfy.Retried(a.upload, Comfy.Safe), Comfy.Retried(a.submit, Comfy.ConnectOnly);
    var history := Comfy.Retried(a.history, Comfy.Safe);
    || (IsPrepared(a) && upload == Comfy.Err(e))
    || (IsPrepared(a) && upload.Ok? && a.socket == Comfy.Err(e))
    || (IsPrepared(a) && upload.Ok? && a.socket.Ok? && submit == Comfy.Err(e))
    || (history == Comfy.Err(e) && exists promptId :: IsSubmitted(a, promptId) && IsCompleted(a, promptId))
  }

  /** What stands in the row after the attempt, column by column; what is not named is as it was. */
  ghost predicate HasResult(id: string, r: Row, r': Row, a: Attempt)
    requires Answered(a)
  {
    && (r'.status.Queued? ==> r' == r)
    && (r'.status.Done? ==>
         exists promptId, f :: IsSubmitted(a, promptId) && IsCollected(id, a, f) && IsDoneRow(r, r', a, promptId, f))
    && (r'.status.Failed? ==>
         && r'.startedAt == Some(a.claimedAt) && r'.completedAt == Some(a.endedAt) && r'.errorMessage.Some?
         && (forall e :: BackendSaid(id, a, e) ==> r'.errorMessage == Some(e.text))
         && (forall promptId :: IsSubmitted(a, promptId) ==> r'.comfyPromptId == Some(promptId))
         && r'.outputPath == r.outputPath && r'.spec == r.spec
         && r'.createdAt == r.createdAt && r'.deletedAt == r.deletedAt)
  }

  lemma ResultMeans(id: string, r: Row, a: Attempt)
    requires Answered(a) && r.status.Queued?
    ensures HasResult(id, r, SettledRow(id, r, a), a)
  {
    OutcomeMeans(id, a);
    if Judge(id, a).Produced? {
      var promptId, f :| IsSubmitted(a, promptId) && IsCompleted(a, promptId) && IsCollected(id, a, f);
      CollectionMeans(id, promptId, a);
    }
  }

  class Worker {
    const store: Store

    constructor (store: Store)
      ensures this.store == store
    {
      this.store := store;
    }

    method RunProgressWriter(id: string, fractions: seq<real>)
      requires HasStatus(store.jobs, id, Running) && store.jobs[id].progress == 0.0
      modifies store
      ensures store.jobs.Keys == old(store.jobs).Keys
      ensures forall other :: other in store.jobs && other != id ==> store.jobs[other] == old(store.jobs)[other]
      ensures store.jobs[id] == old(store.jobs)[id].(progress := Comfy.LastOf(0.0, Comfy.Throttled(0.0, fractions)))
    {
      var written, last := Comfy.WriteProgress(fractions);
      for i := 0 to |written|
        invariant store.jobs.Keys == old(store.jobs).Keys
        invariant forall other :: other in store.jobs && other != id ==> store.jobs[other] == old(store.jobs)[other]
        invariant store.jobs[id] == old(store.jobs)[id].(progress := Comfy.LastOf(0.0, written[..i]))
      {
        store.UpdateProgress(id, written[i]);
        assert Comfy.LastOf(0.0, written[..i + 1]) == written[i];
      }
      assert written[..|written|] == written;
    }

    /** `process_job`: the error it returns, if any, is left for the drain loop to classify. */
    method ProcessJob(id: string, a: Attempt) returns (error: Option<Outcome>)
      requires Answered(a) && Claimable(store.jobs, id)
      modifies store
      ensures store.jobs.Keys == old(store.jobs).Keys
      ensures forall other :: other in store.jobs && other != id ==> store.jobs[other] == old(store.jobs)[other]
      ensures error == None <==> Succeeds(id, a)
      ensures error == Some(Unreachable) <==> LosesBackend(id, a)
      ensures Judge(id, a).Produced? ==> error == None && store.jobs[id] == SettledRow(id, old(store.jobs)[id], a)
      ensures !Judge(id, a).Produced? ==>
                error == Some(Judge(id, a)) && store.jobs[id] == WorkedRow(old(store.jobs)[id], a)
    {
      OutcomeMeans(id, a);
      var claimed := store.TryMarkRunning(id, a.claimedAt);
      if a.input.None? { return Some(Errored("input row disappeared")); }
      if a.input.value.None? { return Some(Errored("input file purged")); }
      if !a.templateSupported { return Some(Errored("workflow not supported")); }
      if !a.inputReadable { return Some(Errored("read input")); }
      var upload, _ := Comfy.WithRetry(a.upload, Comfy.Safe);
      if upload.Err? { return Some(FromError(upload.error)); }
      if a.socket.Err? { return Some(FromError(a.socket.error)); }
      var submit, _ := Comfy.WithRetry(a.submit, Comfy.ConnectOnly);
      if submit.Err? { return Some(FromError(submit.error)); }
      var promptId := submit.value;
      store.UpdateComfyPromptId(id, promptId);
      var result, sent := Comfy.AwaitCompletion(a.frames, promptId);
      RunProgressWriter(id, sent);
      if a.timedOut { return Some(Errored("comfyui timeout")); }
      if !result.Completed? { return Some(Errored("comfy stream failed")); }
      error := CollectOutput(id, promptId, a);
    }

    /** The second half of `process_job`: history, image, file, and the final `mark_done`. */
    method CollectOutput(id: string, promptId: string, a: Attempt) returns (error: Option<Outcome>)
      requires Answered(a) && HasStatus(store.jobs, id, Running)
      requires !a.timedOut && Comfy.Await(a.frames, promptId).result.Completed?
      modifies store
      ensures store.jobs.Keys == old(store.jobs).Keys
      ensures forall other :: other in store.jobs && other != id ==> store.jobs[other] == old(store.jobs)[other]
      ensures var o := Collection(id, promptId, a);
        if o.Produced? then
          && error == None
          && store.jobs[id] == old(store.jobs)[id].(status := Done, outputPath := Some(o.path),
                                                   completedAt := Some(a.endedAt), width := o.width,
                                                   height := o.height, progress := 1.0)
        else error == Some(o) && store.jobs == old(store.jobs)
      ensures error == None <==> exists f :: IsCollected(id, a, f)
      ensures forall f :: IsCollected(id, a, f) ==> store.jobs[id].outputPath == Some("outputs/" + f)
      ensures error == Some(Unreachable) <==> LosesBackendLate(id, a)
    {
      CollectionMeans(id, promptId, a);
      var history, _ := Comfy.WithRetry(a.history, Comfy.Safe);
      if history.Err? { return Some(FromError(history.error)); }
      if history.value.None? { return Some(Errored("comfy history empty")); }
      if !history.value.value.succeeded { return Some(Errored("comfyui execution failed")); }
      var image := Comfy.PrimaryOutput(history.value.value.images, OutputPrefix(id));
      if image.None? { return Some(Errored("no output image matched")); }
      var view, _ := Comfy.WithRetry(a.view, Comfy.Safe);
      if view.Err? { return Some(FromError(view.error)); }
      var path := DataPath(OUTPUTS, image.value);
      if path.None? || !a.saved { return Some(Errored("save output")); }
      var won := store.TryMarkDone(id, path.value, a.width, a.height, a.endedAt);
      return None;
    }

    /** One turn of the drain loop: process, then requeue, mark failed, or nothing more; `stop` ends the drain. */
    method ProcessAndSettle(id: string, a: Attempt) returns (stop: bool)
      requires Answered(a) && Claimable(store.jobs, id) && Coherent(id, store.jobs[id])
      modifies store
      ensures store.jobs.Keys == old(store.jobs).Keys
      ensures forall other :: other in store.jobs && other != id ==> store.jobs[other] == old(store.jobs)[other]
      ensures store.jobs[id] == SettledRow(id, old(store.jobs)[id], a)
      ensures stop == Judge(id, a).Unreachable?
      ensures store.jobs[id].status.Done? <==> Succeeds(id, a)
      ensures store.jobs[id].status.Queued? <==> LosesBackend(id, a)
      ensures store.jobs[id].status.Failed? <==> !Succeeds(id, a) && !LosesBackend(id, a)
      ensures HasResult(id, old(store.jobs)[id], store.jobs[id], a)
    {
      OutcomeMeans(id, a);
      ResultMeans(id, store.jobs[id], a);
      RequeueUndoesTheClaim(id, store.jobs[id], a);
      var error := ProcessJob(id, a);
      if error.Some? && error.value.Unreachable? {
        store.TryRequeue(id);
        return true;
      }
      if error.Some? { store.TryMarkFailed(id, error.value.message, a.endedAt); }
      return false;
    }

    /** One pass of the inner loop: fetch, process, settle. */
    method Turn(ghost t0: Table, claimed: seq<string>, world: nat -> Attempt) returns (next: Option<string>, stop: bool)
      requires CoherentTable(t0) && (forall n :: Answered(world(n)))
      requires DrainInvariant(t0, store.jobs, claimed, world)
      modifies store
      ensures next.None? ==> |claimed| == |Queue(t0)| && LiveKeys(store.jobs) == {} && store.jobs == old(store.jobs)
      ensures next.Some? ==>
        && SettledSoFar(t0, store.jobs, claimed + [next.value], world)
        && stop == Judge(next.value, world(|claimed|)).Unreachable?
        && (!stop ==> DrainInvariant(t0, store.jobs, claimed + [next.value], world))
    {
      stop := false;
      next := store.FetchOldestQueued();
      if next.None? {
        EmptyQueue(store.jobs);
      } else {
        var id := next.value;
        NextIsUntouched(t0, store.jobs, claimed, world, id);
        stop := ProcessAndSettle(id, world(|claimed|));
        TurnKeepsDraining(t0, old(store.jobs), store.jobs, claimed, world, id);
      }
    }

    /**
     One drain. `world(n)` is what the `n`-th processed job meets. Jobs are claimed in queue order;
     the drain ends with the queue empty, or at the first job that finds the backend unreachable, which
     is left exactly as it was.
     */
    method Drain(world: nat -> Attempt) returns (claimed: seq<string>, unreachable: bool)
      requires CoherentTable(store.jobs) && forall n :: Answered(world(n))
      modifies store
      ensures Drained(old(store.jobs), store.jobs, claimed, unreachable, world)
    {
      claimed := [];
      while true
        invariant DrainInvariant(old(store.jobs), store.jobs, claimed, world)
        decreases |Queue(old(store.jobs))| - |claimed|
      {
        var next, stop := Turn(old(store.jobs), claimed, world);
        if next.None? { return claimed, false; }
        if stop { StopsThere(old(store.jobs), store.jobs, claimed, next.value, world); }
        claimed := claimed + [next.value];
        if stop { return claimed, true; }
      }
    }

    /** The beginning of `run`: the startup reset, and the first drain. */
    method Start(world: nat -> Attempt) returns (claimed: seq<string>, unreachable: bool)
      requires CoherentTable(store.jobs) && forall n :: Answered(world(n))
      modifies store
      ensures Drained(ResetRunning(old(store.jobs)), store.jobs, claimed, unreachable, world)
    {
      ResetKeepsRows(store.jobs);
      var n := store.ResetRunningJobs();
      claimed, unreachable := Drain(world);
    }
  }

  /** `claimed` is a prefix of the queue of `t0`; in `t` its rows are settled and all others untouched. */
  ghost predicate SettledSoFar(t0: Table, t: Table, claimed: seq<string>, world: nat -> Attempt)
    requires forall n :: Answered(world(n))
  {
    && t.Keys == t0.Keys
    && |claimed| <= |Queue(t0)|
    && (forall i :: 0 <= i < |claimed| ==> claimed[i] == Queue(t0)[i].id && claimed[i] in t0)
    && (forall id :: id in t && id !in claimed ==> t[id] == t0[id])
    && (forall i :: 0 <= i < |claimed| ==> t[claimed[i]] == SettledRow(claimed[i], t0[claimed[i]], world(i)))
  }

  ghost predicate NoneUnreachable(claimed: seq<string>, world: nat -> Attempt)
    requires forall n :: Answered(world(n))
  {
    forall i :: 0 <= i < |claimed| ==> !Judge(claimed[i], world(i)).Unreachable?
  }

  /** Where a drain can end: with the queue empty, or right after the first job that met no backend. */
  ghost predicate Drained(t0: Table, t: Table, claimed: seq<string>, unreachable: bool, world: nat -> Attempt)
    requires forall n :: Answered(world(n))
  {
    && SettledSoFar(t0, t, claimed, world)
    && (unreachable ==> claimed != [])
    && NoneUnreachable(if unreachable then claimed[..|claimed| - 1] else claimed, world)
    && (unreachable ==> Judge(claimed[|claimed| - 1], world(|claimed| - 1)).Unreachable?)
    && (!unreachable ==> |claimed| == |Queue(t0)| && LiveKeys(t) == {})
  }

  lemma StopsThere(t0: Table, t: Table, claimed: seq<string>, id: string, world: nat -> Attempt)
    requires (forall n :: Answered(world(n))) && SettledSoFar(t0, t, claimed + [id], world)
    requires NoneUnreachable(claimed, world) && Judge(id, world(|claimed|)).Unreachable?
    ensures Drained(t0, t, claimed + [id], true, world)
  {
    assert (claimed + [id])[..|claimed|] == claimed;
  }

  lemma FirstWasReached(claimed: seq<string>, world: nat -> Attempt)
    requires (forall n :: Answered(world(n))) && claimed != [] && NoneUnreachable(claimed, world)
    ensures !Judge(claimed[0], world(0)).Unreachable?
  {
  }

  /** A backend nobody can connect to costs no job anything: at most one is claimed, and the table ends as it began. */
  lemma DeadBackendChangesNothing(t0: Table, t: Table, claimed: seq<string>, unreachable: bool, world: nat -> Attempt)
    requires (forall n :: Answered(world(n))) && Drained(t0, t, claimed, unreachable, world)
    requires LiveKeys(t0) != {} ==> MeetsDeadBackend(world(0))
    ensures |claimed| <= 1 && t == t0
    ensures unreachable <==> LiveKeys(t0) != {}
  {
    AscendingSorts(LiveKeys(t0));
    if claimed != [] {
      QueueHolds(t0, 0);
      DeadBackendIsUnreachable(claimed[0], world(0));
      OnlyTheFirst(claimed, unreachable, world);
    }
    forall id | id in t ensures t[id] == t0[id] {
      if id in claimed { assert id == claimed[0]; }
    }
  }

  /** If the first job met no backend, it is the only one. */
  lemma OnlyTheFirst(claimed: seq<string>, unreachable: bool, world: nat -> Attempt)
    requires (forall n :: Answered(world(n))) && claimed != [] && Judge(claimed[0], world(0)).Unreachable?
    requires NoneUnreachable(if unreachable then claimed[..|claimed| - 1] else claimed, world)
    ensures unreachable && |claimed| == 1
  {
    var reached := if unreachable then claimed[..|claimed| - 1] else claimed;
    if reached != [] { FirstWasReached(reached, world); }
  }

  /**
   After a restart the visible jobs that were queued or left running are claimed in the order they were
   submitted: none is passed over, and with a reachable backend all of them are claimed.
   */
  lemma RestartKeepsTheOrder(t0: Table, t: Table, claimed: seq<string>, unreachable: bool, world: nat -> Attempt)
    requires (forall n :: Answered(world(n))) && Drained(ResetRunning(t0), t, claimed, unreachable, world)
    ensures forall i :: 0 <= i < |claimed| ==> IsWaiting(t0, claimed[i])
    ensures forall i, j :: 0 <= i < j < |claimed| ==> Precedes(KeyOf(t0, claimed[i]), KeyOf(t0, claimed[j]))
    ensures forall id, i ::
              IsWaiting(t0, id) && 0 <= i < |claimed| && Precedes(KeyOf(t0, id), KeyOf(t0, claimed[i])) ==>
              id in claimed
    ensures !unreachable ==> forall id :: IsWaiting(t0, id) ==> id in claimed
  {
    var q := Queue(ResetRunning(t0));
    AscendingSorts(LiveKeys(ResetRunning(t0)));
    forall i | 0 <= i < |claimed| ensures IsWaiting(t0, claimed[i]) && KeyOf(t0, claimed[i]) == q[i] {
      QueueHolds(ResetRunning(t0), i);
    }
    forall id | IsWaiting(t0, id) ensures WaitsIn(t0, q, id) { WaitingPlace(t0, id); }
    forall id, i | IsWaiting(t0, id) && 0 <= i < |claimed| && Precedes(KeyOf(t0, id), KeyOf(t0, claimed[i]))
      ensures id in claimed
    {
      var n: nat :| n < |q| && q[n] == KeyOf(t0, id);
      EarlierIsBefore(q, n, i);
      assert claimed[n] == id;
    }
  }

  lemma EarlierIsBefore(q: seq<Key>, n: nat, i: nat)
    requires Increasing(q) && n < |q| && i < |q| && Precedes(q[n], q[i])
    ensures n < i
  {
    PrecedesIrreflexive(q[i]);
    if i < n { PrecedesAsymmetric(q[i], q[n]); }
  }

  predicate WaitsIn(t: Table, q: seq<Key>, id: string)
    requires id in t
  {
    exists n: nat :: n < |q| && q[n] == KeyOf(t, id)
  }

  lemma WaitingPlace(t: Table, id: string)
    requires IsWaiting(t, id)
    ensures WaitsIn(t, Queue(ResetRunning(t)), id)
  {
    var t' := ResetRunning(t);
    RowIsQueued(t', id);
    assert Queue(t')[QueuePosition(t', KeyOf(t', id))] == KeyOf(t, id);
  }

  /** A drain claims the jobs in order of submission time, and of id where times are equal. */
  lemma DrainClaimsOldestFirst(t0: Table, t: Table, claimed: seq<string>, unreachable: bool, world: nat -> Attempt)
    requires (forall n :: Answered(world(n))) && Drained(t0, t, claimed, unreachable, world)
    ensures forall i :: 0 <= i < |claimed| ==>
      claimed[i] in t0 && t0[claimed[i]].status.Queued? && t0[claimed[i]].deletedAt.None?
    ensures forall i, j :: 0 <= i < j < |claimed| ==>
      || t0[claimed[i]].createdAt < t0[claimed[j]].createdAt
      || (t0[claimed[i]].createdAt == t0[claimed[j]].createdAt && StrLess(claimed[i], claimed[j]))
  {
    QueueIsOldestFirst(t0);
    forall i | 0 <= i < |claimed| ensures Claimable(t0, claimed[i]) && KeyOf(t0, claimed[i]) == Queue(t0)[i] {
      QueueHolds(t0, i);
    }
  }

  /** No older job is passed over. */
  lemma NoOlderJobIsPassedOver(t0: Table, t: Table, claimed: seq<string>, unreachable: bool, world: nat -> Attempt,
                               id: string, j: nat)
    requires (forall n :: Answered(world(n))) && Drained(t0, t, claimed, unreachable, world)
    requires id in t0 && t0[id].status.Queued? && t0[id].deletedAt.None?
    requires j < |claimed| && claimed[j] in t0 && t0[id].createdAt < t0[claimed[j]].createdAt
    ensures id in claimed
  {
    QueueIsOldestFirst(t0);
    QueueHolds(t0, j);
    RowIsQueued(t0, id);
    var n := QueuePosition(t0, KeyOf(t0, id));
    assert n < j && claimed[n] == id;
  }

  /** A visible job that waits, or that an earlier process left running. */
  predicate IsWaiting(t: Table, id: string) {
    id in t && t[id].deletedAt.None? && (t[id].status.Queued? || t[id].status.Running?)
  }

  /**
   With a reachable backend the job at position `p` is the `(p + 1)`-th claimed, and every queued job ends
   done or failed.
   */
  lemma DrainFollowsPositions(t0: Table, t: Table, claimed: seq<string>, unreachable: bool, world: nat -> Attempt,
                              id: string)
    requires (forall n :: Answered(world(n))) && Drained(t0, t, claimed, unreachable, world)
    requires forall other, n :: !Judge(other, world(n)).Unreachable?
    requires Claimable(t0, id)
    ensures var p := QueuePosition(t0, KeyOf(t0, id));
      && p < |claimed| && claimed[p] == id
      && id in t && t[id].status == LifecycleInvariant.Verdict(Judge(id, world(p)))
      && IsTerminal(t[id].status)
    ensures |claimed| == |LiveKeys(t0)| && LiveKeys(t) == {}
  {
    RowIsQueued(t0, id);
    AscendingSorts(LiveKeys(t0));
  }

  ghost predicate DrainInvariant(t0: Table, t: Table, claimed: seq<string>, world: nat -> Attempt)
    requires forall n :: Answered(world(n))
  {
    && SettledSoFar(t0, t, claimed, world)
    && Queue(t) == Queue(t0)[|claimed|..]
    && NoneUnreachable(claimed, world)
  }

  lemma TurnKeepsDraining(t0: Table, before: Table, after: Table, claimed: seq<string>, world: nat -> Attempt,
                          id: string)
    requires forall n :: Answered(world(n))
    requires DrainInvariant(t0, before, claimed, world) && |claimed| < |Queue(t0)| && Queue(t0)[|claimed|].id == id
    requires IsOldestQueued(before, id) && id !in claimed && before[id] == t0[id] && after.Keys == before.Keys
    requires forall other :: other in after && other != id ==> after[other] == before[other]
    requires after[id] == SettledRow(id, before[id], world(|claimed|))
    ensures SettledSoFar(t0, after, claimed + [id], world)
    ensures !Judge(id, world(|claimed|)).Unreachable? ==> DrainInvariant(t0, after, claimed + [id], world)
  {
    SettleOneMore(t0, before, after, claimed, world, id);
    if !Judge(id, world(|claimed|)).Unreachable? {
      HeadLeaves(before, after, id);
      assert Queue(t0)[|claimed|..][1..] == Queue(t0)[|claimed| + 1..];
    }
  }

  lemma NextIsUntouched(t0: Table, t: Table, claimed: seq<string>, world: nat -> Attempt, id: string)
    requires forall n :: Answered(world(n))
    requires CoherentTable(t0) && SettledSoFar(t0, t, claimed, world) && IsOldestQueued(t, id)
    requires Queue(t) == Queue(t0)[|claimed|..]
    ensures |claimed| < |Queue(t0)| && Queue(t0)[|claimed|].id == id && id !in claimed
    ensures Claimable(t, id) && t[id] == t0[id] && Coherent(id, t[id])
  {
    OldestIsFirst(t, id);
    QueueIsInTable(t0);
    NotYetClaimed(Queue(t0), |claimed|, claimed, id);
  }

  lemma SettleOneMore(t0: Table, before: Table, after: Table, claimed: seq<string>, world: nat -> Attempt, id: string)
    requires forall n :: Answered(world(n))
    requires SettledSoFar(t0, before, claimed, world) && |claimed| < |Queue(t0)| && Queue(t0)[|claimed|].id == id
    requires id in before && id !in claimed && before[id] == t0[id] && after.Keys == before.Keys
    requires forall other :: other in after && other != id ==> after[other] == before[other]
    requires after[id] == SettledRow(id, before[id], world(|claimed|))
    ensures SettledSoFar(t0, after, claimed + [id], world)
  {
    var more := claimed + [id];
    forall i | 0 <= i < |more|
      ensures more[i] == Queue(t0)[i].id && more[i] in t0
      ensures after[more[i]] == SettledRow(more[i], t0[more[i]], world(i))
    {
      if i < |claimed| {
        assert more[i] == claimed[i] && claimed[i] in claimed;
        assert after[claimed[i]] == before[claimed[i]];
      }
    }
    forall other | other in after && other !in more ensures after[other] == t0[other] {
      assert more[|claimed|] == id;
      assert other !in claimed;
    }
  }

  lemma QueueIsInTable(t: Table)
    ensures forall i :: 0 <= i < |Queue(t)| ==> Claimable(t, Queue(t)[i].id) && KeyOf(t, Queue(t)[i].id) == Queue(t)[i]
    ensures forall i, j :: 0 <= i < j < |Queue(t)| ==> Queue(t)[i].id != Queue(t)[j].id
  {
    forall i | 0 <= i < |Queue(t)| ensures Claimable(t, Queue(t)[i].id) && KeyOf(t, Queue(t)[i].id) == Queue(t)[i] {
      QueueHolds(t, i);
    }
    AscendingSorts(LiveKeys(t));
    forall i, j | 0 <= i < j < |Queue(t)| ensures Queue(t)[i].id != Queue(t)[j].id {
      PrecedesIrreflexive(Queue(t)[i]);
    }
  }

  lemma EmptyQueue(t: Table)
    requires forall id :: id in t ==> !LiveQueued(t[id])
    ensures LiveKeys(t) == {} && Queue(t) == []
  {
  }

  lemma NotYetClaimed(queue: seq<Key>, n: nat, claimed: seq<string>, id: string)
    requires n < |queue| && |claimed| == n && queue[n].id == id
    requires forall i, j :: 0 <= i < j < |queue| ==> queue[i].id != queue[j].id
    requires forall i :: 0 <= i < n ==> claimed[i] == queue[i].id
    ensures id !in claimed
  {
  }

  /** Taking the head out of the queue leaves the rest in order. */
  lemma HeadLeaves(before: Table, after: Table, id: string)
    requires IsOldestQueued(before, id) && after.Keys == before.Keys && !after[id].status.Queued?
    requires forall other :: other in before && other != id ==> after[other] == before[other]
    ensures Queue(before) != [] && Queue(after) == Queue(before)[1..]
  {
    OldestIsFirst(before, id);
    var ks := LiveKeys(before);
    var k := KeyOf(before, id);
    AscendingSorts(ks);
    QueueHolds(before, 0);
    assert Queue(before)[0] == k;
    assert LiveKeys(after) == ks - {k} by {
      forall x ensures x in LiveKeys(after) <==> x in ks - {k} {
        if x in LiveKeys(after) { assert x.id != id && x in ks; }
        if x in ks - {k} { assert x.id != id && KeyOf(after, x.id) == x; }
      }
    }
    AscendingSorts(ks - {k});
    var tail := Queue(before)[1..];
    forall x ensures x in tail <==> x in Ascending(ks - {k}) { TailDropsHead(Queue(before), x); }
    SortedIsUnique(tail, Ascending(ks - {k}));
  }
}
