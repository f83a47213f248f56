/** The ComfyUI client: retry policy, the completion frame loop, and the choice of output image. */
module Comfy {
  import opened Common
  import opened Paths

  // ------------------------------ retry ---------------------------------

  /** What a failed call amounts to, as far as the policy looks at it. */
  datatype Error =
    | Connect(text: string)             // no connection was made
    | TimedOut(text: string)            // the request may have been received
    | HttpStatus(code: nat, text: string)
    | SocketUnavailable(text: string)   // the explicit `Unreachable` marker of the websocket path
    | Other(text: string)

  datatype Response<T> = Ok(value: T) | Err(error: Error)

  datatype Idempotency = Safe | ConnectOnly

  const MAX_ATTEMPTS := 3

  predicate IsUnreachable(e: Error) { e.SocketUnavailable? || e.Connect? }

  predicate ShouldRetry(e: Error, mode: Idempotency) {
    match mode
    case ConnectOnly => e.Connect?
    case Safe => e.Connect? || e.TimedOut? || (e.HttpStatus? && (e.code == 408 || e.code == 429 || 500 <= e.code < 600))
  }

  /** Refused connections; and for calls that may be repeated also time-outs, 408, 429 and server errors. */
  predicate IsTransient<T>(r: Response<T>, mode: Idempotency) {
    && r.Err?
    && (|| r.error.Connect?
        || (mode.Safe? && r.error.TimedOut?)
        || (mode.Safe? && r.error.HttpStatus? && (r.error.code in {408, 429} || 500 <= r.error.code <= 599)))
  }

  /** The answer of the `n`-th try decides, when that is the first not to be retried. */
  predicate Decides<T>(responses: seq<Response<T>>, mode: Idempotency, n: nat)
    requires |responses| >= MAX_ATTEMPTS
  {
    && n < MAX_ATTEMPTS
    && (n == MAX_ATTEMPTS - 1 || responses[n].Ok? || !ShouldRetry(responses[n].error, mode))
    && forall i :: 0 <= i < n ==> responses[i].Err? && ShouldRetry(responses[i].error, mode)
  }

  function Retried<T>(responses: seq<Response<T>>, mode: Idempotency): Response<T>
    requires |responses| >= MAX_ATTEMPTS
  {
    if Decides(responses, mode, 0) then responses[0]
    else if Decides(responses, mode, 1) then responses[1]
    else responses[2]
  }

  /** `responses[i]` is what the `i`-th call of the operation would answer. */
  method WithRetry<T>(responses: seq<Response<T>>, mode: Idempotency) returns (r: Response<T>, calls: nat)
    requires |responses| >= MAX_ATTEMPTS
    ensures 1 <= calls && Decides(responses, mode, calls - 1) && r == responses[calls - 1]
    ensures r == Retried(responses, mode)
    ensures calls <= 3
    ensures forall i :: 0 <= i < calls - 1 ==> IsTransient(responses[i], mode)
    ensures calls == 3 || !IsTransient(responses[calls - 1], mode)
  {
    var attempt := 1;
    while true
      invariant 1 <= attempt <= MAX_ATTEMPTS
      invariant forall i :: 0 <= i < attempt - 1 ==> responses[i].Err? && ShouldRetry(responses[i].error, mode)
      decreases MAX_ATTEMPTS - attempt
    {
      match responses[attempt - 1] {
        case Ok(v) => return Ok(v), attempt;
        case Err(e) =>
          if attempt >= MAX_ATTEMPTS || !ShouldRetry(e, mode) { return Err(e), attempt; }
          attempt := attempt + 1;
      }
    }
  }

  /** A call that may not be repeated is repeated only while no connection was made at all. */
  lemma NeverResubmits<T>(responses: seq<Response<T>>, n: nat)
    requires |responses| >= MAX_ATTEMPTS && Decides(responses, ConnectOnly, n)
    ensures forall i :: 0 <= i < |responses| && !(responses[i].Err? && responses[i].error.Connect?) ==> i >= n
  {
    forall i | 0 <= i < n ensures responses[i].Err? && responses[i].error.Connect? {
      assert ShouldRetry(responses[i].error, ConnectOnly);
    }
  }

  /** If nothing can connect, the outcome says so, in either mode. */
  lemma NoConnectionIsUnreachable<T>(responses: seq<Response<T>>, mode: Idempotency)
    requires |responses| >= MAX_ATTEMPTS
    requires forall i :: 0 <= i < MAX_ATTEMPTS ==> responses[i].Err? && responses[i].error.Connect?
    ensures Retried(responses, mode).Err? && IsUnreachable(Retried(responses, mode).error)
  {
  }

  // ------------------------- completion frames --------------------------

  datatype Kind =
    | Executing(nodeIsNull: bool)
    | Progress(value: Option<real>, max: Option<real>)
    | ExecutionError
    | Unknown

  datatype Frame =
    | StreamError
    | CloseFrame
    | Event(promptId: Option<string>, kind: Kind)
    | Noise                                        // binary, ping, or text that is not JSON

  datatype Completion = Completed | Failed | SocketError | Closed | Ended

  datatype Awaited = Awaited(result: Completion, fractions: seq<real>)

  predicate IsOwn(f: Frame, id: string) { f.Event? && f.promptId == Some(id) }

  predicate Terminates(f: Frame, id: string) {
    f.StreamError? || f.CloseFrame? ||
    (IsOwn(f, id) && (f.kind.ExecutionError? || (f.kind.Executing? && f.kind.nodeIsNull)))
  }

  function ResultOf(f: Frame): Completion {
    if f.StreamError? then SocketError else if f.CloseFrame? then Closed
    else if f.Event? && f.kind.ExecutionError? then Failed else Completed
  }

  function Clamp(x: real): real { if x < 0.0 then 0.0 else if x > 1.0 then 1.0 else x }

  /** The fraction a progress frame forwards, if it is well formed. */
  function Fractions(f: Frame, id: string): seq<real> {
    if IsOwn(f, id) && f.kind.Progress? && f.kind.value.Some? && f.kind.max.Some? && f.kind.max.value > 0.0
    then [Clamp(f.kind.value.value / f.kind.max.value)]
    else []
  }

  /** Everything up to the first terminating frame counts; nothing after it. */
  function Await(frames: seq<Frame>, id: string): Awaited {
    if frames == [] then Awaited(Ended, [])
    else if Terminates(frames[0], id) then Awaited(ResultOf(frames[0]), [])
    else
      var rest := Await(frames[1..], id);
      Awaited(rest.result, Fractions(frames[0], id) + rest.fractions)
  }

  lemma AwaitStep(frames: seq<Frame>, i: nat, id: string, sent: seq<real>)
    requires i < |frames|
    ensures var now := Await(frames[i..], id);
      if Terminates(frames[i], id) then now == Awaited(ResultOf(frames[i]), [])
      else
        var later := Await(frames[i + 1..], id);
        now.result == later.result && sent + now.fractions == sent + Fractions(frames[i], id) + later.fractions
  {
    assert frames[i..][0] == frames[i] && frames[i..][1..] == frames[i + 1..];
  }

  method AwaitCompletion(frames: seq<Frame>, id: string) returns (result: Completion, sent: seq<real>)
    ensures Awaited(result, sent) == Await(frames, id)
  {
    sent := [];
    var i := 0;
    while i < |frames|
      invariant 0 <= i <= |frames|
      invariant Await(frames, id) == (var rest := Await(frames[i..], id); Awaited(rest.result, sent + rest.fractions))
    {
      var frame := frames[i];
      AwaitStep(frames, i, id, sent);
      i := i + 1;
      match frame {
        case StreamError => result := SocketError; return;
        case CloseFrame => result := Closed; return;
        case Noise => continue;
        case Event(promptId, kind) =>
          if promptId != Some(id) { continue; }
          match kind {
            case Executing(nodeIsNull) =>
              if nodeIsNull { result := Completed; return; }
            case Progress(value, max) =>
              if value.Some? && max.Some? && max.value > 0.0 {
                sent := sent + [Clamp(value.value / max.value)];
              }
            case ExecutionError => result := Failed; return;
            case Unknown =>
          }
      }
    }
    result := Ended;
    assert frames[i..] == [];
  }

  /** The frames that matter: the prompt's own, closes and stream errors. */
  function Relevant(frames: seq<Frame>, id: string): seq<Frame> {
    if frames == [] then []
    else (if IsOwn(frames[0], id) || frames[0].CloseFrame? || frames[0].StreamError? then [frames[0]] else [])
         + Relevant(frames[1..], id)
  }

  /** `frames` up to and including the first close or stream error. */
  function UntilBroken(frames: seq<Frame>): seq<Frame> {
    if frames == [] then []
    else if frames[0].CloseFrame? || frames[0].StreamError? then [frames[0]]
    else [frames[0]] + UntilBroken(frames[1..])
  }

  lemma {:induction false} OnlyRelevantFramesMatter(frames: seq<Frame>, id: string)
    ensures Await(frames, id) == Await(Relevant(UntilBroken(frames), id), id)
  {
    if frames != [] {
      OnlyRelevantFramesMatter(frames[1..], id);
      var f := frames[0];
      if f.CloseFrame? || f.StreamError? {
        assert Relevant([f], id) == [f] + Relevant([f][1..], id);
      } else {
        var cut := UntilBroken(frames);
        assert cut[1..] == UntilBroken(frames[1..]);
        if IsOwn(f, id) {
          assert Relevant(cut, id)[1..] == Relevant(cut[1..], id);
        } else {
          assert Relevant(cut, id) == Relevant(cut[1..], id);
        }
      }
    }
  }

  /** Two streams that agree on the prompt's own frames and on the first break are indistinguishable. */
  lemma {:induction false} OtherPromptsAreIgnored(a: seq<Frame>, b: seq<Frame>, id: string)
    requires Relevant(UntilBroken(a), id) == Relevant(UntilBroken(b), id)
    ensures Await(a, id) == Await(b, id)
  {
    OnlyRelevantFramesMatter(a, id);
    OnlyRelevantFramesMatter(b, id);
  }

  predicate IsFirstTerminator(frames: seq<Frame>, id: string, i: int) {
    && 0 <= i < |frames| && Terminates(frames[i], id)
    && forall j :: 0 <= j < i ==> !Terminates(frames[j], id)
  }

  /** The result is that of the first terminating frame, or `Ended` if there is none. */
  lemma {:induction false} FirstTerminatorDecides(frames: seq<Frame>, id: string)
    ensures forall i :: IsFirstTerminator(frames, id, i) ==> Await(frames, id).result == ResultOf(frames[i])
    ensures (forall i :: 0 <= i < |frames| ==> !Terminates(frames[i], id)) ==> Await(frames, id).result == Ended
  {
    if frames != [] {
      FirstTerminatorDecides(frames[1..], id);
      if !Terminates(frames[0], id) {
        forall i | IsFirstTerminator(frames, id, i)
          ensures Await(frames, id).result == ResultOf(frames[i])
        {
          assert frames[1..][i - 1] == frames[i];
          assert forall j :: 0 <= j < i - 1 ==> frames[1..][j] == frames[j + 1];
        }
      }
    }
  }

  /** Breaks of the stream, and the end or the error of the prompt itself. */
  function EndFrames(id: string): set<Frame> {
    {StreamError, CloseFrame, Event(Some(id), ExecutionError), Event(Some(id), Executing(true))}
  }

  /** No frame before `i` ends the wait. */
  predicate Quiet(frames: seq<Frame>, id: string, i: nat)
    requires i <= |frames|
  {
    forall j :: 0 <= j < i ==> frames[j] !in EndFrames(id)
  }

  /** The frame `f` is the first to end the wait. */
  predicate Ends(frames: seq<Frame>, id: string, f: Frame) {
    exists i: nat :: i < |frames| && Quiet(frames, id, i) && frames[i] == f
  }

  /** What the wait ends with is told by the kind of the first frame that ends it. */
  lemma {:induction false} ResultExactly(frames: seq<Frame>, id: string)
    ensures var r := Await(frames, id).result;
      && (r == Completed <==> Ends(frames, id, Event(Some(id), Executing(true))))
      && (r == Failed <==> Ends(frames, id, Event(Some(id), ExecutionError)))
      && (r == Closed <==> Ends(frames, id, CloseFrame))
      && (r == SocketError <==> Ends(frames, id, StreamError))
      && (r == Ended <==> Quiet(frames, id, |frames|))
  {
    FirstTerminatorDecides(frames, id);
    var i := FirstEnd(frames, id);
    if i < |frames| {
      assert IsFirstTerminator(frames, id, i);
      assert Ends(frames, id, frames[i]);
      forall f | Ends(frames, id, f) && f in EndFrames(id) ensures f == frames[i] {
        var k: nat :| k < |frames| && Quiet(frames, id, k) && frames[k] == f;
        assert k == i;
      }
    }
  }

  lemma FirstEnd(frames: seq<Frame>, id: string) returns (i: nat)
    ensures i <= |frames| && Quiet(frames, id, i)
    ensures i < |frames| ==> frames[i] in EndFrames(id)
  {
    i := 0;
    while i < |frames| && frames[i] !in EndFrames(id)
      invariant i <= |frames| && Quiet(frames, id, i)
    {
      i := i + 1;
    }
  }

  /** One frame at the front of a stream, kind by kind. */
  lemma FrameByFrame(f: Frame, rest: seq<Frame>, id: string)
    ensures var now, later := Await([f] + rest, id), Await(rest, id);
      match f
      case StreamError => now == Awaited(SocketError, [])
      case CloseFrame => now == Awaited(Closed, [])
      case Noise => now == later
      case Event(promptId, kind) =>
        if promptId != Some(id) then now == later
        else
          match kind
          case Executing(true) => now == Awaited(Completed, [])
          case Executing(false) => now == later
          case ExecutionError => now == Awaited(Failed, [])
          case Unknown => now == later
          case Progress(value, max) =>
            if value.Some? && max.Some? && max.value > 0.0 then
              && now.result == later.result && |now.fractions| == 1 + |later.fractions|
              && now.fractions[1..] == later.fractions
              && (0.0 <= value.value <= max.value ==> now.fractions[0] * max.value == value.value)
              && (value.value > max.value ==> now.fractions[0] == 1.0)
              && (value.value < 0.0 ==> now.fractions[0] == 0.0)
            else now == later
  {
    assert ([f] + rest)[1..] == rest;
    if IsOwn(f, id) && f.kind.Progress? && f.kind.value.Some? && f.kind.max.Some? && f.kind.max.value > 0.0 {
      FractionIsTheRatio(f, id);
    }
  }

  lemma {:induction false} FractionsAreFractions(frames: seq<Frame>, id: string)
    ensures forall p :: p in Await(frames, id).fractions ==> 0.0 <= p <= 1.0
  {
    if frames != [] && !Terminates(frames[0], id) { FractionsAreFractions(frames[1..], id); }
  }

  /** A sane frame forwards the very ratio it reports; an overshoot counts as complete. */
  lemma FractionIsTheRatio(f: Frame, id: string)
    requires IsOwn(f, id) && f.kind.Progress? && f.kind.value.Some? && f.kind.max.Some? && f.kind.max.value > 0.0
    ensures |Fractions(f, id)| == 1
    ensures 0.0 <= f.kind.value.value <= f.kind.max.value ==>
              Fractions(f, id)[0] * f.kind.max.value == f.kind.value.value
    ensures f.kind.value.value >= f.kind.max.value ==> Fractions(f, id)[0] == 1.0
    ensures f.kind.value.value <= 0.0 ==> Fractions(f, id)[0] == 0.0
  {
    Ratio(f.kind.value.value, f.kind.max.value);
  }

  lemma Ratio(value: real, max: real)
    requires max > 0.0
    ensures (value / max) * max == value
    ensures value <= 0.0 <==> value / max <= 0.0
    ensures value >= max <==> value / max >= 1.0
  {
    var q := value / max;
    RatioScales(q, max);
  }

  lemma RatioScales(q: real, max: real)
    requires max > 0.0
    ensures q <= 0.0 <==> q * max <= 0.0
    ensures q >= 1.0 <==> q * max >= max
  {
    if q < 1.0 { assert (1.0 - q) * max > 0.0; } else { assert (q - 1.0) * max >= 0.0; }
  }

  // ------------------------- progress throttle --------------------------

  const STEP := 0.02

  predicate Writes(last: real, p: real) { p < last || p - last >= STEP }

  /** The values written to the row, starting from what was last written. */
  function Throttled(last: real, fractions: seq<real>): seq<real>
    decreases |fractions|
  {
    if fractions == [] then []
    else if Writes(last, fractions[0]) then [fractions[0]] + Throttled(fractions[0], fractions[1..])
    else Throttled(last, fractions[1..])
  }

  /** The progress writer task: one UPDATE per element of `written`. */
  method WriteProgress(fractions: seq<real>) returns (written: seq<real>, lastWritten: real)
    ensures written == Throttled(0.0, fractions)
    ensures lastWritten == LastOf(0.0, written)
  {
    written, lastWritten := [], 0.0;
    for i := 0 to |fractions|
      invariant Throttled(0.0, fractions) == written + Throttled(lastWritten, fractions[i..])
      invariant lastWritten == LastOf(0.0, written)
    {
      var p := fractions[i];
      assert fractions[i..][1..] == fractions[i + 1..];
      if p < lastWritten || p - lastWritten >= STEP {
        assert written + ([p] + Throttled(p, fractions[i + 1..])) == (written + [p]) + Throttled(p, fractions[i + 1..]);
        lastWritten := p;
        written := written + [p];
      }
    }
    assert fractions[|fractions|..] == [];
  }

  function LastOf(initial: real, s: seq<real>): real { if s == [] then initial else s[|s| - 1] }

  /** How often the bar moved backwards. */
  function Drops(last: real, written: seq<real>): nat
    decreases |written|
  {
    if written == [] then 0 else (if written[0] < last then 1 else 0) + Drops(written[0], written[1..])
  }

  predicate Fraction(p: real) { 0.0 <= p <= 1.0 }

  lemma {:induction false} ThrottleBound(last: real, fractions: seq<real>)
    requires Fraction(last) && forall p :: p in fractions ==> Fraction(p)
    ensures var w := Throttled(last, fractions);
      && (forall p :: p in w ==> Fraction(p))
      && |w| as real * STEP <= LastOf(last, w) - last + Drops(last, w) as real * (1.0 + STEP)
    decreases |fractions|
  {
    if fractions != [] {
      var p := fractions[0];
      var w := Throttled(last, fractions);
      if Writes(last, p) {
        ThrottleBound(p, fractions[1..]);
        var rest := Throttled(p, fractions[1..]);
        assert w == [p] + rest && w[1..] == rest;
        assert LastOf(last, w) == LastOf(p, rest);
      } else {
        ThrottleBound(last, fractions[1..]);
      }
    }
  }

  lemma {:induction false} ThrottleTracks(last: real, fractions: seq<real>)
    requires fractions != []
    ensures var w := Throttled(last, fractions);
      0.0 <= fractions[|fractions| - 1] - LastOf(last, w) < 0.02
    decreases |fractions|
  {
    var p, w := fractions[0], Throttled(last, fractions);
    var next := if Writes(last, p) then p else last;
    assert Writes(last, p) ==> w == [p] + Throttled(p, fractions[1..]);
    if |fractions| > 1 {
      ThrottleTracks(next, fractions[1..]);
      assert LastOf(last, w) == LastOf(next, Throttled(next, fractions[1..]));
    } else {
      assert fractions[1..] == [];
    }
  }

  /**
   From frames to the row: every stored value is a fraction, the row is never more than one step behind
   the latest forwarded fraction, and with `k` backward moves there are at most 50 + 51k writes.
   */
  lemma ProgressEndToEnd(frames: seq<Frame>, id: string)
    ensures var fractions := Await(frames, id).fractions; var w := Throttled(0.0, fractions);
      && (forall p :: p in w ==> 0.0 <= p <= 1.0)
      && (fractions != [] ==> 0.0 <= fractions[|fractions| - 1] - LastOf(0.0, w) < 0.02)
      && |w| <= 50 + 51 * Drops(0.0, w)
  {
    var fractions := Await(frames, id).fractions;
    FractionsAreFractions(frames, id);
    ThrottleBound(0.0, fractions);
    if fractions != [] { ThrottleTracks(0.0, fractions); }
    var w := Throttled(0.0, fractions);
    assert Fraction(LastOf(0.0, w));
  }

  // ----------------------------- output ---------------------------------

  /** The first image, in the order the history lists them, whose name starts with the job's prefix. */
  function PrimaryOutput(images: seq<string>, prefix: string): Option<string> {
    if images == [] then None
    else if prefix <= images[0] then Some(images[0])
    else PrimaryOutput(images[1..], prefix)
  }

  /** A job collects one of its own images whenever there is one, and never another job's. */
  lemma {:induction false} PrimaryOutputIsOwn(images: seq<string>, id: string)
    requires IsUuid(id)
    ensures var r := PrimaryOutput(images, OutputPrefix(id));
      && (r.None? <==> forall f :: f in images ==> !(OutputPrefix(id) <= f))
      && (r.Some? ==> r.value in images && OutputPrefix(id) <= r.value)
      && (r.Some? ==> forall other :: IsUuid(other) && OutputPrefix(other) <= r.value ==> other == id)
  {
    if images != [] {
      if OutputPrefix(id) <= images[0] {
        assert images[0] in images;
        forall other | IsUuid(other) && OutputPrefix(other) <= images[0] ensures other == id {
          assert images[0][4..40] == OutputPrefix(id)[4..] == id;
          assert images[0][4..40] == OutputPrefix(other)[4..] == other;
        }
      } else {
        PrimaryOutputIsOwn(images[1..], id);
        assert images == [images[0]] + images[1..];
        forall f | f in images && OutputPrefix(id) <= f ensures f in images[1..] {
          assert f != images[0];
        }
        forall f | f in images[1..] ensures f in images {}
      }
    }
  }
}
