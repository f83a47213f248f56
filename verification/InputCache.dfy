/**
 The content-addressed input cache as a state machine: any number of `resolve_input` calls, purge's
 loop over idle inputs, the worker's read, deletion from outside, and crashes. One event is one SQL
 statement or one file-system operation.
 */
module InputCache {
  import opened Common
  import opened InputTable
  import opened AtomicWrite

  datatype Upload = Upload(bytes: Bytes, ext: string)

  /** A request for the input named by `sha`, with or without the image itself. */
  datatype Ask = Ask(sha: string, upload: Option<Upload>, now: int)

  datatype Reply = Resolved(id: int) | NeedUpload(known: Option<int>) | HashMismatch | Internal

  datatype Call =
    | Selecting(ask: Ask)                                              // the hash of the bytes is checked
    | Statting(ask: Ask, id: int, path: string)
    | Stamping(ask: Ask, id: int)
    | Demoting(ask: Ask, id: int)                                      // about to clear the path, whatever it is
    | Uploading(ask: Ask, row: Option<int>)
    | Staging(ask: Ask, row: Option<int>, tmp: string, filled: nat)
    | Recording(ask: Ask, row: Option<int>)
    | Answered(ask: Ask, reply: Reply)

  datatype Sweep = Resting | Sweeping(todo: seq<IdleInput>, unlinked: bool)

  datatype Reader =
    | NoRead
    | GotPath(id: int, sha: string, path: string)
    | GotBytes(id: int, sha: string, bytes: Bytes)

  datatype State = State(
    hash: Bytes -> string,
    inputs: Inputs,
    files: Files,
    calls: map<nat, Call>,
    sweep: Sweep,
    reader: Reader,
    blobs: set<Bytes>)   // every image anyone has uploaded under its own hash

  function Init(hash: Bytes -> string): State { State(hash, map[], map[], map[], Resting, NoRead, {}) }

  datatype CallEvent =
    | Begin(ask: Ask)
    | Select(found: Option<int>)   // the answer of the SELECT
    | Stat
    | StampRow
    | Demote
    | Open(suffix: string)
    | Fill
    | Rename
    | FailWrite(unlinked: bool)
    | Record(newId: int)
    | Drop(unlinked: bool)

  datatype Event =
    | C(h: nat, ce: CallEvent)
    | SweepSelect(idle: seq<IdleInput>)
    | SweepUnlink(ok: bool)
    | SweepClear
    | ReadRow(id: int)
    | ReadFile
    | Lose(path: string)
    | Crash

  function Target(ask: Ask): string
    requires ask.upload.Some?
  {
    CachePath(ask.sha, ask.upload.value.ext)
  }

  /** Staging names are drawn at random: nobody else has or had the same one. */
  predicate FreshName(s: State, tmp: string) {
    tmp !in s.files && forall h :: h in s.calls && s.calls[h].Staging? ==> s.calls[h].tmp != tmp
  }

  predicate CallEnabled(s: State, h: nat, e: CallEvent) {
    if e.Begin? then
      h !in s.calls && IsSha(e.ask.sha) && (e.ask.upload.Some? ==> IsExt(e.ask.upload.value.ext))
    else
      && h in s.calls
      && var c := s.calls[h];
         match e
         case Select(found) =>
           && c.Selecting?
           && if found.Some? then IsRowOf(s.inputs, c.ask.sha, found.value) else Insertable(s.inputs, c.ask.sha)
         case Stat => c.Statting?
         case StampRow => c.Stamping?
         case Demote => c.Demoting?
         case Open(suffix) => c.Uploading? && c.ask.upload.Some? && FreshName(s, TmpSibling(Target(c.ask), suffix))
         case Fill => c.Staging? && c.ask.upload.Some? && c.filled < |c.ask.upload.value.bytes| && c.tmp in s.files
         case Rename => c.Staging? && c.ask.upload.Some? && c.filled == |c.ask.upload.value.bytes|
         case FailWrite(_) => c.Uploading? || c.Staging?
         case Record(newId) => c.Recording? && c.ask.upload.Some? && newId !in s.inputs
         case Drop(_) => true
  }

  /** No usable cached file: take the attached bytes, or ask for them. */
  function AskForBytes(ask: Ask, row: Option<int>): Call {
    if ask.upload.Some? then Uploading(ask, row) else Answered(ask, NeedUpload(row))
  }

  function Moved(s: State, h: nat, c: Call): State { s.(calls := s.calls[h := c]) }

  function CallNext(s: State, h: nat, e: CallEvent): State
    requires CallEnabled(s, h, e)
  {
    if e.Begin? then
      var up := e.ask.upload;
      if up.None? then Moved(s, h, Selecting(e.ask))
      else if s.hash(up.value.bytes) != e.ask.sha then Moved(s, h, Answered(e.ask, HashMismatch))
      else Moved(s, h, Selecting(e.ask)).(blobs := s.blobs + {up.value.bytes})
    else
      var c := s.calls[h];
      match e
      case Select(found) =>
        Moved(s, h, if found.None? then AskForBytes(c.ask, None)
                    else if s.inputs[found.value].path.None? then AskForBytes(c.ask, found)
                    else Statting(c.ask, found.value, s.inputs[found.value].path.value))
      case Stat => Moved(s, h, if c.path in s.files then Stamping(c.ask, c.id) else Demoting(c.ask, c.id))
      case StampRow => Moved(s, h, Answered(c.ask, Resolved(c.id))).(inputs := Stamp(s.inputs, c.id, c.ask.now))
      case Demote => Moved(s, h, AskForBytes(c.ask, Some(c.id))).(inputs := ClearPath(s.inputs, c.id))
      case Open(suffix) =>
        var tmp := TmpSibling(Target(c.ask), suffix);
        Moved(s, h, Staging(c.ask, c.row, tmp, 0)).(files := s.files[tmp := []])
      case Fill =>
        var filled := c.filled + 1;
        Moved(s, h, c.(filled := filled)).(files := s.files[c.tmp := c.ask.upload.value.bytes[..filled]])
      case Rename => RenameNext(s, h)
      case FailWrite(unlinked) =>
        Moved(s, h, Answered(c.ask, Internal)).(files := Unstaged(s.files, c, unlinked))
      case Record(newId) => RecordNext(s, h, newId)
      case Drop(unlinked) => s.(calls := s.calls - {h}, files := Unstaged(s.files, c, unlinked))
  }

  /** The staging file's own clean-up, which may fail. */
  function Unstaged(f: Files, c: Call, unlinked: bool): Files {
    if c.Staging? && unlinked then f - {c.tmp} else f
  }

  /** The rename fails when somebody removed the staging file. */
  function RenameNext(s: State, h: nat): State
    requires CallEnabled(s, h, Rename)
  {
    var c := s.calls[h];
    if c.tmp in s.files
    then Moved(s, h, Recording(c.ask, c.row)).(files := s.files[Target(c.ask) := s.files[c.tmp]] - {c.tmp})
    else Moved(s, h, Answered(c.ask, Internal))
  }

  /** The UPDATE of a known row, or an INSERT that `UNIQUE (sha256)` may refuse. */
  function RecordNext(s: State, h: nat, newId: int): State
    requires CallEnabled(s, h, Record(newId))
  {
    var c := s.calls[h];
    if c.row.Some? then
      Moved(s, h, Answered(c.ask, Resolved(c.row.value)))
        .(inputs := StorePath(s.inputs, c.row.value, Target(c.ask), c.ask.now))
    else if Insertable(s.inputs, c.ask.sha) then
      Moved(s, h, Answered(c.ask, Resolved(newId)))
        .(inputs := InsertInput(s.inputs, newId, c.ask.sha, Target(c.ask), c.ask.now))
    else Moved(s, h, Answered(c.ask, Internal))
  }

  /** Which idle rows purge picks is left open: any rows that have a path. */
  predicate Enabled(s: State, e: Event) {
    match e
    case C(h, ce) => CallEnabled(s, h, ce)
    case SweepSelect(idle) =>
      && s.sweep.Resting?
      && forall i :: 0 <= i < |idle| ==>
           PathIsSome(s.inputs, idle[i].id) && s.inputs[idle[i].id].path.value == idle[i].path
    case SweepUnlink(_) => s.sweep.Sweeping? && !s.sweep.unlinked && s.sweep.todo != []
    case SweepClear => s.sweep.Sweeping? && s.sweep.unlinked && s.sweep.todo != []
    case ReadRow(id) => PathIsSome(s.inputs, id)
    case ReadFile => s.reader.GotPath?
    case Lose(_) => true
    case Crash => true
  }

  function SweepOf(todo: seq<IdleInput>): Sweep { if todo == [] then Resting else Sweeping(todo, false) }

  function Next(s: State, e: Event): State
    requires Enabled(s, e)
  {
    match e
    case C(h, ce) => CallNext(s, h, ce)
    case SweepSelect(idle) => s.(sweep := SweepOf(idle))
    case SweepUnlink(ok) =>
      s.(files := if ok then s.files - {s.sweep.todo[0].path} else s.files, sweep := s.sweep.(unlinked := true))
    case SweepClear => s.(inputs := ClearPath(s.inputs, s.sweep.todo[0].id), sweep := SweepOf(s.sweep.todo[1..]))
    case ReadRow(id) => s.(reader := GotPath(id, s.inputs[id].sha256, s.inputs[id].path.value))
    case ReadFile =>
      s.(reader := if s.reader.path !in s.files then NoRead
                   else GotBytes(s.reader.id, s.reader.sha, s.files[s.reader.path]))
    case Lose(path) => s.(files := s.files - {path})
    case Crash => s.(calls := map[], sweep := Resting, reader := NoRead)
  }

  predicate Legal(s: State, run: seq<Event>)
    decreases |run|, 0
  {
    run == [] || (Legal(s, run[..|run| - 1]) && Enabled(After(s, run[..|run| - 1]), run[|run| - 1]))
  }

  function After(s: State, run: seq<Event>): State
    requires Legal(s, run)
    decreases |run|, 1
  {
    if run == [] then s else Next(After(s, run[..|run| - 1]), run[|run| - 1])
  }
}
