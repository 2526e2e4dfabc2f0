/** The bounded recorder: what each of its locked sections does, as functions on its fields. */
module RecorderModel {
  import opened Wrappers

  /** An action event; the recorder stores it as given, a proposal stays a proposal. */
  datatype Event = Event(id: string, stage: string, executed: bool)

  /** Construction rejects limits that are not positive. */
  datatype Sizes = Sizes(queueSize: nat, maxRecords: nat, maxBytes: nat)

  type Bounds = b: Sizes | b.queueSize > 0 && b.maxRecords > 0 && b.maxBytes > 0 witness Sizes(1, 1, 1)

  datatype Phase = Created | Running | Stopping | Stopped | Failed

  datatype Rec = Rec(
    phase: Phase,
    queue: seq<Event>,
    incomplete: bool,
    observations: nat,
    actions: nat,
    droppedActions: nat,
    missingFrames: nat,
    missingStates: nat,
    bytes: nat,
    lastSequence: Option<int>,
    stopSet: bool)

  const FRESH := Rec(Created, [], false, 0, 0, 0, 0, 0, 0, None, false)

  predicate Open(r: Rec) {
    r.phase.Created? || r.phase.Running?
  }

  // ----- callers

  /** `record_action`: true if the event was taken without displacing an older one. */
  function Offer(b: Bounds, r: Rec, e: Event): (Rec, bool) {
    if !Open(r) then (r, false)
    else if |r.queue| == b.queueSize then
      (r.(queue := r.queue[1..] + [e], droppedActions := r.droppedActions + 1, incomplete := true), false)
    else (r.(queue := r.queue + [e]), true)
  }

  /** `start` of a created recorder; `ready` tells whether directory, files and subscription could be made. */
  function Started(r: Rec, ready: bool): Rec {
    if ready then r.(phase := Running) else r.(phase := Failed, incomplete := true)
  }

  /** The locked part of `stop`. */
  function StopAsked(r: Rec): Rec {
    if r.phase.Created? then r.(phase := Stopped)
    else if r.phase.Stopped? || r.phase.Failed? then r
    else r.(phase := Stopping, stopSet := true)
  }

  /** `stop` gave up waiting for the writer. */
  function TimedOut(r: Rec): Rec {
    r.(incomplete := true)
  }

  // ----- writing

  /** One write of a file: the bytes it needs, and whether the file system takes them. */
  datatype Write = Write(size: nat, ok: bool)

  /** Bytes are checked against the limit before a write and counted after it. */
  function Append(b: Bounds, bytes: nat, w: Write): Option<nat> {
    if bytes + w.size > b.maxBytes || !w.ok then None else Some(bytes + w.size)
  }

  /** A list of writes up to the first that fails: the bytes counted, and whether all succeeded. */
  function AppendAll(b: Bounds, bytes: nat, ws: seq<Write>): (nat, bool)
    decreases |ws|
  {
    if ws == [] then (bytes, true)
    else
      var r := Append(b, bytes, ws[0]);
      if r.None? then (bytes, false) else AppendAll(b, r.value, ws[1..])
  }

  /** An event taken from the queue is written, or is lost with the exception. */
  function ActionWritten(b: Bounds, r: Rec, w: Write): (Rec, bool) {
    var bytes := Append(b, r.bytes, w);
    if bytes.None? then (r, false) else (r.(bytes := bytes.value, actions := r.actions + 1), true)
  }

  /** A snapshot as the recorder sees it: its sequence number, what it lacks, the writes its media files and
      record need, and the write of a gap record, used only if sequence numbers were skipped. */
  datatype Snapshot = Snapshot(
    sequence: int,
    missingFrames: nat,
    missingState: bool,
    errors: bool,
    gapWrite: Write,
    writes: seq<Write>)

  function Gap(r: Rec, s: Snapshot): nat {
    if r.lastSequence.Some? && s.sequence > r.lastSequence.value + 1 then s.sequence - r.lastSequence.value - 1 else 0
  }

  /** The first locked part of `_write_snapshot`, once the retention limit let it pass. */
  function Noted(r: Rec, s: Snapshot): Rec {
    r.(lastSequence := Some(s.sequence),
       missingFrames := r.missingFrames + s.missingFrames,
       missingStates := r.missingStates + if s.missingState then 1 else 0,
       incomplete := r.incomplete || Gap(r, s) > 0 || s.missingFrames > 0 || s.missingState || s.errors)
  }

  function WritesOf(r: Rec, s: Snapshot): seq<Write> {
    (if Gap(r, s) > 0 then [s.gapWrite] else []) + s.writes
  }

  /** `_write_snapshot`; false where it raises. */
  function SnapshotWritten(b: Bounds, r: Rec, s: Snapshot): (Rec, bool) {
    if r.observations >= b.maxRecords then (r, false)
    else
      var (bytes, ok) := AppendAll(b, r.bytes, WritesOf(r, s));
      var noted := Noted(r, s).(bytes := bytes);
      if ok then (noted.(observations := r.observations + 1), true) else (noted, false)
  }

  /** `_fail`. */
  function FailedRec(r: Rec): Rec {
    r.(phase := Failed, incomplete := true, stopSet := true)
  }

  /** The end of the writer; a manifest that cannot be written fails the recording. */
  function Finished(r: Rec, manifest: bool): Rec {
    if !manifest then r.(phase := Failed, incomplete := true)
    else if r.phase.Failed? then r
    else r.(phase := Stopped)
  }

  /** The snapshots the writer may still take after it has seen the stop: `None` before. */
  function Spend(b: Bounds, budget: Option<int>): int {
    if budget.None? then b.queueSize else budget.value - 1
  }

  lemma {:induction false} AppendAllBounded(b: Bounds, bytes: nat, ws: seq<Write>)
    requires bytes <= b.maxBytes
    ensures bytes <= AppendAll(b, bytes, ws).0 <= b.maxBytes
    decreases |ws|
  {
    if ws != [] && Append(b, bytes, ws[0]).Some? {
      AppendAllBounded(b, bytes + ws[0].size, ws[1..]);
    }
  }
}
