/** The recorder's callers and its writer thread as a transition system. The writer alone touches the byte and
    record counts, so each of its writes is one step; taking an event or a snapshot is another. */
module RecorderRuns {
  import opened Wrappers
  import opened RecorderModel

  /** Where the writer thread is. `last` tells the drain at the end, with its count, from those in the loop. */
  datatype Pc =
    | Absent
    | Drain(last: bool, count: nat)
    | Holding(last: bool, count: nat, event: Event)
    | Poll
    | Taken(snapshot: Snapshot)
    | Check
    | Raised(last: bool)
    | Closing
    | Done

  /** What happened so far, kept from the inputs of the steps alone: the events accepted and where they went, the
      calls, the snapshots noted and those whose every write succeeded, and the bytes the files hold. `afterStop`
      counts the snapshots taken once the stop was set, `checked` those written by then, and `skipped` the
      numbers reported as missing. */
  datatype History = History(
    offered: seq<Event>,
    written: seq<Event>,
    dropped: seq<Event>,
    lost: seq<Event>,
    started: bool,
    asked: bool,
    failed: bool,
    timedOut: bool,
    afterStop: nat,
    checked: nat,
    noted: seq<Snapshot>,
    kept: seq<Snapshot>,
    skipped: nat,
    disk: nat)

  datatype World = World(rec: Rec, pc: Pc, budget: Option<int>, h: History)

  const BLANK := History([], [], [], [], false, false, false, false, 0, 0, [], [], 0, 0)

  const INITIAL := World(FRESH, Absent, None, BLANK)

  function Total(ws: seq<Write>): nat {
    if ws == [] then 0 else ws[0].size + Total(ws[1..])
  }

  /** All of a list of writes succeed and fit in `room` bytes. */
  predicate AllLand(room: int, ws: seq<Write>) {
    (forall x :: x in ws ==> x.ok) && Total(ws) <= room
  }

  /** The bytes of those before the first that does not. */
  function Landed(room: int, ws: seq<Write>): nat {
    if ws == [] || !ws[0].ok || ws[0].size > room then 0 else ws[0].size + Landed(room - ws[0].size, ws[1..])
  }

  function Room(b: Bounds, h: History): int {
    b.maxBytes - h.disk
  }

  /** A snapshot whose number leaves out some after that of the last one noted. */
  predicate Jumps(h: History, s: Snapshot) {
    h.noted != [] && s.sequence > h.noted[|h.noted| - 1].sequence + 1
  }

  function Needed(h: History, s: Snapshot): seq<Write> {
    (if Jumps(h, s) then [s.gapWrite] else []) + s.writes
  }

  datatype Step =
    | Offered(e: Event)
    | StartCall(ready: bool)
    | StopCall
    | StopTimeout
    | Pop
    | WriteAction(w: Write)
    | PollEmpty
    | PollItem(s: Snapshot)
    | PollError
    | WriteTaken
    | CheckStop
    | FailStep
    | Close(manifest: bool)

  predicate OfWriter(a: Step) {
    !a.Offered? && !a.StartCall? && !a.StopCall? && !a.StopTimeout?
  }

  predicate Enabled(w: World, a: Step) {
    match a
    case Offered(_) => true
    case StartCall(_) => w.rec.phase.Created?
    case StopCall => true
    case StopTimeout => w.rec.stopSet
    case Pop => w.pc.Drain?
    case WriteAction(_) => w.pc.Holding?
    case PollEmpty => w.pc.Poll?
    case PollItem(_) => w.pc.Poll?
    case PollError => w.pc.Poll?
    case WriteTaken => w.pc.Taken?
    case CheckStop => w.pc.Check?
    case FailStep => w.pc.Raised?
    case Close(_) => w.pc.Closing?
  }

  function OfferStep(b: Bounds, w: World, e: Event): World {
    var (r, kept) := Offer(b, w.rec, e);
    if !Open(w.rec) then w
    else
      assert Open(w.rec) && !kept ==> |w.rec.queue| == b.queueSize;
      w.(rec := r,
         h := w.h.(offered := w.h.offered + [e],
                   dropped := if kept then w.h.dropped else w.h.dropped + [w.rec.queue[0]]))
  }

  function StartStep(w: World, ready: bool): World {
    w.(rec := Started(w.rec, ready),
       pc := if ready then Drain(false, 0) else Absent,
       h := w.h.(started := ready, failed := !ready))
  }

  function PopStep(b: Bounds, w: World): World
    requires w.pc.Drain?
  {
    if w.rec.queue == [] || (w.pc.last && w.pc.count >= b.queueSize) then
      w.(pc := if w.pc.last then Closing else Poll)
    else
      w.(rec := w.rec.(queue := w.rec.queue[1..]), pc := Holding(w.pc.last, w.pc.count, w.rec.queue[0]))
  }

  function WriteActionStep(b: Bounds, w: World, x: Write): World
    requires w.pc.Holding?
  {
    var (r, ok) := ActionWritten(b, w.rec, x);
    w.(rec := r,
       pc := if ok then Drain(w.pc.last, w.pc.count + 1) else Raised(w.pc.last),
       h := if x.ok && x.size <= Room(b, w.h) then
              w.h.(written := w.h.written + [w.pc.event], disk := w.h.disk + x.size)
            else
              w.h.(lost := w.h.lost + [w.pc.event]))
  }

  function TakeStep(w: World, s: Snapshot): World {
    w.(pc := Taken(s), h := w.h.(afterStop := w.h.afterStop + if w.rec.stopSet then 1 else 0))
  }

  function WriteTakenStep(b: Bounds, w: World): World
    requires w.pc.Taken?
  {
    var s := w.pc.snapshot;
    var (r, ok) := SnapshotWritten(b, w.rec, s);
    w.(rec := r, pc := if ok then Check else Raised(false), h := Recorded(b, w.h, s, Gap(w.rec, s)))
  }

  /** One more snapshot, of which the recorder reports `gap` missing numbers before it. */
  function Recorded(b: Bounds, h: History, s: Snapshot, gap: nat): History {
    if |h.kept| >= b.maxRecords then h
    else
      h.(noted := h.noted + [s],
         kept := if AllLand(Room(b, h), Needed(h, s)) then h.kept + [s] else h.kept,
         skipped := h.skipped + gap,
         disk := h.disk + Landed(Room(b, h), Needed(h, s)))
  }

  function CheckStep(b: Bounds, w: World): World {
    if !w.rec.stopSet then w.(pc := Drain(false, 0))
    else
      var left := Spend(b, w.budget);
      var h := w.h.(checked := w.h.checked + 1);
      if left <= 0 then
        w.(rec := w.rec.(incomplete := true), budget := Some(left), pc := Drain(true, 0), h := h)
      else
        w.(budget := Some(left), pc := Drain(false, 0), h := h)
  }

  /** The next world; a step that is not enabled changes nothing. */
  function Next(b: Bounds, w: World, a: Step): World {
    if !Enabled(w, a) then w
    else
      match a
      case Offered(e) => OfferStep(b, w, e)
      case StartCall(ready) => StartStep(w, ready)
      case StopCall => w.(rec := StopAsked(w.rec), h := w.h.(asked := true))
      case StopTimeout => w.(rec := TimedOut(w.rec), h := w.h.(timedOut := true))
      case Pop => PopStep(b, w)
      case WriteAction(x) => WriteActionStep(b, w, x)
      case PollEmpty => w.(pc := if w.rec.stopSet then Drain(true, 0) else Drain(false, 0))
      case PollItem(s) => TakeStep(w, s)
      case PollError => w.(pc := Raised(false))
      case WriteTaken => WriteTakenStep(b, w)
      case CheckStop => CheckStep(b, w)
      case FailStep =>
        w.(rec := FailedRec(w.rec), pc := if w.pc.last then Closing else Drain(true, 0), h := w.h.(failed := true))
      case Close(manifest) =>
        w.(rec := Finished(w.rec, manifest), pc := Done, h := w.h.(failed := w.h.failed || !manifest))
  }

  function Run(b: Bounds, w: World, run: seq<Step>): World
    decreases |run|
  {
    if run == [] then w else Next(b, Run(b, w, run[..|run| - 1]), run[|run| - 1])
  }

  function InHand(w: World): seq<Event> {
    if w.pc.Holding? then [w.pc.event] else []
  }

  // ----- subsequences

  /** `part` in the order of `whole`, with elements left out. */
  predicate Sub<T(==)>(part: seq<T>, whole: seq<T>)
    decreases |whole|
  {
    if part == [] then true
    else if whole == [] then false
    else
      var p, w := |part| - 1, |whole| - 1;
      (part[p] == whole[w] && Sub(part[..p], whole[..w])) || Sub(part, whole[..w])
  }

  lemma SubGrow<T>(part: seq<T>, whole: seq<T>, x: T)
    requires Sub(part, whole)
    ensures Sub(part, whole + [x]) && Sub(part + [x], whole + [x])
  {
    assert (whole + [x])[..|whole|] == whole && (part + [x])[..|part|] == part;
  }

  lemma {:induction false} SubRemove<T>(part: seq<T>, k: nat, whole: seq<T>)
    requires k < |part| && Sub(part, whole)
    ensures Sub(part[..k] + part[k + 1..], whole)
    decreases |whole|
  {
    var p, w := |part| - 1, |whole| - 1;
    var rest := part[..k] + part[k + 1..];
    assert whole[..w] + [whole[w]] == whole;
    if part[p] == whole[w] && Sub(part[..p], whole[..w]) {
      if k == p {
        assert rest == part[..p];
        SubGrow(rest, whole[..w], whole[w]);
      } else {
        SubRemove(part[..p], k, whole[..w]);
        assert rest == part[..p][..k] + part[..p][k + 1..] + [part[p]];
        SubGrow(part[..p][..k] + part[..p][k + 1..], whole[..w], whole[w]);
      }
    } else {
      SubRemove(part, k, whole[..w]);
      SubGrow(rest, whole[..w], whole[w]);
    }
  }

  lemma {:induction false} SubFull<T>(part: seq<T>, whole: seq<T>)
    requires Sub(part, whole)
    ensures |part| <= |whole|
    ensures |part| == |whole| ==> part == whole
    decreases |whole|
  {
    if part != [] {
      var p, w := |part| - 1, |whole| - 1;
      if part[p] == whole[w] && Sub(part[..p], whole[..w]) {
        SubFull(part[..p], whole[..w]);
        assert part == part[..p] + [part[p]] && whole == whole[..w] + [whole[w]];
      } else {
        SubFull(part, whole[..w]);
      }
    }
  }
}
