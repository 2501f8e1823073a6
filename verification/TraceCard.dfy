/** The live trace card of one turn: steps are recorded at any time, one flush loop renders
    them, throttled and woken by a one-place channel, and Done or Fail waits for a final
    frame. Network calls run with the mutex released. */
module TraceCard {
  import opened Common

  datatype TraceStep = TraceStep(tool: string, target: string)

  datatype Terminal = Open | DoneWell | FailedBecause(reason: string)

  // ---------------------------------------------------------------- rendering

  const MAX_TRACE_LINES: nat := 25

  datatype Line = Header(t: Terminal, steps: nat) | More(hidden: nat) | StepLine(s: TraceStep)

  function StepLines(steps: seq<TraceStep>): seq<Line> {
    if steps == [] then [] else StepLines(steps[..|steps| - 1]) + [StepLine(steps[|steps| - 1])]
  }

  function Hidden(steps: seq<TraceStep>): nat {
    if |steps| > MAX_TRACE_LINES then |steps| - MAX_TRACE_LINES else 0
  }

  function Head(steps: seq<TraceStep>, t: Terminal): seq<Line> {
    [Header(t, |steps|)] + (if Hidden(steps) > 0 then [More(Hidden(steps))] else [])
  }

  /** The lines of a card: the header, the number of hidden steps if any, the last steps. */
  function Card(steps: seq<TraceStep>, t: Terminal): seq<Line> {
    Head(steps, t) + StepLines(steps[Hidden(steps)..])
  }

  method BuildProgressCard(steps: seq<TraceStep>, t: Terminal) returns (lines: seq<Line>)
    ensures lines == Card(steps, t)
  {
    lines := [Header(t, |steps|)];
    var shown := steps;
    if |shown| > MAX_TRACE_LINES {
      lines := lines + [More(|shown| - MAX_TRACE_LINES)];
      shown := shown[|shown| - MAX_TRACE_LINES..];
    }
    assert lines == Head(steps, t) && shown == steps[Hidden(steps)..];
    for i := 0 to |shown|
      invariant lines == Head(steps, t) + StepLines(shown[..i])
    {
      assert shown[..i + 1][..i] == shown[..i];
      lines := lines + [StepLine(shown[i])];
    }
    assert shown[..|shown|] == shown;
  }

  /** How many steps a card accounts for: those it shows and those it counts as hidden. */
  function AccountedFor(lines: seq<Line>): nat {
    if lines == [] then 0
    else
      (match lines[|lines| - 1]
       case Header(_, _) => 0
       case More(n) => n
       case StepLine(_) => 1) + AccountedFor(lines[..|lines| - 1])
  }

  lemma {:induction false} AccountedForSteps(head: seq<Line>, steps: seq<TraceStep>)
    ensures |StepLines(steps)| == |steps|
    ensures steps != [] ==> StepLines(steps)[|steps| - 1] == StepLine(steps[|steps| - 1])
    ensures AccountedFor(head + StepLines(steps)) == AccountedFor(head) + |steps|
  {
    if steps == [] {
      assert head + StepLines(steps) == head;
    } else {
      var all, front := head + StepLines(steps), steps[..|steps| - 1];
      AccountedForSteps(head, front);
      assert all[|all| - 1] == StepLine(steps[|steps| - 1]) && all[..|all| - 1] == head + StepLines(front);
    }
  }

  lemma AccountedForHead(steps: seq<TraceStep>, t: Terminal)
    ensures AccountedFor(Head(steps, t)) == Hidden(steps)
  {
    var h := Header(t, |steps|);
    assert [h][..0] == [];
    assert AccountedFor([h]) == 0;
    if Hidden(steps) > 0 {
      assert Head(steps, t)[..1] == [h];
    }
  }

  /** No step disappears from a card: shown and hidden steps add up, at most the last 25 are
      shown, and the latest step is always the last line. */
  lemma CardAccountsForEveryStep(steps: seq<TraceStep>, t: Terminal)
    ensures AccountedFor(Card(steps, t)) == |steps|
    ensures |Card(steps, t)| <= MAX_TRACE_LINES + 2
    ensures steps != [] ==> Card(steps, t)[|Card(steps, t)| - 1] == StepLine(steps[|steps| - 1])
  {
    AccountedForSteps(Head(steps, t), steps[Hidden(steps)..]);
    AccountedForHead(steps, t);
  }

  // ---------------------------------------------------------------- state

  /** One CreateCard that succeeded or one PatchCard request: what it was rendered from, when,
      and whether it was a final flush. */
  datatype Frame = Frame(patch: bool, steps: seq<TraceStep>, terminal: Terminal, at: int, final: bool)

  datatype Loop =
    | NotStarted
    | Selecting
    | Woken
    | Sleeping(until: int)
    | Flushing(final: bool)                              // before taking the mutex
    | Creating(final: bool, shot: seq<TraceStep>, t: Terminal)
    | Patching(final: bool)
    | Exited

  datatype Acking = NoAck | AckCreating(shot: seq<TraceStep>, t: Terminal) | Acked(ok: bool)

  /** The call of Done or Fail that got through. */
  datatype Finishing = NotFinished | Closing | Awaiting | Returned(started: bool)

  /** What the mutex guards. */
  datatype Shared = Shared(
    steps: seq<TraceStep>,
    created: bool,
    degraded: bool,
    terminal: Terminal,
    lastPatch: Option<int>)

  /** What has happened so far; nothing in the session reads it. */
  datatype Log = Log(
    frames: seq<Frame>,
    createCalls: nat,
    seen: nat,             // steps in the latest snapshot taken for a card
    sending: nat,          // the frame of the latest PatchCard request
    onCard: nat,           // the frame that the service shows, if there is one
    landed: bool,          // the latest request to the service has succeeded
    atFinish: nat,         // steps recorded when Done or Fail got through
    overlap: bool)         // Ack's CreateCard ran together with, or after, a Step or a finish

  datatype Trace = Trace(
    minInterval: nat,
    now: int,
    sh: Shared,
    // channels
    wake: bool,
    closed: bool,
    flushed: bool,
    // goroutines
    loop: Loop,
    ack: Acking,
    signals: nat,          // calls of Step that have recorded but not signalled yet
    fin: Finishing,
    log: Log)

  function Fresh(minInterval: nat): Trace {
    Trace(minInterval, 0, Shared([], false, false, Open, None), false, false, false,
          NotStarted, NoAck, 0, NotFinished, Log([], 0, 0, 0, 0, true, 0, false))
  }

  datatype Step =
    | Tick(d: nat)
    | AckCall
    | AckCreated(ok: bool)
    | Record(s: TraceStep)
    | Signal
    | FinishCall(t: Terminal)
    | FinishClose
    | FinishReturn
    | LoopWake
    | LoopClosed
    | LoopThrottle
    | LoopTimer
    | LoopCutShort
    | FlushLock
    | FlushCreated(ok: bool)
    | FlushPatched(ok: bool)

  predicate Enabled(s: Trace, e: Step) {
    match e
    case Tick(_) => true
    case AckCall => s.ack.NoAck?
    case AckCreated(_) => s.ack.AckCreating?
    case Record(_) => true
    case Signal => s.signals > 0
    case FinishCall(t) => !t.Open?
    case FinishClose => s.fin.Closing?
    case FinishReturn => s.fin.Awaiting? && s.flushed
    case LoopWake => s.loop.Selecting? && s.wake
    case LoopClosed => s.loop.Selecting? && s.closed
    case LoopThrottle => s.loop.Woken?
    case LoopTimer => s.loop.Sleeping? && s.now >= s.loop.until
    case LoopCutShort => s.loop.Sleeping? && s.closed
    case FlushLock => s.loop.Flushing?
    case FlushCreated(_) => s.loop.Creating?
    case FlushPatched(_) => s.loop.Patching?
  }

  function EnsureLoop(s: Trace): Trace {
    if s.loop.NotStarted? then s.(loop := Selecting) else s
  }

  /** The end of flushNow. */
  function AfterFlush(s: Trace, final: bool): Trace {
    if final then s.(loop := Exited, flushed := true) else s.(loop := Selecting)
  }

  /** flushNow from its snapshot to the PatchCard call. */
  function StartPatch(s: Trace, final: bool): Trace {
    s.(sh := s.sh.(lastPatch := Some(s.now)), loop := Patching(final),
       log := s.log.(seen := |s.sh.steps|, sending := |s.log.frames|,
                     frames := s.log.frames + [Frame(true, s.sh.steps, s.sh.terminal, s.now, final)]))
  }

  /** ensureCardLocked after a CreateCard call that succeeded. */
  function CardCreated(s: Trace, shot: seq<TraceStep>, t: Terminal, final: bool): Trace {
    s.(sh := s.sh.(created := true, lastPatch := Some(s.now)),
       log := s.log.(onCard := |s.log.frames|, landed := true,
                     frames := s.log.frames + [Frame(false, shot, t, s.now, final)]))
  }

  /** ensureCardLocked before that call. */
  function CreateCalled(log: Log, sh: Shared): Log {
    log.(createCalls := log.createCalls + 1, seen := |sh.steps|)
  }

  function ApplyFlush(s: Trace, e: Step): (t: Trace)
    requires Enabled(s, e)
    requires e.FlushLock? || e.FlushCreated? || e.FlushPatched?
    ensures t.minInterval == s.minInterval && t.log.overlap == s.log.overlap
  {
    match e
    case FlushLock =>
      if s.sh.degraded then AfterFlush(s, s.loop.final)
      else if s.sh.created then StartPatch(s, s.loop.final)
      else s.(loop := Creating(s.loop.final, s.sh.steps, s.sh.terminal), log := CreateCalled(s.log, s.sh))
    case FlushCreated(ok) =>
      var final := s.loop.final;
      if !ok then AfterFlush(s.(sh := s.sh.(degraded := true)), final)
      else
        var t := CardCreated(s, s.loop.shot, s.loop.t, false);
        if final then StartPatch(t, true) else AfterFlush(t, false)
    case FlushPatched(ok) =>
      AfterFlush(s.(log := s.log.(onCard := if ok then s.log.sending else s.log.onCard, landed := ok)), s.loop.final)
  }

  /** The loop's own steps change only where it is, and take the wake-up. */
  function ApplyLoop(s: Trace, e: Step): (t: Trace)
    requires Enabled(s, e)
    requires e.LoopWake? || e.LoopClosed? || e.LoopThrottle? || e.LoopTimer? || e.LoopCutShort?
    ensures t == s.(loop := t.loop, wake := t.wake)
    ensures BeforeSnapshot(t.loop) && (t.loop == Flushing(true) ==> s.closed)
  {
    match e
    case LoopWake => s.(wake := false, loop := Woken)
    case LoopClosed => s.(loop := Flushing(true))
    case LoopThrottle =>
      if s.sh.lastPatch.Some? && s.sh.lastPatch.value + s.minInterval > s.now
      then s.(loop := Sleeping(s.sh.lastPatch.value + s.minInterval))
      else s.(loop := Flushing(false))
    case LoopTimer => s.(loop := Flushing(false))
    case LoopCutShort => s.(loop := Flushing(true))
  }

  function ApplyCaller(s: Trace, e: Step): (u: Trace)
    requires Enabled(s, e)
    requires e.Tick? || e.AckCall? || e.AckCreated? || e.Record? || e.Signal? || e.FinishCall? || e.FinishClose? || e.FinishReturn?
    ensures u.minInterval == s.minInterval && (s.log.overlap ==> u.log.overlap)
  {
    match e
    case Tick(d) => s.(now := s.now + d)
    case AckCall =>
      var late := s.log.(overlap := s.log.overlap || s.sh.steps != [] || !s.sh.terminal.Open?);
      if s.sh.created || s.sh.degraded then EnsureLoop(s.(ack := Acked(true)))
      else s.(ack := AckCreating(s.sh.steps, s.sh.terminal), log := CreateCalled(late, s.sh))
    case AckCreated(ok) =>
      if ok then EnsureLoop(CardCreated(s, s.ack.shot, s.ack.t, false).(ack := Acked(true)))
      else s.(sh := s.sh.(degraded := true), ack := Acked(false))
    case Record(x) =>
      s.(sh := s.sh.(steps := s.sh.steps + [x]), signals := s.signals + 1,
         log := s.log.(overlap := s.log.overlap || s.ack.AckCreating?))
    case Signal => EnsureLoop(s.(signals := s.signals - 1, wake := true))
    case FinishCall(t) =>
      if !s.sh.terminal.Open? then s
      else
        var started := s.sh.created || s.sh.steps != [];
        s.(sh := s.sh.(terminal := t), fin := if started then Closing else Returned(false),
           log := s.log.(atFinish := |s.sh.steps|, overlap := s.log.overlap || s.ack.AckCreating?))
    case FinishClose => EnsureLoop(s.(closed := true, fin := Awaiting))
    case FinishReturn => s.(fin := Returned(true))
  }

  /** The interval is a constant, and an overlap is never forgotten. */
  function Apply(s: Trace, e: Step): (t: Trace)
    requires Enabled(s, e)
    ensures t.minInterval == s.minInterval && (s.log.overlap ==> t.log.overlap)
  {
    if e.FlushLock? || e.FlushCreated? || e.FlushPatched? then ApplyFlush(s, e)
    else if e.LoopWake? || e.LoopClosed? || e.LoopThrottle? || e.LoopTimer? || e.LoopCutShort? then ApplyLoop(s, e)
    else ApplyCaller(s, e)
  }

  ghost predicate Reaches(s: Trace, es: seq<Step>, t: Trace)
    decreases |es|
  {
    if es == [] then s == t else Enabled(s, es[0]) && Reaches(Apply(s, es[0]), es[1..], t)
  }

  // ---------------------------------------------------------------- critical sections

  class TraceSession {
    const minInterval: nat
    var steps: seq<TraceStep>
    var created: bool
    var degraded: bool
    var terminal: Terminal
    var lastPatch: Option<int>

    ghost function View(): Shared
      reads this
    {
      Shared(steps, created, degraded, terminal, lastPatch)
    }

    /** The fields are those of the machine's state s. */
    ghost predicate Mirrors(s: Trace)
      reads this
    {
      minInterval == s.minInterval && View() == s.sh
    }

    constructor (minInterval: nat)
      ensures Mirrors(Fresh(minInterval))
    {
      this.minInterval := minInterval;
      steps, created, degraded, terminal, lastPatch := [], false, false, Open, None;
    }

    method RecordStep(x: TraceStep, ghost s: Trace)
      requires Mirrors(s)
      modifies this`steps
      ensures Mirrors(Apply(s, Record(x)))
    {
      steps := steps + [x];
    }

    /** ensureCardLocked up to the network call: None when there is nothing to create. */
    method BeginCard() returns (shot: Option<(seq<TraceStep>, Terminal)>)
      ensures shot.None? <==> created || degraded
      ensures shot.Some? ==> shot.value == (steps, terminal)
    {
      if created || degraded {
        return None;
      }
      return Some((steps, terminal));
    }

    /** ensureCardLocked after the network call, made by Ack or by the flush loop. */
    method EndCard(ok: bool, now: int, ghost s: Trace)
      requires Mirrors(s) && now == s.now
      modifies this`created, this`degraded, this`lastPatch
      ensures Enabled(s, AckCreated(ok)) ==> Mirrors(Apply(s, AckCreated(ok)))
      ensures Enabled(s, FlushCreated(ok)) && !(ok && s.loop.final) ==> Mirrors(Apply(s, FlushCreated(ok)))
      ensures Enabled(s, FlushCreated(ok)) && ok ==> Mirrors(CardCreated(s, s.loop.shot, s.loop.t, false))
    {
      if !ok {
        degraded := true;
        return;
      }
      created, lastPatch := true, Some(now);
    }

    method BeginPatch(now: int, final: bool, ghost s: Trace) returns (shot: seq<TraceStep>, t: Terminal)
      requires Mirrors(s) && now == s.now
      modifies this`lastPatch
      ensures Mirrors(StartPatch(s, final))
      ensures Frame(true, shot, t, now, final) == StartPatch(s, final).log.frames[|s.log.frames|]
    {
      lastPatch := Some(now);
      return steps, terminal;
    }

    /** Where flushNow goes on: nowhere, to CreateCard, or to PatchCard. */
    method FlushNow(now: int, final: bool, ghost s: Trace) returns (next: Loop)
      requires Mirrors(s) && now == s.now && s.loop == Flushing(final)
      modifies this`lastPatch
      ensures Mirrors(Apply(s, FlushLock)) && next == Apply(s, FlushLock).loop
    {
      if degraded {
        return if final then Exited else Selecting;
      }
      var shot := BeginCard();
      if shot.Some? {
        return Creating(final, shot.value.0, shot.value.1);
      }
      var _, _ := BeginPatch(now, final, s);
      return Patching(final);
    }

    /** The loop has been woken: flush at once or wait out the interval. */
    method Throttle(now: int, ghost s: Trace) returns (next: Loop)
      requires Mirrors(s) && now == s.now && s.loop.Woken?
      ensures next == Apply(s, LoopThrottle).loop
    {
      if lastPatch.None? || minInterval <= now - lastPatch.value {
        return Flushing(false);
      }
      return Sleeping(lastPatch.value + minInterval);
    }

    /** The first section of finish: whether the call got through, and whether there is a
        loop to wait for. */
    method BeginFinish(t: Terminal, ghost s: Trace) returns (through: bool, started: bool)
      requires Mirrors(s) && !t.Open?
      modifies this`terminal
      ensures Mirrors(Apply(s, FinishCall(t))) && through == old(terminal).Open?
      ensures through ==> Apply(s, FinishCall(t)).fin == if started then Closing else Returned(false)
    {
      if terminal != Open {
        return false, false;
      }
      terminal := t;
      return true, created || |steps| > 0;
    }
  }

  // ---------------------------------------------------------------- invariant

  predicate BeforeSnapshot(l: Loop) {
    l.Woken? || l.Sleeping? || l.Flushing?
  }

  predicate IsFinal(l: Loop) {
    ((l.Flushing? || l.Creating? || l.Patching?) && l.final) || l.Exited?
  }

  /** Control: one creator at a time, final flushes only after the close, and so on. */
  ghost predicate Control(s: Trace) {
    && (s.ack.AckCreating? ==> s.loop.NotStarted? && s.sh.steps == [] && s.fin.NotFinished? && !s.sh.created && !s.sh.degraded)
    && (!s.loop.NotStarted? ==> s.sh.steps != [] || s.ack.Acked? || !s.fin.NotFinished?)
    && s.signals <= |s.sh.steps|
    && (s.loop.Creating? ==> !s.sh.created && !s.sh.degraded)
    && (s.loop.Patching? ==> s.sh.created)
    && s.log.createCalls == (if s.sh.created || s.sh.degraded || s.loop.Creating? || s.ack.AckCreating? then 1 else 0)
    && !(s.sh.created && s.sh.degraded)
    && (s.loop.NotStarted? ==> !s.wake && !s.closed && !s.sh.created && |s.sh.steps| <= s.signals)
    && (s.closed <==> s.fin.Awaiting? || s.fin == Returned(true))
    && (s.flushed <==> s.loop.Exited?)
    && (IsFinal(s.loop) ==> s.closed)
    && (s.sh.terminal.Open? <==> s.fin.NotFinished?)
    && (s.fin == Returned(true) ==> s.flushed)
  }

  /** How many steps the last frame was rendered from. */
  function Shown(s: Trace): nat {
    if s.log.frames == [] then 0 else |s.log.frames[|s.log.frames| - 1].steps|
  }

  /** Frames: the first one is the create, all others are patches; each was rendered from a
      prefix of the steps. */
  ghost predicate FramesOk(s: Trace) {
    && (s.log.frames != [] <==> s.sh.created)
    && (forall i | 0 <= i < |s.log.frames| :: s.log.frames[i].patch <==> i > 0)
    && (forall i | 0 <= i < |s.log.frames| :: s.log.frames[i].steps <= s.sh.steps)
    && (s.loop.Creating? ==> s.loop.shot <= s.sh.steps)
    && (s.ack.AckCreating? ==> s.ack.shot <= s.sh.steps)
    && s.log.atFinish <= |s.sh.steps|
  }

  /** The latest snapshot is in the last frame, or a card is being created from it. */
  predicate Displayed(s: Trace) {
    && (!s.loop.Creating? && !s.ack.AckCreating? && !s.sh.degraded ==> s.log.seen == Shown(s))
    && (s.loop.Creating? ==> s.log.seen == |s.loop.shot|)
    && (s.ack.AckCreating? ==> s.log.seen == |s.ack.shot|)
  }

  /** What the service shows is the last frame exactly if the latest request succeeded. */
  predicate OnCardOk(s: Trace) {
    s.log.frames != [] ==>
      && s.log.onCard < |s.log.frames|
      && (s.loop.Patching? ==> s.log.sending == |s.log.frames| - 1 && s.log.onCard < s.log.sending)
      && (!s.loop.Patching? ==> (s.log.landed <==> s.log.onCard == |s.log.frames| - 1))
  }

  /** Timing: the last frame is the one lastPatch remembers; non-final frames keep their distance. */
  ghost predicate Paced(s: Trace) {
    && (s.log.frames == [] ==> s.sh.lastPatch.None?)
    && (s.log.frames != [] ==> s.sh.lastPatch == Some(s.log.frames[|s.log.frames| - 1].at) && s.log.frames[|s.log.frames| - 1].at <= s.now)
    && (s.loop.Sleeping? ==> s.sh.lastPatch.Some? && s.loop.until == s.sh.lastPatch.value + s.minInterval)
    && (s.loop.Flushing? && !s.loop.final && s.sh.lastPatch.Some? ==> s.sh.lastPatch.value + s.minInterval <= s.now)
    && (forall i | 0 < i < |s.log.frames| :: s.log.frames[i].final || s.log.frames[i - 1].at + s.minInterval <= s.log.frames[i].at)
  }

  /** A wake-up, a flush or the final flush is still to come. */
  predicate Due(s: Trace) {
    s.wake || s.signals > 0 || BeforeSnapshot(s.loop) || s.closed || s.fin.Closing?
  }

  /** No lost wake-up: a step that is in no snapshot yet has something coming for it. */
  ghost predicate Awake(s: Trace) {
    && s.log.seen <= |s.sh.steps|
    && (s.loop.Exited? || s.sh.degraded || s.log.seen == |s.sh.steps| || Due(s))
  }

  /** The final frame: once the loop has taken its last snapshot, the last frame shows the
      outcome and every step recorded before it. */
  ghost predicate FinalFrame(s: Trace) {
    && (s.loop.Creating? && s.loop.final ==> !s.sh.terminal.Open?)
    && ((s.loop.Patching? && s.loop.final) || (s.loop.Exited? && !s.sh.degraded) ==>
          && s.log.frames != []
          && var f := s.log.frames[|s.log.frames| - 1]; f.terminal == s.sh.terminal && |f.steps| >= s.log.atFinish && f.final)
  }

  ghost predicate Inv(s: Trace) {
    Control(s) && FramesOk(s) && Displayed(s) && OnCardOk(s) && Paced(s) && Awake(s) && FinalFrame(s)
  }

  predicate FlushStep(e: Step) {
    e.FlushLock? || e.FlushCreated? || e.FlushPatched?
  }

  predicate LoopStep(e: Step) {
    e.LoopWake? || e.LoopClosed? || e.LoopThrottle? || e.LoopTimer? || e.LoopCutShort?
  }

  lemma FlushKeepsControl(s: Trace, e: Step)
    requires Control(s) && Enabled(s, e) && FlushStep(e)
    ensures Control(Apply(s, e))
  {
  }

  lemma PatchKeepsFrames(s: Trace, final: bool)
    requires FramesOk(s) && s.sh.created
    ensures FramesOk(StartPatch(s, final))
  {
  }

  lemma CreateKeepsFrames(s: Trace, shot: seq<TraceStep>, t: Terminal)
    requires FramesOk(s) && !s.sh.created && shot <= s.sh.steps
    ensures FramesOk(CardCreated(s, shot, t, false))
  {
  }

  lemma FlushKeepsFrames(s: Trace, e: Step)
    requires Control(s) && FramesOk(s) && Enabled(s, e) && FlushStep(e)
    ensures FramesOk(ApplyFlush(s, e))
  {
    if e.FlushLock? {
      if !s.sh.degraded && s.sh.created {
        PatchKeepsFrames(s, s.loop.final);
      }
    } else if e.FlushCreated? && e.ok {
      CreateKeepsFrames(s, s.loop.shot, s.loop.t);
      PatchKeepsFrames(CardCreated(s, s.loop.shot, s.loop.t, false), true);
    }
  }

  lemma FlushKeepsDisplayed(s: Trace, e: Step)
    requires Control(s) && Displayed(s) && Enabled(s, e) && FlushStep(e)
    ensures Displayed(Apply(s, e))
  {
  }

  lemma OthersKeepDisplayed(s: Trace, e: Step)
    requires Control(s) && Displayed(s) && Enabled(s, e) && !FlushStep(e) && !Apply(s, e).log.overlap
    ensures Displayed(Apply(s, e))
  {
    if e.AckCall? || e.AckCreated? {
      AckKeepsDisplayed(s, e);
    }
  }

  lemma AckKeepsDisplayed(s: Trace, e: Step)
    requires Control(s) && Displayed(s) && Enabled(s, e) && (e.AckCall? || e.AckCreated?) && !Apply(s, e).log.overlap
    ensures Displayed(Apply(s, e))
  {
  }

  /** A patch comes after the interval, or is final. */
  lemma PatchKeepsPace(s: Trace, final: bool)
    requires Paced(s) && s.log.frames != []
    requires final || s.sh.lastPatch.value + s.minInterval <= s.now
    ensures Paced(StartPatch(s, final))
  {
    var t := StartPatch(s, final);
    forall i | 0 < i < |t.log.frames|
      ensures t.log.frames[i].final || t.log.frames[i - 1].at + t.minInterval <= t.log.frames[i].at
    {
      if i < |s.log.frames| {
        assert t.log.frames[i] == s.log.frames[i] && t.log.frames[i - 1] == s.log.frames[i - 1];
      }
    }
  }

  lemma CreateKeepsPace(s: Trace, shot: seq<TraceStep>, t: Terminal)
    requires Paced(s) && s.log.frames == [] && !s.loop.Sleeping? && !s.loop.Flushing?
    ensures Paced(CardCreated(s, shot, t, false))
  {
  }

  lemma FlushKeepsPace(s: Trace, e: Step)
    requires Inv(s) && Enabled(s, e) && FlushStep(e)
    ensures Paced(Apply(s, e))
  {
    if e.FlushLock? {
      if !s.sh.degraded && s.sh.created {
        PatchKeepsPace(s, s.loop.final);
      }
    } else if e.FlushCreated? {
      CreateKeepsPace(s, s.loop.shot, s.loop.t);
      PatchKeepsPace(CardCreated(s, s.loop.shot, s.loop.t, false), true);
    }
  }

  lemma FlushKeepsAwake(s: Trace, e: Step)
    requires Inv(s) && Enabled(s, e) && FlushStep(e)
    ensures Awake(Apply(s, e)) && FinalFrame(Apply(s, e))
  {
  }

  lemma LoopKeepsControl(s: Trace, e: Step)
    requires Control(s) && FramesOk(s) && Enabled(s, e) && LoopStep(e)
    ensures Control(Apply(s, e)) && FramesOk(Apply(s, e))
  {
  }

  lemma LoopKeepsRest(s: Trace, e: Step)
    requires Paced(s) && Awake(s) && FinalFrame(s) && Enabled(s, e) && LoopStep(e)
    ensures Paced(Apply(s, e)) && Awake(Apply(s, e)) && FinalFrame(Apply(s, e))
  {
  }

  lemma CallerKeepsControl(s: Trace, e: Step)
    requires Inv(s) && Enabled(s, e) && !FlushStep(e) && !LoopStep(e)
    requires !Apply(s, e).log.overlap
    ensures Control(Apply(s, e))
  {
  }

  lemma CallerKeepsFrames(s: Trace, e: Step)
    requires Inv(s) && Enabled(s, e) && !FlushStep(e) && !LoopStep(e)
    requires !Apply(s, e).log.overlap
    ensures FramesOk(Apply(s, e))
  {
  }

  lemma CallerKeepsPace(s: Trace, e: Step)
    requires Inv(s) && Enabled(s, e) && !FlushStep(e) && !LoopStep(e)
    requires !Apply(s, e).log.overlap
    ensures Paced(Apply(s, e))
  {
    if e.AckCreated? && e.ok {
      CreateKeepsPace(s, s.ack.shot, s.ack.t);
    }
  }

  lemma CallerKeepsAwake(s: Trace, e: Step)
    requires Inv(s) && Enabled(s, e) && !FlushStep(e) && !LoopStep(e)
    requires !Apply(s, e).log.overlap
    ensures Awake(Apply(s, e)) && FinalFrame(Apply(s, e))
  {
  }

  lemma FlushKeepsOnCard(s: Trace, e: Step)
    requires Control(s) && FramesOk(s) && OnCardOk(s) && Enabled(s, e) && FlushStep(e)
    ensures OnCardOk(Apply(s, e))
  {
  }

  lemma OthersKeepOnCard(s: Trace, e: Step)
    requires Control(s) && FramesOk(s) && OnCardOk(s) && Enabled(s, e) && !FlushStep(e)
    ensures OnCardOk(Apply(s, e))
  {
  }

  lemma InvStep(s: Trace, e: Step)
    requires Inv(s) && Enabled(s, e) && !Apply(s, e).log.overlap
    ensures Inv(Apply(s, e)) && Apply(s, e).minInterval == s.minInterval
  {
    if FlushStep(e) {
      FlushKeepsControl(s, e);
      FlushKeepsFrames(s, e);
      FlushKeepsPace(s, e);
      FlushKeepsAwake(s, e);
      FlushKeepsDisplayed(s, e);
      FlushKeepsOnCard(s, e);
    } else if LoopStep(e) {
      LoopKeepsControl(s, e);
      LoopKeepsRest(s, e);
      OthersKeepDisplayed(s, e);
      OthersKeepOnCard(s, e);
    } else {
      CallerKeepsControl(s, e);
      CallerKeepsFrames(s, e);
      CallerKeepsPace(s, e);
      CallerKeepsAwake(s, e);
      OthersKeepDisplayed(s, e);
      OthersKeepOnCard(s, e);
    }
  }

  lemma {:induction false} OverlapStays(s: Trace, es: seq<Step>, t: Trace)
    requires Reaches(s, es, t) && !t.log.overlap
    ensures !s.log.overlap
    decreases |es|
  {
    if es == [] {
    } else {
      OverlapStays(Apply(s, es[0]), es[1..], t);
    }
  }

  lemma {:induction false} InvRun(s: Trace, es: seq<Step>, t: Trace)
    requires Inv(s) && Reaches(s, es, t) && !t.log.overlap
    ensures Inv(t) && t.minInterval == s.minInterval
    decreases |es|
  {
    if es == [] {
    } else {
      var e, u := es[0], Apply(s, es[0]);
      OverlapStays(u, es[1..], t);
      InvStep(s, e);
      InvRun(u, es[1..], t);
    }
  }

  // ---------------------------------------------------------------- main results

  /** Provided Ack is over before the first Step and before Done or Fail: the card is created
      at most once, all later frames are patches of it, and two frames of which the second is
      not the final one are at least the minimum interval apart. */
  lemma CardCallsAreOrderly(minInterval: nat, es: seq<Step>, t: Trace)
    requires Reaches(Fresh(minInterval), es, t) && !t.log.overlap
    ensures t.log.createCalls <= 1
    ensures forall i | 0 <= i < |t.log.frames| :: t.log.frames[i].patch <==> i > 0
    ensures t.loop.Patching? ==> t.sh.created && !t.sh.degraded
    ensures forall i | 0 < i < |t.log.frames| :: t.log.frames[i].final || t.log.frames[i - 1].at + minInterval <= t.log.frames[i].at
    ensures forall i | 0 <= i < |t.log.frames| :: t.log.frames[i].steps <= t.sh.steps
  {
    InvRun(Fresh(minInterval), es, t);
  }

  /** The loop can go on, except when it sleeps and the clock has not reached the end of the
      interval, or when nothing is due. */
  predicate LoopCanGo(s: Trace) {
    || Enabled(s, LoopWake) || Enabled(s, LoopClosed) || Enabled(s, LoopThrottle) || Enabled(s, LoopTimer)
    || Enabled(s, FlushLock) || s.loop.Patching? || s.loop.Creating?
  }

  lemma DueMeansGoing(t: Trace)
    requires Control(t) && Displayed(t) && Awake(t)
    requires !t.loop.Exited? && !t.sh.degraded && Shown(t) < |t.sh.steps|
    ensures t.signals > 0 || t.fin.Closing? || t.loop.Sleeping? || LoopCanGo(t)
  {
  }

  /** No lost wake-up: as long as the loop has not ended and the card has not failed, a
      recorded step is in the last frame, or a caller of Step or Done still has to act, or the
      loop itself can go on or is waiting out the interval. */
  lemma NoStepIsForgotten(minInterval: nat, es: seq<Step>, t: Trace)
    requires Reaches(Fresh(minInterval), es, t) && !t.log.overlap
    requires !t.loop.Exited? && !t.sh.degraded && Shown(t) < |t.sh.steps|
    ensures t.signals > 0 || t.fin.Closing? || t.loop.Sleeping? || LoopCanGo(t)
    ensures t.loop.Sleeping? ==> Enabled(Apply(t, Tick(minInterval)), LoopTimer)
  {
    InvRun(Fresh(minInterval), es, t);
    DueMeansGoing(t);
    if t.log.frames != [] {
      assert t.log.frames[|t.log.frames| - 1].at <= t.now;
    }
  }

  /** When Done or Fail returns on a session that had shown or recorded anything, and the card
      was created, the last frame is final, has the outcome, and was rendered from at least
      every step recorded before the call; and the card shows it exactly if its PatchCard has
      succeeded, since a failed one is not repeated. */
  lemma LastFrameIsTrue(minInterval: nat, es: seq<Step>, t: Trace)
    requires Reaches(Fresh(minInterval), es, t) && !t.log.overlap && t.fin.Returned?
    ensures t.fin.started && !t.sh.degraded ==>
              t.log.frames != [] && var f := t.log.frames[|t.log.frames| - 1];
              && f.final && f.terminal == t.sh.terminal && !f.terminal.Open?
              && f.steps <= t.sh.steps && |f.steps| >= t.log.atFinish
              && t.log.onCard < |t.log.frames| && (t.log.onCard == |t.log.frames| - 1 <==> t.log.landed)
  {
    InvRun(Fresh(minInterval), es, t);
  }

  /** Done and Fail do return: once one got through, the chain close, final flush, return can
      go on at every point. */
  lemma FinishGoesThrough(minInterval: nat, es: seq<Step>, t: Trace)
    requires Reaches(Fresh(minInterval), es, t) && !t.log.overlap
    ensures t.fin.Closing? ==> Enabled(t, FinishClose)
    ensures t.fin.Awaiting? ==> Enabled(t, FinishReturn) || LoopCanGo(t) || Enabled(t, LoopCutShort)
  {
    InvRun(Fresh(minInterval), es, t);
  }

  // ---------------------------------------------------------------- how many cards

  /** The step sends a second CreateCard: the loop and Ack each find no card. */
  predicate DoubleCreate(s: Trace, e: Step) {
    && !s.sh.created && !s.sh.degraded
    && ((e.AckCall? && s.loop.Creating?) || (e.FlushLock? && s.ack.AckCreating?))
  }

  /** The run has such a step. */
  ghost predicate Doubled(s: Trace, es: seq<Step>)
    decreases |es|
  {
    es != [] && Enabled(s, es[0]) && (DoubleCreate(s, es[0]) || Doubled(Apply(s, es[0]), es[1..]))
  }

  /** Ack and the loop call CreateCard once each at most, in every order of the callers. */
  predicate CreatesOk(s: Trace) {
    && s.log.createCalls <= 2
    && (s.log.createCalls == 0 ==> !s.sh.created && !s.sh.degraded && !s.loop.Creating? && !s.ack.AckCreating?)
    && (s.log.createCalls == 1 ==> s.loop.Creating? || s.ack.AckCreating? || s.sh.created || s.sh.degraded)
    && (s.log.createCalls == 2 ==> !s.ack.NoAck? && (s.loop.Creating? || s.sh.created || s.sh.degraded))
    && (s.loop.Creating? && s.ack.AckCreating? ==> s.log.createCalls == 2)
  }

  lemma FlushLockCreates(s: Trace)
    requires CreatesOk(s) && Enabled(s, FlushLock)
    ensures CreatesOk(ApplyFlush(s, FlushLock))
    ensures ApplyFlush(s, FlushLock).log.createCalls == 2 <==> s.log.createCalls == 2 || DoubleCreate(s, FlushLock)
  {
  }

  lemma FlushCreatedCreates(s: Trace, ok: bool)
    requires CreatesOk(s) && Enabled(s, FlushCreated(ok))
    ensures CreatesOk(ApplyFlush(s, FlushCreated(ok)))
    ensures ApplyFlush(s, FlushCreated(ok)).log.createCalls == s.log.createCalls
  {
  }

  lemma FlushPatchedCreates(s: Trace, ok: bool)
    requires CreatesOk(s) && Enabled(s, FlushPatched(ok))
    ensures CreatesOk(ApplyFlush(s, FlushPatched(ok)))
    ensures ApplyFlush(s, FlushPatched(ok)).log.createCalls == s.log.createCalls
  {
  }

  lemma FlushCreates(s: Trace, e: Step)
    requires CreatesOk(s) && Enabled(s, e) && FlushStep(e)
    ensures CreatesOk(ApplyFlush(s, e))
    ensures ApplyFlush(s, e).log.createCalls == 2 <==> s.log.createCalls == 2 || DoubleCreate(s, e)
  {
    if e.FlushLock? {
      FlushLockCreates(s);
    } else if e.FlushCreated? {
      FlushCreatedCreates(s, e.ok);
    } else {
      FlushPatchedCreates(s, e.ok);
    }
  }

  lemma AckCallCreates(s: Trace)
    requires CreatesOk(s) && Enabled(s, AckCall)
    ensures CreatesOk(ApplyCaller(s, AckCall))
    ensures ApplyCaller(s, AckCall).log.createCalls == 2 <==> s.log.createCalls == 2 || DoubleCreate(s, AckCall)
  {
  }

  lemma AckCreatedCreates(s: Trace, ok: bool)
    requires CreatesOk(s) && Enabled(s, AckCreated(ok))
    ensures CreatesOk(ApplyCaller(s, AckCreated(ok)))
    ensures ApplyCaller(s, AckCreated(ok)).log.createCalls == s.log.createCalls
  {
  }

  /** The other callers create nothing, and change neither Ack nor the loop's work. */
  lemma OthersCreateNothing(s: Trace, e: Step)
    requires CreatesOk(s) && Enabled(s, e) && !FlushStep(e) && !LoopStep(e) && !e.AckCall? && !e.AckCreated?
    ensures CreatesOk(ApplyCaller(s, e))
    ensures ApplyCaller(s, e).log.createCalls == s.log.createCalls
  {
  }

  lemma CallerCreates(s: Trace, e: Step)
    requires CreatesOk(s) && Enabled(s, e) && !FlushStep(e) && !LoopStep(e)
    ensures CreatesOk(ApplyCaller(s, e))
    ensures ApplyCaller(s, e).log.createCalls == 2 <==> s.log.createCalls == 2 || DoubleCreate(s, e)
  {
    if e.AckCall? {
      AckCallCreates(s);
    } else if e.AckCreated? {
      AckCreatedCreates(s, e.ok);
    } else {
      OthersCreateNothing(s, e);
    }
  }

  lemma CreateStep(s: Trace, e: Step)
    requires CreatesOk(s) && Enabled(s, e)
    ensures CreatesOk(Apply(s, e))
    ensures Apply(s, e).log.createCalls == 2 <==> s.log.createCalls == 2 || DoubleCreate(s, e)
  {
    if FlushStep(e) {
      FlushCreates(s, e);
    } else if !LoopStep(e) {
      CallerCreates(s, e);
    }
  }

  lemma {:induction false} CreateRun(s: Trace, es: seq<Step>, t: Trace)
    requires CreatesOk(s) && Reaches(s, es, t)
    ensures CreatesOk(t)
    ensures t.log.createCalls == 2 <==> s.log.createCalls == 2 || Doubled(s, es)
    decreases |es|
  {
    if es == [] {
    } else {
      CreateStep(s, es[0]);
      CreateRun(Apply(s, es[0]), es[1..], t);
    }
  }

  /** Whatever the order of the callers, CreateCard is called at most twice; and it is called
      twice exactly in the runs in which Ack is called while the loop creates the card, or the
      loop finds no card while Ack creates it. */
  lemma CardIsCreatedTwiceExactlyWhen(minInterval: nat, es: seq<Step>, t: Trace)
    requires Reaches(Fresh(minInterval), es, t)
    ensures t.log.createCalls <= 2
    ensures t.log.createCalls == 2 <==> Doubled(Fresh(minInterval), es)
  {
    CreateRun(Fresh(minInterval), es, t);
  }

  // ---------------------------------------------------------------- outside the contract

  /** Without that order the card can be created twice: a Step starts the loop, which creates
      the card while Ack is creating it as well. */
  lemma OverlappingAckCreatesTwice(x: TraceStep, minInterval: nat)
    ensures exists es, t :: Reaches(Fresh(minInterval), es, t) && t.log.createCalls == 2
  {
    var s0 := Fresh(minInterval);
    var none: seq<TraceStep> := [];
    var s1 := s0.(ack := AckCreating(none, Open), log := s0.log.(createCalls := 1));
    assert Apply(s0, AckCall) == s1;
    var s2 := s1.(sh := s1.sh.(steps := [x]), signals := 1, log := s1.log.(overlap := true));
    assert none + [x] == [x] && Apply(s1, Record(x)) == s2;
    var s3 := s2.(signals := 0, wake := true, loop := Selecting);
    assert Apply(s2, Signal) == s3;
    var s4 := s3.(wake := false, loop := Woken);
    assert Apply(s3, LoopWake) == s4;
    var s5 := s4.(loop := Flushing(false));
    assert Apply(s4, LoopThrottle) == s5;
    assert Apply(s5, FlushLock).log.createCalls == 2;
    var r0: seq<Step> := [];
    Extend(s0, r0, s0, AckCall);
    var r1 := r0 + [AckCall];
    Extend(s0, r1, s1, Record(x));
    var r2 := r1 + [Record(x)];
    Extend(s0, r2, s2, Signal);
    var r3 := r2 + [Signal];
    Extend(s0, r3, s3, LoopWake);
    var r4 := r3 + [LoopWake];
    Extend(s0, r4, s4, LoopThrottle);
    var r5 := r4 + [LoopThrottle];
    Extend(s0, r5, s5, FlushLock);
  }

  lemma {:induction false} Extend(s: Trace, es: seq<Step>, t: Trace, e: Step)
    requires Reaches(s, es, t) && Enabled(t, e)
    ensures Reaches(s, es + [e], Apply(t, e))
    decreases |es|
  {
    if es == [] {
      assert [e][1..] == [];
      assert Reaches(Apply(t, e), [], Apply(t, e));
    } else {
      var u := Apply(s, es[0]);
      Extend(u, es[1..], t, e);
      assert (es + [e])[1..] == es[1..] + [e];
    }
  }

  predicate FinishedWithoutCard(s: Trace) {
    s.fin == Returned(false) && !s.sh.terminal.Open? && !s.closed && !IsFinal(s.loop)
  }

  lemma FlushEndsNothing(s: Trace, e: Step)
    requires FinishedWithoutCard(s) && Enabled(s, e) && FlushStep(e)
    ensures FinishedWithoutCard(ApplyFlush(s, e))
  {
  }

  lemma CallersEndNothing(s: Trace, e: Step)
    requires FinishedWithoutCard(s) && Enabled(s, e) && !FlushStep(e) && !LoopStep(e)
    ensures FinishedWithoutCard(ApplyCaller(s, e))
  {
  }

  lemma NothingEndsTheLoop(s: Trace, e: Step)
    requires FinishedWithoutCard(s) && Enabled(s, e)
    ensures FinishedWithoutCard(Apply(s, e))
  {
    if FlushStep(e) {
      FlushEndsNothing(s, e);
    } else if !LoopStep(e) {
      CallersEndNothing(s, e);
    }
  }

  /** A Step after a Done or Fail that found nothing to show starts a loop that nothing ends. */
  lemma {:induction false} LateStepStartsAnEndlessLoop(s: Trace, es: seq<Step>, t: Trace)
    requires FinishedWithoutCard(s) && Reaches(s, es, t)
    ensures FinishedWithoutCard(t) && !t.loop.Exited?
    decreases |es|
  {
    if es == [] {
    } else {
      var e, u := es[0], Apply(s, es[0]);
      NothingEndsTheLoop(s, e);
      LateStepStartsAnEndlessLoop(u, es[1..], t);
    }
  }

  /** Such a loop exists: a Fail before anything was shown, then a Step. */
  lemma LateStepExample(x: TraceStep, reason: string, minInterval: nat)
    ensures exists es, t :: Reaches(Fresh(minInterval), es, t) && FinishedWithoutCard(t) && t.loop.Selecting? && t.sh.steps == [x]
  {
    var s0 := Fresh(minInterval);
    var s1 := Apply(s0, FinishCall(FailedBecause(reason)));
    var s2 := Apply(s1, Record(x));
    var s3 := Apply(s2, Signal);
    var r0: seq<Step> := [];
    Extend(s0, r0, s0, FinishCall(FailedBecause(reason)));
    var r1 := r0 + [FinishCall(FailedBecause(reason))];
    Extend(s0, r1, s1, Record(x));
    Extend(s0, r1 + [Record(x)], s2, Signal);
    var none: seq<TraceStep> := [];
    assert none + [x] == [x];
  }

  /** How the finish and the loop fit together, in every order of the callers. */
  predicate EndsOk(s: Trace) {
    && (s.sh.terminal.Open? <==> s.fin.NotFinished?)
    && (s.closed <==> s.fin.Awaiting? || s.fin == Returned(true))
    && (s.closed ==> !s.loop.NotStarted?)
    && (IsFinal(s.loop) ==> s.closed)
  }

  lemma FlushKeepsEnds(s: Trace, e: Step)
    requires EndsOk(s) && Enabled(s, e) && FlushStep(e)
    ensures EndsOk(ApplyFlush(s, e))
  {
  }

  lemma CallerKeepsEnds(s: Trace, e: Step)
    requires EndsOk(s) && Enabled(s, e) && !FlushStep(e) && !LoopStep(e)
    ensures EndsOk(ApplyCaller(s, e))
  {
  }

  lemma {:induction false} EndsRun(s: Trace, es: seq<Step>, t: Trace)
    requires EndsOk(s) && Reaches(s, es, t)
    ensures EndsOk(t)
    decreases |es|
  {
    if es == [] {
    } else {
      if FlushStep(es[0]) {
        FlushKeepsEnds(s, es[0]);
      } else if !LoopStep(es[0]) {
        CallerKeepsEnds(s, es[0]);
      }
      EndsRun(Apply(s, es[0]), es[1..], t);
    }
  }

  /** How far the loop is from its end once the session is closed. */
  function ToEnd(l: Loop): nat {
    match l
    case NotStarted => 7
    case Woken => 6
    case Flushing(final) => if final then 2 else 5
    case Creating(final, _, _) => if final then 1 else 4
    case Patching(final) => if final then 1 else 4
    case Selecting => 3
    case Sleeping(_) => 3
    case Exited => 0
  }

  /** The step with which the loop of a closed session goes on. */
  function NextToEnd(l: Loop): Step {
    match l
    case NotStarted => LoopWake
    case Woken => LoopThrottle
    case Flushing(_) => FlushLock
    case Creating(_, _, _) => FlushCreated(false)
    case Patching(_) => FlushPatched(false)
    case Selecting => LoopClosed
    case Sleeping(_) => LoopCutShort
    case Exited => LoopWake
  }

  lemma ClosedLoopGoesOn(s: Trace)
    requires s.closed && !s.loop.NotStarted? && !s.loop.Exited?
    ensures Enabled(s, NextToEnd(s.loop))
    ensures var t := Apply(s, NextToEnd(s.loop));
            t.closed && !t.loop.NotStarted? && ToEnd(t.loop) < ToEnd(s.loop)
  {
  }

  /** The run can be continued until the loop has ended. */
  ghost predicate CanEnd(s: Trace) {
    exists es, t :: Reaches(s, es, t) && t.loop.Exited?
  }

  lemma CanEndFirst(s: Trace, e: Step)
    requires Enabled(s, e) && CanEnd(Apply(s, e))
    ensures CanEnd(s)
  {
    var es, t :| Reaches(Apply(s, e), es, t) && t.loop.Exited?;
    assert ([e] + es)[0] == e && ([e] + es)[1..] == es;
    assert Reaches(s, [e] + es, t);
  }

  lemma {:induction false} ClosedLoopCanEnd(s: Trace)
    requires s.closed && !s.loop.NotStarted?
    ensures CanEnd(s)
    decreases ToEnd(s.loop)
  {
    if s.loop.Exited? {
      var none: seq<Step> := [];
      assert Reaches(s, none, s);
    } else {
      ClosedLoopGoesOn(s);
      ClosedLoopCanEnd(Apply(s, NextToEnd(s.loop)));
      CanEndFirst(s, NextToEnd(s.loop));
    }
  }

  /** Once a Done or Fail has got through, the loop of the session can end exactly if that call
      found something shown or recorded; otherwise a loop that a later Step starts never does. */
  lemma LoopCanEndExactlyWhen(minInterval: nat, es: seq<Step>, t: Trace)
    requires Reaches(Fresh(minInterval), es, t) && !t.sh.terminal.Open?
    ensures CanEnd(t) <==> t.fin != Returned(false)
  {
    EndsRun(Fresh(minInterval), es, t);
    if t.fin == Returned(false) {
      forall fs, u | Reaches(t, fs, u)
        ensures !u.loop.Exited?
      {
        LateStepStartsAnEndlessLoop(t, fs, u);
      }
    } else if t.fin.Closing? {
      ClosedLoopCanEnd(Apply(t, FinishClose));
      CanEndFirst(t, FinishClose);
    } else {
      ClosedLoopCanEnd(t);
    }
  }

  // ---------------------------------------------------------------- a failed last request

  /** The session is finished, the card was created, and the final PatchCard is under way. */
  function LastPatch(minInterval: nat): Trace {
    var none: seq<TraceStep> := [];
    var log := Log([Frame(false, none, Open, 0, false), Frame(true, none, DoneWell, 0, true)], 1, 0, 1, 0, true, 0, false);
    Trace(minInterval, 0, Shared(none, true, false, DoneWell, Some(0)), false, true, false,
          Patching(true), Acked(true), 0, Awaiting, log)
  }

  /** The same before Done is called. */
  function Acknowledged(minInterval: nat): Trace {
    var none: seq<TraceStep> := [];
    Trace(minInterval, 0, Shared(none, true, false, Open, Some(0)), false, false, false,
          Selecting, Acked(true), 0, NotFinished, Log([Frame(false, none, Open, 0, false)], 1, 0, 0, 0, true, 0, false))
  }

  lemma AcknowledgedIsReached(minInterval: nat)
    ensures exists es :: Reaches(Fresh(minInterval), es, Acknowledged(minInterval))
  {
    var s0 := Fresh(minInterval);
    var none: seq<TraceStep> := [];
    var s1 := s0.(ack := AckCreating(none, Open), log := s0.log.(createCalls := 1));
    assert Apply(s0, AckCall) == s1;
    assert Apply(s1, AckCreated(true)) == Acknowledged(minInterval);
    var r0: seq<Step> := [];
    Extend(s0, r0, s0, AckCall);
    Extend(s0, r0 + [AckCall], s1, AckCreated(true));
  }

  lemma LastPatchIsReached(minInterval: nat)
    ensures exists es :: Reaches(Fresh(minInterval), es, LastPatch(minInterval))
  {
    AcknowledgedIsReached(minInterval);
    var s0, s := Fresh(minInterval), Acknowledged(minInterval);
    var es :| Reaches(s0, es, s);
    var s1 := s.(sh := s.sh.(terminal := DoneWell), fin := Closing);
    assert Apply(s, FinishCall(DoneWell)) == s1;
    Extend(s0, es, s, FinishCall(DoneWell));
    var s2 := s1.(closed := true, fin := Awaiting);
    assert Apply(s1, FinishClose) == s2;
    Extend(s0, es + [FinishCall(DoneWell)], s1, FinishClose);
    var s3 := s2.(loop := Flushing(true));
    assert Apply(s2, LoopClosed) == s3;
    Extend(s0, es + [FinishCall(DoneWell)] + [FinishClose], s2, LoopClosed);
    assert Apply(s3, FlushLock) == LastPatch(minInterval);
    Extend(s0, es + [FinishCall(DoneWell)] + [FinishClose] + [LoopClosed], s3, FlushLock);
  }

  /** A failed final request leaves the card as it was: Done has returned, nothing is left to
      be done, and the card still says that the turn is under way. */
  lemma FailedLastRequestStaysOpen(minInterval: nat)
    ensures exists es, t :: Reaches(Fresh(minInterval), es, t) && !t.log.overlap && t.fin == Returned(true) && t.loop.Exited?
                            && !t.sh.degraded && t.log.onCard < |t.log.frames| && t.log.frames[t.log.onCard].terminal.Open?
  {
    LastPatchIsReached(minInterval);
    var s0, s := Fresh(minInterval), LastPatch(minInterval);
    var es :| Reaches(s0, es, s);
    Extend(s0, es, s, FlushPatched(false));
    var s1 := Apply(s, FlushPatched(false));
    Extend(s0, es + [FlushPatched(false)], s1, FinishReturn);
  }
}
