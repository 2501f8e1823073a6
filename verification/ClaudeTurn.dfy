/** The claude runtime: one long-lived process, one turn at a time, one reader. The check for
    a broken runtime and the publication of the turn's channel share a critical section. */
module ClaudeTurn {
  import opened Common
  import opened AgentStates

  /** What the reader sends to a turn; every event ends the turn. */
  datatype Event = Done(text: string, isError: bool) | ReadError

  datatype Result = Answer(text: string) | AgentError(text: string) | Failed

  datatype Phase =
    | Sending                   // channel published, prompt not written yet
    | Waiting
    | Clearing(r: Result)       // the deferred clean-up has not run yet
    | Finished(r: Result)

  datatype Turn = Turn(phase: Phase, ch: seq<Event>, ctxDone: bool, wrote: bool)

  datatype Reader =
    | Reading
    | Pushing(k: nat, e: Event) // a result line; the channel has been looked up
    | Ended                     // the stream has ended, markBroken has run
    | Reporting(k: nat)         // the channel for the error has been looked up
    | Gone

  /** The fields the mutex guards. */
  datatype Shared = Shared(state: RuntimeState, active: Option<nat>, sessionID: string)

  datatype World = World(shared: Shared, reader: Reader, turns: seq<Turn>)

  const INITIAL := World(Shared(Ready, None, ""), Reading, [])

  datatype Step =
    | Start
    | Write(ok: bool)
    | CtxFires
    | Timeout
    | Receive
    | Clear
    | ResultLine(text: string, isError: bool)
    | Push
    | EndOfStream
    | LookForTurn
    | Report
    | InitLine(id: string)        // the agent names its session
    | Close

  predicate InRun(w: World) {
    |w.turns| > 0 && !w.turns[|w.turns| - 1].phase.Finished?
  }

  function Now(w: World): Turn
    requires |w.turns| > 0
  {
    w.turns[|w.turns| - 1]
  }

  predicate Enabled(w: World, e: Step) {
    match e
    case Start => !InRun(w)
    case Write(_) => InRun(w) && Now(w).phase.Sending?
    case CtxFires => InRun(w)
    case Timeout => InRun(w) && Now(w).phase.Waiting? && Now(w).ctxDone
    case Receive => InRun(w) && Now(w).phase.Waiting? && Now(w).ch != []
    case Clear => InRun(w) && Now(w).phase.Clearing?
    case ResultLine(_, _) => w.reader.Reading?
    case Push => w.reader.Pushing? && w.reader.k < |w.turns|
    case EndOfStream => w.reader.Reading?
    case LookForTurn => w.reader.Ended?
    case Report => w.reader.Reporting? && w.reader.k < |w.turns|
    case InitLine(_) => w.reader.Reading?
    case Close => true
  }

  // ---------------------------------------------------------------- critical sections

  /** The first section of Run. */
  function Begin(s: Shared, k: nat): Shared {
    if s.state.Broken? then s else s.(state := Running, active := Some(k))
  }

  function TurnDone(s: Shared): Shared {
    s.(state := AfterTurn(s.state))
  }

  function Cleared(s: Shared, k: nat): Shared {
    if s.active == Some(k) then s.(active := None) else s
  }

  function ResultOf(e: Event): Result {
    match e
    case ReadError => Failed
    case Done(text, isError) =>
      if !isError then Answer(Trim(text))
      else AgentError(if Trim(text) == "" then "claude acp returned an error" else Trim(text))
  }

  /** The first session id that the agent names is kept. */
  function Captured(s: Shared, id: string): Shared {
    if id != "" && s.sessionID == "" then s.(sessionID := id) else s
  }

  function Put(w: World, k: nat, t: Turn): World
    requires k < |w.turns|
  {
    w.(turns := w.turns[k := t])
  }

  function PutNow(w: World, t: Turn): World
    requires |w.turns| > 0
  {
    Put(w, |w.turns| - 1, t)
  }

  function Apply(w: World, e: Step): World
    requires Enabled(w, e)
  {
    match e
    case Start =>
      w.(shared := Begin(w.shared, |w.turns|),
         turns := w.turns + [Turn(if w.shared.state.Broken? then Finished(Failed) else Sending, [], false, false)])
    case Write(ok) =>
      if ok then PutNow(w, Now(w).(phase := Waiting, wrote := true))
      else PutNow(w, Now(w).(phase := Clearing(Failed))).(shared := w.shared.(state := Broken))
    case CtxFires => PutNow(w, Now(w).(ctxDone := true))
    case Timeout => PutNow(w, Now(w).(phase := Clearing(Failed))).(shared := w.shared.(state := Broken))
    case Receive =>
      var t := Now(w);
      PutNow(w, t.(phase := Clearing(ResultOf(t.ch[0])), ch := t.ch[1..]))
      .(shared := if t.ch[0].ReadError? then w.shared.(state := Broken) else TurnDone(w.shared))
    case Clear =>
      PutNow(w, Now(w).(phase := Finished(Now(w).phase.r))).(shared := Cleared(w.shared, |w.turns| - 1))
    case ResultLine(text, isError) =>
      if w.shared.active.Some? then w.(reader := Pushing(w.shared.active.value, Done(text, isError))) else w
    case Push =>
      var k := w.reader.k;
      Put(w, k, w.turns[k].(ch := Offer(w.turns[k].ch, w.reader.e))).(reader := Reading)
    case EndOfStream => w.(reader := Ended, shared := w.shared.(state := Broken))
    case LookForTurn => w.(reader := if w.shared.active.Some? then Reporting(w.shared.active.value) else Gone)
    case Report =>
      var k := w.reader.k;
      Put(w, k, w.turns[k].(ch := Offer(w.turns[k].ch, ReadError))).(reader := Gone)
    case InitLine(id) => w.(shared := Captured(w.shared, id))
    case Close => w.(shared := w.shared.(state := Broken))
  }

  ghost predicate Reaches(w: World, es: seq<Step>, v: World)
    decreases |es|
  {
    if es == [] then w == v else Enabled(w, es[0]) && Reaches(Apply(w, es[0]), es[1..], v)
  }

  class ACPRuntime {
    var state: RuntimeState
    var active: Option<nat>
    var readErr: Option<string>
    var sessionID: string

    ghost function View(): Shared
      reads this
    {
      Shared(state, active, sessionID)
    }

    constructor ()
      ensures View() == INITIAL.shared && readErr == None
    {
      state, active, readErr, sessionID := Ready, None, None, "";
    }

    method BeginTurn(k: nat) returns (ok: bool)
      modifies this`state, this`active
      ensures View() == Begin(old(View()), k) && ok == !old(state).Broken?
    {
      if state == Broken {
        return false;
      }
      state, active := Running, Some(k);
      return true;
    }

    method EndTurn()
      modifies this`state
      ensures View() == TurnDone(old(View()))
    {
      if state != Broken {
        state := Ready;
      }
    }

    method ClearTurn(k: nat)
      modifies this`active
      ensures View() == Cleared(old(View()), k)
    {
      if active == Some(k) {
        active := None;
      }
    }

    /** The first cause of death is kept. */
    method MarkBroken(err: string)
      modifies this`state, this`readErr
      ensures View() == old(View()).(state := Broken)
      ensures readErr == if old(readErr).None? then Some(err) else old(readErr)
    {
      if readErr == None {
        readErr := Some(err);
      }
      state := Broken;
    }

    /** The init event. */
    method CaptureSession(id: string)
      modifies this`sessionID
      ensures View() == Captured(old(View()), id)
    {
      if id != "" {
        if sessionID == "" {
          sessionID := id;
        }
      }
    }
  }

  // ---------------------------------------------------------------- main results

  predicate Expecting(p: Phase) {
    p.Sending? || p.Waiting?
  }

  /** The turn in progress is published; once the stream has ended the runtime is broken, and
      the turn in progress is about to be told or has something to read. */
  ghost predicate Inv(w: World) {
    && (forall k: nat | k < |w.turns| - 1 :: w.turns[k].phase.Finished?)
    && (InRun(w) <==> w.shared.active == Some(|w.turns| - 1))
    && (!InRun(w) ==> w.shared.active.None?)
    && (!w.reader.Reading? && !w.reader.Pushing? ==> w.shared.state.Broken?)
    && (w.reader.Pushing? ==> w.reader.k < |w.turns|)
    && (w.reader.Reporting? ==> w.reader.k < |w.turns|)
    && (w.reader.Reporting? && InRun(w) ==> w.reader.k == |w.turns| - 1)
    && (w.reader.Gone? && InRun(w) && Expecting(Now(w).phase) ==> Now(w).ch != [])
  }

  lemma InvStep(w: World, e: Step)
    requires Inv(w) && Enabled(w, e)
    ensures Inv(Apply(w, e))
  {
  }

  lemma {:induction false} InvRun(w: World, es: seq<Step>, v: World)
    requires Inv(w) && Reaches(w, es, v)
    ensures Inv(v)
    decreases |es|
  {
    if es == [] {
    } else {
      InvStep(w, es[0]);
      InvRun(Apply(w, es[0]), es[1..], v);
    }
  }

  /** Death is not missed: once the reader is gone, a turn that still waits has an event in
      its channel, whatever its timing relative to the end of the stream; no turn can start
      any more, and until the reader is gone it is still on its way to tell the turn. */
  lemma DeathIsNotMissed(es: seq<Step>, w: World)
    requires Reaches(INITIAL, es, w)
    ensures w.reader.Gone? && InRun(w) && Now(w).phase.Waiting? ==> Enabled(w, Receive)
    ensures w.reader.Gone? && !InRun(w) ==> Apply(w, Start).turns[|w.turns|].phase == Finished(Failed)
    ensures (w.reader.Ended? ==> Enabled(w, LookForTurn)) && (w.reader.Reporting? ==> Enabled(w, Report))
  {
    InvRun(INITIAL, es, w);
  }

  /** Broken is absorbing, and a Run that begins broken fails without writing. */
  lemma {:induction false} BrokenIsAbsorbing(w: World, es: seq<Step>, v: World, n: nat)
    requires w.shared.state.Broken? && Inv(w) && Reaches(w, es, v)
    requires n <= |w.turns| && forall k: nat | n <= k < |w.turns| :: w.turns[k].phase == Finished(Failed) && !w.turns[k].wrote
    ensures v.shared.state.Broken? && n <= |v.turns|
    ensures forall k: nat | n <= k < |v.turns| :: v.turns[k].phase == Finished(Failed) && !v.turns[k].wrote
    decreases |es|
  {
    if es == [] {
    } else {
      InvStep(w, es[0]);
      BrokenIsAbsorbing(Apply(w, es[0]), es[1..], v, n);
    }
  }

  /** The first session id named in the lines of a run, "" if none is. */
  function FirstNamed(es: seq<Step>): string {
    if es == [] then ""
    else if es[0].InitLine? && es[0].id != "" then es[0].id
    else FirstNamed(es[1..])
  }

  lemma {:induction false} SessionIDAfter(w: World, es: seq<Step>, v: World)
    requires Reaches(w, es, v)
    ensures v.shared.sessionID == if w.shared.sessionID != "" then w.shared.sessionID else FirstNamed(es)
    decreases |es|
  {
    if es == [] {
    } else {
      SessionIDAfter(Apply(w, es[0]), es[1..], v);
    }
  }

  /** The session id that answers carry is the first one the agent ever named; later init
      events, whatever turn they fall into, do not change it. */
  lemma SessionIDIsTheFirstNamed(es: seq<Step>, w: World)
    requires Reaches(INITIAL, es, w)
    ensures w.shared.sessionID == FirstNamed(es)
  {
    SessionIDAfter(INITIAL, es, w);
  }
}
