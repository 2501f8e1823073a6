/** Turns of the codex runtime: a thread is resumed or started, one request starts the turn,
    and the reader routes streamed text, the completion and its own end to the turn. Other
    than in the opencode runtime, a completion is dropped like any event when the backlog is full. */
module CodexTurn {
  import opened Common
  import opened AgentStates
  import opened TurnEvents

  datatype Run =
    | Ensuring                // ensureThread has not looked yet
    | Resuming                // waits for thread/resume
    | Opening                 // waits for thread/start
    | Activating(tid: string)
    | Looping
    | Clearing(r: Result)     // the deferred clean-up of the routing has not run yet
    | Finished(r: Result)

  /** The goroutine that asks for the turn to be started. */
  datatype Sender =
    | NotYet
    | Unsent                  // not registered yet
    | Asking(told: bool)      // waits; told: the reader has told it that the stream has ended
    | Stopped

  /** What has happened in a turn; nothing reads it. */
  datatype Log = Log(
    resumes: nat,             // thread/resume requests
    starts: nat,              // thread/start requests
    prompt: Option<string>,   // the thread of the turn/start request
    offered: seq<string>,     // texts handled for the turn before its first completion
    completions: nat,         // completions handled for the turn
    queued: nat,              // those that found room
    dropped: nat,             // texts that met a full backlog
    late: bool,               // published after the ended reader had looked for a turn
    told: bool,               // the ended reader has queued its report
    reportLost: bool)         // the report met a full backlog

  datatype Turn = Turn(
    workDir: string,
    run: Run,
    sender: Sender,
    ch: seq<Event>,
    parts: seq<string>,
    ctxDone: bool,
    log: Log)

  datatype Reader =
    | Reading
    | Pushing(k: nat, e: Event)
    | Ended                         // markBroken has run
    | Reporting(target: Option<nat>)  // the turn to tell has been looked up
    | Gone

  datatype World = World(
    resumeID: string,         // from the spec, trimmed; "" when there is none
    state: RuntimeState,
    threadID: string,         // "" when there is none
    threadDir: string,
    activeThread: string,
    activeTurn: Option<nat>,  // whose channel activeTurnCh is
    reader: Reader,
    turns: seq<Turn>)         // every Run so far; only the last one may be in progress

  function Initial(resumeID: string): World {
    World(resumeID, Ready, "", "", "", None, Reading, [])
  }

  const NEW_LOG := Log(0, 0, None, [], 0, 0, 0, false, false, false)

  datatype RunStep =
    | Start(workDir: string)
    | LookForThread
    | Resumed(id: Option<string>)
    | Opened(id: Option<string>)
    | Publish
    | LoopTimeout
    | LoopReceive
    | Clear

  datatype SenderStep = Register | Accepted | Refused

  datatype Step =
    | ByRun(r: RunStep)
    | BySender(k: nat, s: SenderStep)
    | CtxFires(k: nat)
    | TextLine(tid: string, text: string)
    | CompletionLine(tid: string)
    | Push
    | Die
    | Snapshot
    | Report
    | Close

  predicate InRun(w: World) {
    |w.turns| > 0 && !w.turns[|w.turns| - 1].run.Finished?
  }

  function Now(w: World): Turn
    requires |w.turns| > 0
  {
    w.turns[|w.turns| - 1]
  }

  predicate ValidId(id: Option<string>) {
    id.Some? ==> id.value != ""
  }

  predicate RunEnabled(w: World, r: RunStep) {
    if r.Start? then !InRun(w)
    else
      && InRun(w)
      && match r
         case LookForThread => Now(w).run.Ensuring?
         case Resumed(id) => Now(w).run.Resuming? && ValidId(id)
         case Opened(id) => Now(w).run.Opening? && ValidId(id)
         case Publish => Now(w).run.Activating?
         case LoopTimeout => Now(w).run.Looping? && Now(w).ctxDone
         case LoopReceive => Now(w).run.Looping? && Now(w).ch != []
         case Clear => Now(w).run.Clearing?
         case Start(_) => true
  }

  predicate SenderEnabled(w: World, t: Turn, s: SenderStep) {
    match s
    case Register => t.sender.Unsent?
    case Accepted => t.sender.Asking? && w.reader.Reading?
    case Refused => t.sender.Unsent? || (t.sender.Asking? && (w.reader.Reading? || t.ctxDone || t.sender.told))
  }

  predicate Enabled(w: World, e: Step) {
    match e
    case ByRun(r) => RunEnabled(w, r)
    case BySender(k, s) => k < |w.turns| && SenderEnabled(w, w.turns[k], s)
    case CtxFires(k) => k < |w.turns|
    case TextLine(_, text) => w.reader.Reading? && text != ""
    case CompletionLine(_) => w.reader.Reading?
    case Push => w.reader.Pushing? && w.reader.k < |w.turns|
    case Die => w.reader.Reading?
    case Snapshot => w.reader.Ended?
    case Report => w.reader.Reporting? && (w.reader.target.Some? ==> w.reader.target.value < |w.turns|)
    case Close => true
  }

  /** The ended reader has looked for a turn to tell. */
  predicate PastSnapshot(r: Reader) {
    r.Reporting? || r.Gone?
  }

  function Put(w: World, k: nat, t: Turn): World
    requires k < |w.turns|
  {
    w.(turns := w.turns[k := t])
  }

  /** dispatchTurnEvent: the turn that an update for thread tid goes to. */
  function Route(w: World, tid: string): Option<nat> {
    if tid != "" && w.activeThread != "" && tid != w.activeThread then None else w.activeTurn
  }

  function PushText(t: Turn, s: string): Turn {
    t.(ch := Offer(t.ch, Text(s)),
       log := t.log.(dropped := t.log.dropped + (if |t.ch| < BACKLOG then 0 else 1),
                     offered := if t.log.completions == 0 then t.log.offered + [s] else t.log.offered))
  }

  function PushCompleted(t: Turn): Turn {
    t.(ch := Offer(t.ch, Completed),
       log := t.log.(completions := t.log.completions + 1,
                     queued := t.log.queued + (if |t.ch| < BACKLOG then 1 else 0)))
  }

  function PushTurn(t: Turn, e: Event): Turn {
    if e.Text? then PushText(t, e.s) else PushCompleted(t)
  }

  function PushReport(t: Turn): Turn {
    t.(ch := Offer(t.ch, Failure),
       log := if |t.ch| < BACKLOG then t.log.(told := true) else t.log.(reportLost := true))
  }

  function ReceiveEvent(t: Turn, e: Event): Turn {
    match e
    case Text(s) => t.(parts := t.parts + [s])
    case Failure => t.(run := Clearing(Failed))
    case Completed =>
      var text := Trim(Concat(t.parts));
      t.(run := Clearing(if text == "" then Failed else Answer(text)))
  }

  function ReceiveState(state: RuntimeState, t: Turn, e: Event): RuntimeState {
    match e
    case Text(_) => state
    case Failure => Broken
    case Completed => if Trim(Concat(t.parts)) == "" then Broken else AfterTurn(state)
  }

  /** What a step of Run does to its own turn, after the start. */
  function RunTurn(w: World, t: Turn, r: RunStep): Turn
    requires RunEnabled(w, r) && !r.Start? && t == Now(w)
  {
    match r
    case LookForThread =>
      if w.threadID != "" && w.threadDir == t.workDir then t.(run := Activating(w.threadID))
      else if w.threadID == "" && w.resumeID != "" then t.(run := Resuming, log := t.log.(resumes := t.log.resumes + 1))
      else t.(run := Opening, log := t.log.(starts := t.log.starts + 1))
    case Resumed(id) =>
      if id.Some? then t.(run := Activating(id.value))
      else t.(run := Opening, log := t.log.(starts := t.log.starts + 1))
    case Opened(id) => t.(run := if id.None? then Finished(Failed) else Activating(id.value))
    case Publish =>
      t.(run := Looping, sender := Unsent,
         log := t.log.(prompt := Some(t.run.tid), late := PastSnapshot(w.reader)))
    case LoopTimeout => t.(run := Clearing(Failed))
    case LoopReceive => ReceiveEvent(t.(ch := t.ch[1..]), t.ch[0])
    case Clear => t.(run := Finished(t.run.r))
  }

  /** What it does to the runtime's fields. */
  function RunShared(w: World, t: Turn, r: RunStep): World
    requires RunEnabled(w, r) && !r.Start? && t == Now(w)
  {
    match r
    case LookForThread => w
    case Resumed(id) => if id.None? then w else w.(threadID := id.value, threadDir := t.workDir)
    case Opened(id) => if id.None? then w.(state := Broken) else w.(threadID := id.value, threadDir := t.workDir)
    case Publish => w.(activeThread := t.run.tid, activeTurn := Some(|w.turns| - 1))
    case LoopTimeout => w.(state := Broken)
    case LoopReceive => w.(state := ReceiveState(w.state, t, t.ch[0]))
    case Clear => if w.activeTurn == Some(|w.turns| - 1) then w.(activeTurn := None, activeThread := "") else w
  }

  /** A Run that finds the runtime broken fails at once. */
  function StartRun(w: World, dir: string): World {
    w.(state := if w.state.Broken? then Broken else Running,
       turns := w.turns + [Turn(dir, if w.state.Broken? then Finished(Failed) else Ensuring, NotYet, [], [], false, NEW_LOG)])
  }

  function ApplyRun(w: World, r: RunStep): World
    requires RunEnabled(w, r)
  {
    if r.Start? then StartRun(w, r.workDir)
    else Put(RunShared(w, Now(w), r), |w.turns| - 1, RunTurn(w, Now(w), r))
  }

  function SenderTurn(w: World, t: Turn, s: SenderStep): Turn
    requires SenderEnabled(w, t, s)
  {
    match s
    case Register => t.(sender := Asking(false))
    case Accepted => t.(sender := Stopped)
    case Refused => t.(sender := Stopped, ch := Offer(t.ch, Failure))
  }

  /** The turn as the ended reader leaves it when it tells all pending requests. */
  function ToldTurn(t: Turn): Turn {
    if t.sender.Asking? then t.(sender := Asking(true)) else t
  }

  function ApplyPush(w: World): World
    requires Enabled(w, Push)
  {
    Put(w, w.reader.k, PushTurn(w.turns[w.reader.k], w.reader.e)).(reader := Reading)
  }

  function ApplyReport(w: World): World
    requires Enabled(w, Report)
  {
    var v := w.(reader := Gone);
    if w.reader.target.Some? then Put(v, w.reader.target.value, PushReport(w.turns[w.reader.target.value])) else v
  }

  function ApplyLine(w: World, tid: string, e: Event): World {
    if Route(w, tid).Some? then w.(reader := Pushing(Route(w, tid).value, e)) else w
  }

  function Apply(w: World, e: Step): World
    requires Enabled(w, e)
  {
    match e
    case ByRun(r) => ApplyRun(w, r)
    case BySender(k, s) => Put(w, k, SenderTurn(w, w.turns[k], s))
    case CtxFires(k) => Put(w, k, w.turns[k].(ctxDone := true))
    case TextLine(tid, text) => ApplyLine(w, tid, Text(text))
    case CompletionLine(tid) => ApplyLine(w, tid, Completed)
    case Push => ApplyPush(w)
    case Die => w.(state := Broken, reader := Ended)
    case Snapshot =>
      w.(reader := Reporting(w.activeTurn),
         turns := seq(|w.turns|, i requires 0 <= i < |w.turns| => ToldTurn(w.turns[i])))
    case Report => ApplyReport(w)
    case Close => w.(state := Broken)
  }

  ghost predicate Reaches(w: World, es: seq<Step>, v: World)
    decreases |es|
  {
    if es == [] then w == v else Enabled(w, es[0]) && Reaches(Apply(w, es[0]), es[1..], v)
  }

  // ---------------------------------------------------------------- critical sections

  class ACPRuntime {
    const resumeID: string
    var state: RuntimeState
    var readErr: Option<string>
    var threadID: string
    var threadWorkDir: string
    var activeThread: string
    var activeTurn: Option<nat>

    /** The fields are those of the machine's state w. */
    ghost predicate Mirrors(w: World)
      reads this
    {
      && resumeID == w.resumeID && state == w.state
      && threadID == w.threadID && threadWorkDir == w.threadDir
      && activeThread == w.activeThread && activeTurn == w.activeTurn
    }

    constructor (resumeID: string)
      ensures Mirrors(Initial(resumeID)) && readErr == None
    {
      this.resumeID := resumeID;
      state, readErr, threadID, threadWorkDir := Ready, None, "", "";
      activeThread, activeTurn := "", None;
    }

    method BeginRun(dir: string, ghost w: World) returns (ok: bool)
      requires Mirrors(w) && !InRun(w)
      modifies this`state
      ensures Mirrors(Apply(w, ByRun(Start(dir)))) && ok == !w.state.Broken?
    {
      if state == Broken {
        return false;
      }
      state := Running;
      return true;
    }

    /** ensureThread up to its first request. */
    method FindThread(dir: string, ghost w: World) returns (next: Run)
      requires Mirrors(w) && RunEnabled(w, LookForThread) && Now(w).workDir == dir
      ensures next == Now(Apply(w, ByRun(LookForThread))).run
    {
      if threadID != "" && threadWorkDir == dir {
        return Activating(threadID);
      }
      if threadID == "" && resumeID != "" {
        return Resuming;
      }
      return Opening;
    }

    /** thread/resume or thread/start has answered with a thread. */
    method RecordThread(id: string, dir: string, ghost w: World)
      requires Mirrors(w) && |w.turns| > 0 && Now(w).workDir == dir
      modifies this`threadID, this`threadWorkDir
      ensures RunEnabled(w, Resumed(Some(id))) ==> Mirrors(Apply(w, ByRun(Resumed(Some(id)))))
      ensures RunEnabled(w, Opened(Some(id))) ==> Mirrors(Apply(w, ByRun(Opened(Some(id)))))
    {
      threadID, threadWorkDir := id, dir;
    }

    method PublishTurn(tid: string, k: nat, ghost w: World)
      requires Mirrors(w) && RunEnabled(w, Publish) && Now(w).run.tid == tid && k == |w.turns| - 1
      modifies this`activeThread, this`activeTurn
      ensures Mirrors(Apply(w, ByRun(Publish)))
    {
      activeThread, activeTurn := tid, Some(k);
    }

    method Unpublish(k: nat, ghost w: World)
      requires Mirrors(w) && RunEnabled(w, Clear) && k == |w.turns| - 1
      modifies this`activeThread, this`activeTurn
      ensures Mirrors(Apply(w, ByRun(Clear)))
    {
      if activeTurn == Some(k) {
        activeThread, activeTurn := "", None;
      }
    }

    method FindTurn(tid: string, ghost w: World) returns (k: Option<nat>)
      requires Mirrors(w)
      ensures k == Route(w, tid)
    {
      if activeTurn == None {
        return None;
      }
      if tid != "" && activeThread != "" && tid != activeThread {
        return None;
      }
      return activeTurn;
    }

    /** The latest cause of death is kept. */
    method MarkBroken(err: string, ghost w: World)
      requires Mirrors(w)
      modifies this`state, this`readErr
      ensures Mirrors(w.(state := Broken)) && readErr == Some(err)
    {
      readErr := Some(err);
      state := Broken;
    }
  }

  // ---------------------------------------------------------------- invariant

  predicate RunActive(r: Run) {
    r.Looping? || r.Clearing?
  }

  predicate Over(r: Run) {
    r.Clearing? || r.Finished?
  }

  /** What a turn has asked of the server, by how far it has come. */
  predicate AskedOk(t: Turn) {
    && (t.sender.NotYet? <==> t.log.prompt.None?)
    && (RunActive(t.run) ==> !t.sender.NotYet?)
    && (!RunActive(t.run) && !t.run.Finished? ==> t.sender.NotYet?)
    && t.log.resumes <= 1 && t.log.starts <= 1
    && (t.run.Ensuring? ==> t.log.resumes == 0 && t.log.starts == 0)
    && (t.run.Resuming? ==> t.log.resumes == 1 && t.log.starts == 0)
    && (t.run.Opening? ==> t.log.starts == 1)
    && (t.run.Activating? ==> t.run.tid != "")
    && (t.log.prompt.Some? ==> t.log.prompt.value != "")
    && (t.run.Finished? && t.sender.NotYet? ==> t.run.r.Failed? && (t.log.resumes == 1 ==> t.log.starts == 1))
    && (t.sender.NotYet? ==>
          t.ch == [] && t.parts == [] && t.log == NEW_LOG.(resumes := t.log.resumes, starts := t.log.starts))
  }

  /** Nothing met a full backlog but perhaps a failure. */
  predicate Clean(t: Turn) {
    t.log.dropped == 0 && t.log.queued == t.log.completions
  }

  /** The stream of one turn. */
  predicate StreamOk(t: Turn) {
    && t.log.queued <= t.log.completions
    && (!Over(t.run) ==> Completions(t.ch) == t.log.queued)
    && (!Over(t.run) && Clean(t) ==> t.parts + Texts(t.ch) == t.log.offered)
    && (Over(t.run) && t.run.r.Answer? ==>
          t.run.r.text == Trim(Concat(t.parts)) && t.run.r.text != "" && t.log.queued >= 1)
    && (Over(t.run) && t.run.r.Answer? && Clean(t) ==> t.parts == t.log.offered)
  }

  ghost predicate TurnsOk(w: World) {
    forall k: nat | k < |w.turns| :: AskedOk(w.turns[k]) && StreamOk(w.turns[k])
  }

  /** Only the last turn can be in progress; the routing points to it exactly while it is
      published; the reader only has business with published turns. */
  ghost predicate SharedOk(w: World) {
    && (forall k: nat | k < |w.turns| - 1 :: w.turns[k].run.Finished?)
    && (w.activeTurn.Some? <==> InRun(w) && RunActive(Now(w).run))
    && (w.activeTurn.Some? ==> w.activeTurn.value == |w.turns| - 1 && Some(w.activeThread) == Now(w).log.prompt)
    && (w.activeTurn.None? ==> w.activeThread == "")
    && (w.reader.Pushing? ==> w.reader.k < |w.turns| && !w.turns[w.reader.k].sender.NotYet?)
    && (w.reader.Reporting? && w.reader.target.Some? ==>
          w.reader.target.value < |w.turns| && !w.turns[w.reader.target.value].sender.NotYet?)
  }

  /** What the turn t, the last one, knows of the end of the stream. */
  predicate DeathOk(r: Reader, last: nat, t: Turn) {
    RunActive(t.run) ==>
      && (!PastSnapshot(r) ==> !t.log.late)
      && (r.Reporting? ==> (t.log.late <==> r.target != Some(last)))
      && (r.Gone? ==> (t.log.told || t.log.reportLost <==> !t.log.late))
      && (!r.Gone? ==> !t.log.told && !t.log.reportLost)
      && !(t.log.told && t.log.reportLost)
      && (t.log.told && t.run.Looping? ==> Failure in t.ch)
  }

  ghost predicate Inv(w: World) {
    && TurnsOk(w)
    && SharedOk(w)
    && (|w.turns| > 0 ==> DeathOk(w.reader, |w.turns| - 1, Now(w)))
  }

  lemma TurnsOkPut(w: World, v: World, k: nat, t: Turn)
    requires TurnsOk(w) && k < |w.turns| && AskedOk(t) && StreamOk(t) && v.turns == w.turns[k := t]
    ensures TurnsOk(v)
  {
  }

  lemma OfferInStream(t: Turn, e: Event)
    ensures |t.ch| < BACKLOG ==> Completions(Offer(t.ch, e)) == Completions(t.ch) + (if e.Completed? then 1 else 0)
    ensures |t.ch| < BACKLOG ==>
              t.parts + Texts(Offer(t.ch, e)) == t.parts + Texts(t.ch) + (if e.Text? && Completions(t.ch) == 0 then [e.s] else [])
  {
    Append(t.ch, e);
  }

  lemma PushKeepsTurn(t: Turn, s: string)
    requires AskedOk(t) && StreamOk(t) && !t.sender.NotYet?
    ensures AskedOk(PushText(t, s)) && StreamOk(PushText(t, s))
    ensures AskedOk(PushCompleted(t)) && StreamOk(PushCompleted(t))
    ensures AskedOk(PushReport(t)) && StreamOk(PushReport(t))
    ensures AskedOk(ToldTurn(t)) && StreamOk(ToldTurn(t))
  {
    OfferInStream(t, Text(s));
    OfferInStream(t, Completed);
    OfferInStream(t, Failure);
  }

  lemma SenderKeepsTurn(w: World, t: Turn, s: SenderStep)
    requires AskedOk(t) && StreamOk(t) && SenderEnabled(w, t, s)
    ensures AskedOk(SenderTurn(w, t, s)) && StreamOk(SenderTurn(w, t, s))
  {
    OfferInStream(t, Failure);
  }

  lemma RunKeepsAsked(w: World, r: RunStep)
    requires RunEnabled(w, r) && !r.Start? && AskedOk(Now(w))
    ensures AskedOk(RunTurn(w, Now(w), r))
  {
  }

  lemma ReceiveKeepsStream(t: Turn)
    requires StreamOk(t) && t.run.Looping? && t.ch != []
    ensures StreamOk(ReceiveEvent(t.(ch := t.ch[1..]), t.ch[0]))
  {
    if t.ch[0].Text? {
      assert t.parts + Texts(t.ch) == (t.parts + [t.ch[0].s]) + Texts(t.ch[1..]);
    }
  }

  lemma RunKeepsTurn(w: World, r: RunStep)
    requires RunEnabled(w, r) && !r.Start? && AskedOk(Now(w)) && StreamOk(Now(w))
    ensures AskedOk(RunTurn(w, Now(w), r)) && StreamOk(RunTurn(w, Now(w), r))
  {
    RunKeepsAsked(w, r);
    if r.LoopReceive? {
      ReceiveKeepsStream(Now(w));
    }
  }

  lemma StartKeepsInv(w: World, dir: string)
    requires Inv(w) && !InRun(w)
    ensures Inv(StartRun(w, dir))
  {
    var v := StartRun(w, dir);
    forall j: nat | j < |v.turns|
      ensures AskedOk(v.turns[j]) && StreamOk(v.turns[j])
    {
      assert j < |w.turns| ==> AskedOk(w.turns[j]);
    }
  }

  /** A turn that asks nothing new, does not end while it is published, and keeps what it has
      been told. */
  predicate KeepsPlace(t: Turn, u: Turn) {
    && u.log.prompt == t.log.prompt
    && (t.run.Finished? ==> u.run.Finished?) && (RunActive(t.run) <==> RunActive(u.run))
    && (u.sender.NotYet? ==> t.sender.NotYet?)
  }

  lemma PutKeepsShared(w: World, k: nat, u: Turn)
    requires SharedOk(w) && k < |w.turns| && KeepsPlace(w.turns[k], u)
    ensures SharedOk(Put(w, k, u))
  {
  }

  lemma RunKeepsShared(w: World, r: RunStep)
    requires SharedOk(w) && RunEnabled(w, r) && !r.Start? && AskedOk(Now(w))
    ensures SharedOk(ApplyRun(w, r))
  {
    if r.Publish? {
      PublishKeepsShared(w);
    } else if r.Clear? {
      ClearKeepsShared(w);
    } else {
      var t, u := Now(w), RunTurn(w, Now(w), r);
      assert KeepsPlace(t, u);
      PutKeepsShared(w, |w.turns| - 1, u);
      var v := RunShared(w, t, r);
      assert v == w.(state := v.state, threadID := v.threadID, threadDir := v.threadDir);
    }
  }

  lemma PublishKeepsShared(w: World)
    requires SharedOk(w) && RunEnabled(w, Publish)
    ensures SharedOk(ApplyRun(w, Publish))
  {
    assert w.activeTurn.None?;
  }

  lemma ClearKeepsShared(w: World)
    requires SharedOk(w) && RunEnabled(w, Clear) && AskedOk(Now(w))
    ensures SharedOk(ApplyRun(w, Clear))
  {
    assert Now(w).run.Clearing?;
  }

  lemma RunKeepsDeath(w: World, r: RunStep)
    requires Inv(w) && RunEnabled(w, r) && !r.Start?
    ensures DeathOk(w.reader, |w.turns| - 1, RunTurn(w, Now(w), r))
  {
    assert AskedOk(Now(w));
  }

  lemma RunKeepsInv(w: World, r: RunStep)
    requires Inv(w) && RunEnabled(w, r)
    ensures Inv(ApplyRun(w, r))
  {
    if r.Start? {
      StartKeepsInv(w, r.workDir);
    } else {
      RunKeepsTurn(w, r);
      TurnsOkPut(w, ApplyRun(w, r), |w.turns| - 1, RunTurn(w, Now(w), r));
      RunKeepsShared(w, r);
      RunKeepsDeath(w, r);
    }
  }

  lemma SenderKeepsPlace(w: World, t: Turn, s: SenderStep, r: Reader, last: nat)
    requires SenderEnabled(w, t, s)
    ensures KeepsPlace(t, SenderTurn(w, t, s))
    ensures DeathOk(r, last, t) ==> DeathOk(r, last, SenderTurn(w, t, s))
  {
  }

  lemma SenderKeepsInv(w: World, k: nat, s: SenderStep)
    requires Inv(w) && Enabled(w, BySender(k, s))
    ensures Inv(Apply(w, BySender(k, s)))
  {
    var u := SenderTurn(w, w.turns[k], s);
    SenderKeepsTurn(w, w.turns[k], s);
    TurnsOkPut(w, Apply(w, BySender(k, s)), k, u);
    SenderKeepsPlace(w, w.turns[k], s, w.reader, |w.turns| - 1);
    PutKeepsShared(w, k, u);
  }

  lemma SnapshotKeepsInv(w: World)
    requires Inv(w) && Enabled(w, Snapshot)
    ensures Inv(Apply(w, Snapshot))
  {
    var v := Apply(w, Snapshot);
    forall j: nat | j < |v.turns|
      ensures AskedOk(v.turns[j]) && StreamOk(v.turns[j])
    {
      assert AskedOk(w.turns[j]) && StreamOk(w.turns[j]);
    }
  }

  lemma WritesKeepPlace(t: Turn, s: string)
    ensures KeepsPlace(t, PushText(t, s)) && KeepsPlace(t, PushCompleted(t)) && KeepsPlace(t, PushReport(t))
  {
  }

  lemma IdleReaderKeepsShared(w: World, r: Reader)
    requires SharedOk(w) && !r.Pushing? && !r.Reporting?
    ensures SharedOk(w.(reader := r))
  {
  }

  lemma PushKeepsTurns(w: World)
    requires Inv(w) && Enabled(w, Push)
    ensures TurnsOk(ApplyPush(w))
  {
    var k, s := w.reader.k, if w.reader.e.Text? then w.reader.e.s else "";
    PushKeepsTurn(w.turns[k], s);
    TurnsOkPut(w, ApplyPush(w), k, PushTurn(w.turns[k], w.reader.e));
  }

  lemma PushKeepsShared(w: World)
    requires SharedOk(w) && Enabled(w, Push)
    ensures SharedOk(ApplyPush(w))
  {
    var k, s := w.reader.k, if w.reader.e.Text? then w.reader.e.s else "";
    var u := PushTurn(w.turns[k], w.reader.e);
    assert ApplyPush(w) == Put(w, k, u).(reader := Reading);
    WritesKeepPlace(w.turns[k], s);
    PutKeepsShared(w, k, u);
    IdleReaderKeepsShared(Put(w, k, u), Reading);
  }

  lemma PushKeepsInv(w: World)
    requires Inv(w) && Enabled(w, Push)
    ensures Inv(Apply(w, Push))
  {
    PushKeepsTurns(w);
    PushKeepsShared(w);
    if w.reader.k == |w.turns| - 1 {
      PushKeepsDeath(Now(w), if w.reader.e.Text? then w.reader.e.s else "", w.reader.k);
    } else {
      assert Now(ApplyPush(w)) == Now(w);
    }
  }

  lemma PushKeepsDeath(t: Turn, s: string, last: nat)
    requires exists k, e :: DeathOk(Pushing(k, e), last, t)
    ensures DeathOk(Reading, last, PushText(t, s)) && DeathOk(Reading, last, PushCompleted(t))
  {
  }

  lemma ReportKeepsDeath(t: Turn, last: nat)
    requires DeathOk(Reporting(Some(last)), last, t)
    ensures DeathOk(Gone, last, PushReport(t))
  {
  }

  lemma ReportKeepsTurns(w: World)
    requires TurnsOk(w) && SharedOk(w) && Enabled(w, Report)
    ensures TurnsOk(ApplyReport(w))
  {
    if w.reader.target.Some? {
      var k := w.reader.target.value;
      PushKeepsTurn(w.turns[k], "");
      TurnsOkPut(w, ApplyReport(w), k, PushReport(w.turns[k]));
    }
  }

  lemma ReportKeepsShared(w: World)
    requires SharedOk(w) && Enabled(w, Report)
    ensures SharedOk(ApplyReport(w))
  {
    if w.reader.target.Some? {
      var k := w.reader.target.value;
      var v := Put(w, k, PushReport(w.turns[k]));
      WritesKeepPlace(w.turns[k], "");
      PutKeepsShared(w, k, PushReport(w.turns[k]));
      IdleReaderKeepsShared(v, Gone);
      assert ApplyReport(w) == v.(reader := Gone);
    } else {
      IdleReaderKeepsShared(w, Gone);
    }
  }

  lemma ReportKeepsInv(w: World)
    requires Inv(w) && Enabled(w, Report)
    ensures Inv(ApplyReport(w))
  {
    ReportKeepsTurns(w);
    ReportKeepsShared(w);
    if |w.turns| > 0 && w.reader.target == Some(|w.turns| - 1) {
      ReportKeepsDeath(Now(w), |w.turns| - 1);
    } else if |w.turns| > 0 {
      assert Now(ApplyReport(w)) == Now(w);
    }
  }

  lemma LineKeepsInv(w: World, tid: string, e: Event)
    requires Inv(w) && w.reader.Reading?
    ensures Inv(ApplyLine(w, tid, e))
  {
    if w.activeTurn.Some? {
      assert AskedOk(Now(w));
    }
  }

  lemma EndKeepsInv(w: World, e: Step)
    requires Inv(w) && Enabled(w, e) && (e.Die? || e.Close? || e.CtxFires?)
    ensures Inv(Apply(w, e))
  {
    if e.CtxFires? {
      var t := w.turns[e.k];
      assert StreamOk(t.(ctxDone := true)) && AskedOk(t.(ctxDone := true));
      TurnsOkPut(w, Apply(w, e), e.k, t.(ctxDone := true));
    }
  }

  lemma InvStep(w: World, e: Step)
    requires Inv(w) && Enabled(w, e)
    ensures Inv(Apply(w, e)) && Apply(w, e).resumeID == w.resumeID
  {
    match e {
      case ByRun(r) => RunKeepsInv(w, r);
      case BySender(k, s) => SenderKeepsInv(w, k, s);
      case TextLine(tid, text) => LineKeepsInv(w, tid, Text(text));
      case CompletionLine(tid) => LineKeepsInv(w, tid, Completed);
      case Push => PushKeepsInv(w);
      case Snapshot => SnapshotKeepsInv(w);
      case Report => ReportKeepsInv(w);
      case CtxFires(_) => EndKeepsInv(w, e);
      case Die => EndKeepsInv(w, e);
      case Close => EndKeepsInv(w, e);
    }
  }

  lemma {:induction false} InvRun(w: World, es: seq<Step>, v: World)
    requires Inv(w) && Reaches(w, es, v)
    ensures Inv(v) && v.resumeID == w.resumeID
    decreases |es|
  {
    if es == [] {
    } else {
      InvStep(w, es[0]);
      InvRun(Apply(w, es[0]), es[1..], v);
    }
  }

  // ---------------------------------------------------------------- main results

  /** The answer is the trimmed concatenation, in order, of the texts handled for the turn
      before its first completion, unless something met a full backlog; and there is no
      answer at all unless a completion found room. */
  lemma AnswerIsTheStreamedText(resumeID: string, es: seq<Step>, w: World, k: nat, text: string)
    requires Reaches(Initial(resumeID), es, w)
    requires k < |w.turns| && w.turns[k].run == Finished(Answer(text))
    ensures Clean(w.turns[k]) ==> text == Trim(Concat(w.turns[k].log.offered))
    ensures text != "" && w.turns[k].log.queued >= 1
  {
    InvRun(Initial(resumeID), es, w);
    assert StreamOk(w.turns[k]);
  }

  /** Updates go to the turn in progress exactly when they name no thread or the thread the
      turn was started on. */
  lemma RoutingBelongsToTheTurn(resumeID: string, es: seq<Step>, w: World, tid: string, k: nat)
    requires Reaches(Initial(resumeID), es, w)
    ensures Route(w, tid) == Some(k) <==>
            && InRun(w) && k == |w.turns| - 1 && RunActive(w.turns[k].run)
            && (tid == "" || Some(tid) == w.turns[k].log.prompt)
  {
    InvRun(Initial(resumeID), es, w);
    if InRun(w) {
      assert AskedOk(Now(w));
    }
  }

  /** Each Run asks at most once for a resumed and at most once for a new thread; and a Run
      that fails before its prompt after a failed resume has also asked for a new thread. */
  lemma ThreadRequestsAreBounded(resumeID: string, es: seq<Step>, w: World, k: nat)
    requires Reaches(Initial(resumeID), es, w) && k < |w.turns|
    ensures w.turns[k].log.resumes <= 1 && w.turns[k].log.starts <= 1
    ensures w.turns[k].run.Finished? && w.turns[k].log.prompt.None? && w.turns[k].log.resumes == 1 ==>
              w.turns[k].log.starts == 1
  {
    InvRun(Initial(resumeID), es, w);
    assert AskedOk(w.turns[k]);
  }

  predicate NoResume(t: Turn) {
    t.log.resumes == 0 && !t.run.Resuming?
  }

  lemma NoResumeStep(w: World, e: Step, k: nat)
    requires Enabled(w, e) && w.threadID != "" && k < |Apply(w, e).turns|
    requires k < |w.turns| ==> NoResume(w.turns[k])
    ensures NoResume(Apply(w, e).turns[k])
  {
    if e.ByRun? {
      NoResumeRun(w, e.r, k);
    } else {
      OthersResumeNothing(w, e, k);
    }
  }

  lemma NoResumeRun(w: World, r: RunStep, k: nat)
    requires RunEnabled(w, r) && w.threadID != "" && k < |ApplyRun(w, r).turns|
    requires k < |w.turns| ==> NoResume(w.turns[k])
    ensures NoResume(ApplyRun(w, r).turns[k])
  {
  }

  lemma OthersResumeNothing(w: World, e: Step, k: nat)
    requires Enabled(w, e) && !e.ByRun? && k < |Apply(w, e).turns|
    ensures k < |w.turns| && (NoResume(w.turns[k]) ==> NoResume(Apply(w, e).turns[k]))
  {
  }

  lemma TurnsOnlyGrow(w: World, e: Step)
    requires Enabled(w, e)
    ensures |Apply(w, e).turns| >= |w.turns|
    ensures w.threadID != "" ==> Apply(w, e).threadID != ""
  {
  }

  /** Once there is a thread, there always is one, and no later Run resumes one. */
  lemma {:induction false} ResumeOnlyBeforeTheFirstThread(w: World, es: seq<Step>, v: World, n: nat)
    requires Reaches(w, es, v) && w.threadID != "" && n <= |w.turns|
    requires forall k: nat | n <= k < |w.turns| :: NoResume(w.turns[k])
    ensures v.threadID != "" && n <= |v.turns|
    ensures forall k: nat | n <= k < |v.turns| :: v.turns[k].log.resumes == 0
    decreases |es|
  {
    if es == [] {
    } else {
      var e, u := es[0], Apply(w, es[0]);
      TurnsOnlyGrow(w, e);
      forall k: nat | n <= k < |u.turns|
        ensures NoResume(u.turns[k])
      {
        NoResumeStep(w, e, k);
      }
      ResumeOnlyBeforeTheFirstThread(u, es[1..], v, n);
    }
  }

  /** The end of the stream is reported to the turn exactly unless the turn was published too
      late, after the reader had looked for one, or its backlog was full; a turn that was
      told has something to read. */
  lemma DeathIsMissedExactlyWhen(resumeID: string, es: seq<Step>, w: World)
    requires Reaches(Initial(resumeID), es, w)
    requires w.reader.Gone? && InRun(w) && Now(w).run.Looping?
    ensures !Now(w).log.told <==> Now(w).log.late || Now(w).log.reportLost
    ensures Now(w).log.told ==> Enabled(w, ByRun(LoopReceive)) && Failure in Now(w).ch
  {
    InvRun(Initial(resumeID), es, w);
  }

  /** A turn that has nothing to read and nobody left to write to it. */
  predicate Forsaken(w: World) {
    && w.reader.Gone? && InRun(w)
    && var t := Now(w);
       t.run.Looping? && t.ch == [] && !t.ctxDone && (t.sender == Asking(false) || t.sender.Stopped?)
  }

  lemma ForsakenStep(w: World, e: Step)
    requires Forsaken(w) && Enabled(w, e) && e != CtxFires(|w.turns| - 1)
    ensures Forsaken(Apply(w, e)) && |Apply(w, e).turns| == |w.turns|
  {
  }

  /** Such a turn ends only when its context does. */
  lemma {:induction false} ForsakenUntilContextEnds(w: World, es: seq<Step>, v: World)
    requires Forsaken(w) && Reaches(w, es, v)
    requires forall e | e in es :: e != CtxFires(|w.turns| - 1)
    ensures Forsaken(v) && |v.turns| == |w.turns|
    decreases |es|
  {
    if es == [] {
    } else {
      assert es[0] in es;
      ForsakenStep(w, es[0]);
      assert forall e | e in es[1..] :: e in es;
      ForsakenUntilContextEnds(Apply(w, es[0]), es[1..], v);
    }
  }

  lemma {:induction false} Extend(w: World, es: seq<Step>, v: World, e: Step)
    requires Reaches(w, es, v) && Enabled(v, e)
    ensures Reaches(w, es + [e], Apply(v, e))
    decreases |es|
  {
    if es == [] {
      assert [e][1..] == [];
    } else {
      assert (es + [e])[1..] == es[1..] + [e];
      Extend(Apply(w, es[0]), es[1..], v, e);
    }
  }

  /** A turn whose thread is known, in a runtime whose stream has ended since its Run began. */
  function LateWorld(dir: string, tid: string): World {
    World("", Broken, tid, dir, "", None, Gone,
          [Turn(dir, Activating(tid), NotYet, [], [], false, NEW_LOG.(starts := 1))])
  }

  /** The same turn, while the stream is open. */
  function ThreadKnown(dir: string, tid: string): World {
    LateWorld(dir, tid).(state := Running, reader := Reading)
  }

  lemma ThreadKnownIsReached(dir: string, tid: string)
    requires tid != ""
    ensures exists es :: Reaches(Initial(""), es, ThreadKnown(dir, tid))
  {
    var w0 := Initial("");
    var t := Turn(dir, Ensuring, NotYet, [], [], false, NEW_LOG);
    var w1 := w0.(state := Running, turns := [t]);
    assert Apply(w0, ByRun(Start(dir))) == w1;
    var t2 := t.(run := Opening, log := NEW_LOG.(starts := 1));
    var w2 := w1.(turns := [t2]);
    assert Apply(w1, ByRun(LookForThread)) == w2;
    assert Apply(w2, ByRun(Opened(Some(tid)))) == ThreadKnown(dir, tid);
    var r0: seq<Step> := [];
    Extend(w0, r0, w0, ByRun(Start(dir)));
    var r1 := r0 + [ByRun(Start(dir))];
    Extend(w0, r1, w1, ByRun(LookForThread));
    Extend(w0, r1 + [ByRun(LookForThread)], w2, ByRun(Opened(Some(tid))));
  }

  lemma LateWorldIsReached(dir: string, tid: string)
    requires tid != ""
    ensures exists es :: Reaches(Initial(""), es, LateWorld(dir, tid))
  {
    ThreadKnownIsReached(dir, tid);
    var es :| Reaches(Initial(""), es, ThreadKnown(dir, tid));
    StreamEnds(Initial(""), es, ThreadKnown(dir, tid));
  }

  /** Without a published turn the reader ends silently. */
  lemma StreamEnds(w0: World, es: seq<Step>, w: World)
    requires Reaches(w0, es, w) && w.reader.Reading? && w.activeTurn.None?
    requires forall k: nat | k < |w.turns| :: !w.turns[k].sender.Asking?
    ensures Reaches(w0, es + [Die] + [Snapshot] + [Report], w.(state := Broken, reader := Gone))
  {
    var w1 := Apply(w, Die);
    Extend(w0, es, w, Die);
    var w2 := Apply(w1, Snapshot);
    assert w2.turns == w.turns;
    Extend(w0, es + [Die], w1, Snapshot);
    Extend(w0, es + [Die] + [Snapshot], w2, Report);
  }

  /** And there is such a turn: its Run began before the stream ended, and published the turn
      after the reader had gone. */
  lemma LateTurnIsForsaken(dir: string, tid: string)
    requires tid != ""
    ensures exists es, w :: Reaches(Initial(""), es, w) && Forsaken(w)
  {
    LateWorldIsReached(dir, tid);
    var es :| Reaches(Initial(""), es, LateWorld(dir, tid));
    var w := LateWorld(dir, tid);
    var t := Now(w).(run := Looping, sender := Unsent, log := Now(w).log.(prompt := Some(tid), late := true));
    var w1 := w.(turns := [t], activeThread := tid, activeTurn := Some(0));
    assert Apply(w, ByRun(Publish)) == w1;
    Extend(Initial(""), es, w, ByRun(Publish));
    var w2 := w1.(turns := [t.(sender := Asking(false))]);
    assert Apply(w1, BySender(0, Register)) == w2 && Forsaken(w2);
    Extend(Initial(""), es + [ByRun(Publish)], w1, BySender(0, Register));
  }

  /** A turn that was refused because the runtime was broken. */
  predicate RefusedTurn(t: Turn) {
    t.run == Finished(Failed) && t.sender.NotYet? && t.log.resumes == 0 && t.log.starts == 0
  }

  lemma RefusedRun(w: World, r: RunStep, k: nat)
    requires w.state.Broken? && RunEnabled(w, r)
    requires k < |ApplyRun(w, r).turns|
    requires k < |w.turns| ==> RefusedTurn(w.turns[k])
    ensures RefusedTurn(ApplyRun(w, r).turns[k])
  {
    if !r.Start? {
      assert k < |w.turns| - 1;
    }
  }

  lemma RefusedOther(w: World, e: Step, k: nat)
    requires SharedOk(w) && Enabled(w, e) && !e.ByRun?
    requires k < |w.turns| && RefusedTurn(w.turns[k])
    ensures |Apply(w, e).turns| == |w.turns| && RefusedTurn(Apply(w, e).turns[k])
  {
  }

  lemma RefusedStays(w: World, e: Step, k: nat)
    requires w.state.Broken? && SharedOk(w) && Enabled(w, e)
    requires k < |Apply(w, e).turns|
    requires k < |w.turns| ==> RefusedTurn(w.turns[k])
    ensures RefusedTurn(Apply(w, e).turns[k])
  {
    if e.ByRun? {
      RefusedRun(w, e.r, k);
    } else if k < |w.turns| {
      RefusedOther(w, e, k);
    } else {
      TurnsOnlyGrow(w, e);
    }
  }

  lemma BrokenStep(w: World, e: Step)
    requires w.state.Broken? && Enabled(w, e)
    ensures Apply(w, e).state.Broken?
  {
  }

  /** Broken is absorbing, and a Run that begins broken asks nothing of the server. */
  lemma {:induction false} BrokenIsAbsorbing(w: World, es: seq<Step>, v: World, n: nat)
    requires w.state.Broken? && Inv(w) && Reaches(w, es, v)
    requires n <= |w.turns| && forall k: nat | n <= k < |w.turns| :: RefusedTurn(w.turns[k])
    ensures v.state.Broken? && n <= |v.turns|
    ensures forall k: nat | n <= k < |v.turns| :: RefusedTurn(v.turns[k])
    decreases |es|
  {
    if es == [] {
    } else {
      var e, u := es[0], Apply(w, es[0]);
      forall k: nat | n <= k < |u.turns|
        ensures RefusedTurn(u.turns[k])
      {
        RefusedStays(w, e, k);
      }
      InvStep(w, e);
      BrokenStep(w, e);
      TurnsOnlyGrow(w, e);
      BrokenIsAbsorbing(u, es[1..], v, n);
    }
  }

  // ---------------------------------------------------------------- lost completions

  /** A completion finds its way into the turn's channel exactly if there is room. */
  lemma CompletionEntersExactlyWhen(w: World)
    requires Enabled(w, Push) && w.reader.e.Completed?
    ensures var t, u := w.turns[w.reader.k], Apply(w, Push).turns[w.reader.k];
            && (Completions(u.ch) == Completions(t.ch) + 1 <==> |t.ch| < BACKLOG)
            && (u.ch == t.ch <==> |t.ch| >= BACKLOG)
  {
    Append(w.turns[w.reader.k].ch, Completed);
  }

  /** n texts have been queued, and the event loop has not received any. */
  function Streaming(dir: string, tid: string, n: nat): World {
    var log := NEW_LOG.(starts := 1, prompt := Some(tid), offered := seq(n, i => "a"));
    World("", Running, tid, dir, tid, Some(0), Reading,
          [Turn(dir, Looping, Unsent, seq(n, i => Text("a")), [], false, log)])
  }

  lemma {:induction false} StreamingIsReached(dir: string, tid: string, n: nat)
    requires tid != "" && n <= BACKLOG
    ensures exists es :: Reaches(Initial(""), es, Streaming(dir, tid, n))
  {
    if n == 0 {
      ThreadKnownIsReached(dir, tid);
      var es :| Reaches(Initial(""), es, ThreadKnown(dir, tid));
      Extend(Initial(""), es, ThreadKnown(dir, tid), ByRun(Publish));
      assert Streaming(dir, tid, 0).turns[0].ch == [] && Streaming(dir, tid, 0).turns[0].log.offered == [];
      assert Apply(ThreadKnown(dir, tid), ByRun(Publish)) == Streaming(dir, tid, 0);
    } else {
      StreamingIsReached(dir, tid, n - 1);
      var es :| Reaches(Initial(""), es, Streaming(dir, tid, n - 1));
      OneMoreText(dir, tid, n - 1);
      Extend(Initial(""), es, Streaming(dir, tid, n - 1), TextLine(tid, "a"));
      var v := Apply(Streaming(dir, tid, n - 1), TextLine(tid, "a"));
      Extend(Initial(""), es + [TextLine(tid, "a")], v, Push);
    }
  }

  lemma OneMoreText(dir: string, tid: string, n: nat)
    requires tid != "" && n < BACKLOG
    ensures var w := Streaming(dir, tid, n);
            && Enabled(w, TextLine(tid, "a")) && Enabled(Apply(w, TextLine(tid, "a")), Push)
            && Apply(Apply(w, TextLine(tid, "a")), Push) == Streaming(dir, tid, n + 1)
  {
    var w, v := Streaming(dir, tid, n), Streaming(dir, tid, n + 1);
    assert w.turns[0].ch + [Text("a")] == v.turns[0].ch;
    assert w.turns[0].log.offered + ["a"] == v.turns[0].log.offered;
    assert Apply(Apply(w, TextLine(tid, "a")), Push).turns == [PushText(w.turns[0], "a")];
  }

  lemma {:induction false} TextsOnly(n: nat)
    ensures Completions(seq(n, i => Text("a"))) == 0
  {
    if n == 0 {
    } else {
      assert seq(n, i => Text("a"))[1..] == seq(n - 1, i => Text("a"));
      TextsOnly(n - 1);
    }
  }

  /** Turn k has no completion in sight. */
  predicate Uncompleted(w: World, k: nat) {
    && k < |w.turns| && Completions(w.turns[k].ch) == 0
    && (w.reader.Pushing? && w.reader.k == k ==> w.reader.e.Text?)
    && (Over(w.turns[k].run) ==> !w.turns[k].run.r.Answer?)
  }

  /** No line of the run is a completion for turn k. */
  ghost predicate NoCompletionFor(w: World, es: seq<Step>, k: nat)
    decreases |es|
  {
    if es == [] || !Enabled(w, es[0]) then true
    else (es[0].CompletionLine? ==> Route(w, es[0].tid) != Some(k)) && NoCompletionFor(Apply(w, es[0]), es[1..], k)
  }

  lemma RunKeepsUncompleted(w: World, r: RunStep, k: nat)
    requires Uncompleted(w, k) && RunEnabled(w, r)
    ensures Uncompleted(ApplyRun(w, r), k)
  {
  }

  lemma OthersKeepUncompleted(w: World, e: Step, k: nat)
    requires Uncompleted(w, k) && Enabled(w, e) && !e.ByRun?
    requires e.CompletionLine? ==> Route(w, e.tid) != Some(k)
    ensures Uncompleted(Apply(w, e), k)
  {
    Append(w.turns[k].ch, Failure);
    if e.Push? {
      PushKeepsUncompleted(w, k);
    }
  }

  lemma PushKeepsUncompleted(w: World, k: nat)
    requires Uncompleted(w, k) && Enabled(w, Push)
    ensures Uncompleted(ApplyPush(w), k)
  {
    var s := if w.reader.e.Text? then w.reader.e.s else "";
    Append(w.turns[k].ch, Text(s));
    Append(w.turns[k].ch, Failure);
    if w.reader.k == k {
      assert ApplyPush(w).turns[k] == PushTurn(w.turns[k], w.reader.e);
    }
  }

  /** Without a further completion for it, such a turn has no answer, in any continuation. */
  lemma {:induction false} NoAnswerWithoutCompletion(w: World, es: seq<Step>, v: World, k: nat)
    requires Uncompleted(w, k) && Reaches(w, es, v) && NoCompletionFor(w, es, k)
    ensures Uncompleted(v, k)
    decreases |es|
  {
    if es == [] {
    } else {
      if es[0].ByRun? {
        RunKeepsUncompleted(w, es[0].r, k);
      } else {
        OthersKeepUncompleted(w, es[0], k);
      }
      NoAnswerWithoutCompletion(Apply(w, es[0]), es[1..], v, k);
    }
  }

  /** So a completion can be lost: with as many texts queued as the backlog holds, the turn's
      completion is dropped, and until another one arrives the turn has no answer, whatever
      else happens. */
  lemma CompletionCanBeLost(dir: string, tid: string)
    requires tid != ""
    ensures exists es, w ::
              && Reaches(Initial(""), es, w) && |w.turns| == 1 && w.turns[0].run.Looping?
              && w.turns[0].log.completions == 1 && w.turns[0].log.queued == 0
              && forall fs, v | Reaches(w, fs, v) && NoCompletionFor(w, fs, 0) :: Uncompleted(v, 0)
  {
    StreamingIsReached(dir, tid, BACKLOG);
    var w := Streaming(dir, tid, BACKLOG);
    var es :| Reaches(Initial(""), es, w);
    Extend(Initial(""), es, w, CompletionLine(tid));
    var u := Apply(w, CompletionLine(tid));
    Extend(Initial(""), es + [CompletionLine(tid)], u, Push);
    var v := Apply(u, Push);
    assert v.turns == [PushCompleted(w.turns[0])];
    TextsOnly(BACKLOG);
    forall fs, x | Reaches(v, fs, x) && NoCompletionFor(v, fs, 0)
      ensures Uncompleted(x, 0)
    {
      NoAnswerWithoutCompletion(v, fs, x, 0);
    }
  }

  // ---------------------------------------------------------------- a lost report

  /** The stream has ended with the backlog full; n texts are still to be received. */
  function Draining(dir: string, tid: string, n: nat): World
    requires n <= BACKLOG
  {
    var w := Streaming(dir, tid, BACKLOG);
    var t := w.turns[0];
    w.(state := Broken, reader := Gone,
       turns := [t.(sender := Asking(false), ch := seq(n, i => Text("a")), parts := seq(BACKLOG - n, i => "a"),
                    log := t.log.(reportLost := true))])
  }

  lemma FullStreamEnds(dir: string, tid: string)
    requires tid != ""
    ensures exists es :: Reaches(Initial(""), es, Draining(dir, tid, BACKLOG))
  {
    StreamingIsReached(dir, tid, BACKLOG);
    var w := Streaming(dir, tid, BACKLOG);
    var es :| Reaches(Initial(""), es, w);
    var w1 := w.(state := Broken, reader := Ended);
    assert Apply(w, Die) == w1;
    Extend(Initial(""), es, w, Die);
    var w2 := w1.(reader := Reporting(Some(0)));
    assert Apply(w1, Snapshot).turns == w.turns;
    assert Apply(w1, Snapshot) == w2;
    Extend(Initial(""), es + [Die], w1, Snapshot);
    FullReportIsLost(dir, tid, es + [Die] + [Snapshot], w2);
  }

  lemma FullReportIsLost(dir: string, tid: string, es: seq<Step>, w2: World)
    requires tid != "" && Reaches(Initial(""), es, w2)
    requires w2 == Streaming(dir, tid, BACKLOG).(state := Broken, reader := Reporting(Some(0)))
    ensures exists fs :: Reaches(Initial(""), fs, Draining(dir, tid, BACKLOG))
  {
    var w3 := Apply(w2, Report);
    assert w3.turns == [PushReport(w2.turns[0])];
    Extend(Initial(""), es, w2, Report);
    assert Draining(dir, tid, BACKLOG).turns[0].parts == [];
    assert Apply(w3, BySender(0, Register)).turns == Draining(dir, tid, BACKLOG).turns;
    assert Apply(w3, BySender(0, Register)) == Draining(dir, tid, BACKLOG);
    Extend(Initial(""), es + [Report], w3, BySender(0, Register));
  }

  lemma OneTextReceived(dir: string, tid: string, n: nat)
    requires n < BACKLOG
    ensures var w := Draining(dir, tid, n + 1);
            Enabled(w, ByRun(LoopReceive)) && Apply(w, ByRun(LoopReceive)) == Draining(dir, tid, n)
  {
    var w, v := Draining(dir, tid, n + 1), Draining(dir, tid, n);
    assert w.turns[0].ch[1..] == v.turns[0].ch;
    assert w.turns[0].parts + ["a"] == v.turns[0].parts;
    assert w.turns[0].ch[0] == Text("a");
    assert Apply(w, ByRun(LoopReceive)).turns == v.turns;
  }

  lemma {:induction false} DrainingIsReached(dir: string, tid: string, n: nat)
    requires tid != "" && n <= BACKLOG
    ensures exists es :: Reaches(Initial(""), es, Draining(dir, tid, n))
    decreases BACKLOG - n
  {
    if n == BACKLOG {
      FullStreamEnds(dir, tid);
    } else {
      DrainingIsReached(dir, tid, n + 1);
      var es :| Reaches(Initial(""), es, Draining(dir, tid, n + 1));
      OneTextReceived(dir, tid, n);
      Extend(Initial(""), es, Draining(dir, tid, n + 1), ByRun(LoopReceive));
    }
  }

  /** The other way to miss the end of the stream: the turn was published in time, but its
      backlog was full when the reader reported. Once it has received all texts it waits for
      its context, whatever else happens. */
  lemma TurnWithFullBacklogIsForsaken(dir: string, tid: string)
    requires tid != ""
    ensures exists es, w ::
              && Reaches(Initial(""), es, w) && Forsaken(w) && Now(w).log.reportLost && !Now(w).log.late
              && forall fs, v | Reaches(w, fs, v) && CtxFires(|w.turns| - 1) !in fs :: Forsaken(v)
  {
    DrainingIsReached(dir, tid, 0);
    var w := Draining(dir, tid, 0);
    var es :| Reaches(Initial(""), es, w);
    assert w.turns[0].ch == [];
    forall fs, v | Reaches(w, fs, v) && CtxFires(|w.turns| - 1) !in fs
      ensures Forsaken(v)
    {
      ForsakenUntilContextEnds(w, fs, v);
    }
  }
}
