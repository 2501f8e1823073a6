/** Turns of the opencode runtime: Run, the goroutine that sends the prompt (and recovers once
    from a rejected resumed session), and the reader that routes streamed text to the turn
    in progress. */
module OpencodeTurn {
  import opened Common
  import opened AgentStates
  import opened TurnEvents

  datatype Run =
    | Ensuring                    // ensureSession has not looked yet
    | Adopting                    // about to adopt the resume id
    | Creating                    // waits for session/new
    | Activating(sid: string)
    | Looping
    | Clearing(r: Result)         // the deferred clean-up of the routing has not run yet
    | Finished(r: Result)

  datatype Sender =
    | NotYet
    | Prompting(sid: string)      // waits for session/prompt
    | Rejected(sid: string)
    | Resetting(sid: string)      // adopted session rejected: about to forget it
    | Renewing                    // waits for session/new
    | Repointing(sid: string)
    | Retrying(sid: string)       // waits for the second session/prompt
    | Signalling                  // about to deliver the completion
    | Stopped

  /** What has happened in a turn; nothing reads it. */
  datatype Log = Log(
    news: nat,                 // session/new requests
    made: Option<string>,      // the id that Run's own session/new got
    prompts: seq<string>,      // session ids of the session/prompt requests
    adoptedRejected: bool,     // the first prompt failed for a session adopted from a resume id
    renewed: Option<string>,   // the id the recovery got from session/new
    before: seq<string>,       // texts handled before the response to the prompt
    window: seq<string>,       // texts handled after it, before the completion was queued
    dropped: nat,              // texts that met a full backlog
    inline: nat,               // completions that came as items of the stream
    signalled: bool)           // the completion has been queued

  datatype Turn = Turn(
    workDir: string,
    run: Run,
    sender: Sender,
    ch: seq<Event>,
    parts: seq<string>,
    ctxDone: bool,
    log: Log)

  datatype Reader = Reading | Pushing(k: nat, e: Event) | Gone

  datatype World = World(
    resumeID: string,            // from the spec; "" when there is none
    inited: bool,                // Init has returned the runtime
    state: RuntimeState,
    sessionID: string,           // "" when there is none
    sessionDir: string,
    adopted: bool,
    activeSession: string,
    activeTurn: Option<nat>,     // whose channel activePromptCh is
    reader: Reader,
    turns: seq<Turn>)            // every Run so far; only the last one may be in progress

  /** The reader has been started, Init is under way. */
  function Initial(resumeID: string): World {
    World(resumeID, false, Starting, "", "", false, "", None, Reading, [])
  }

  const NEW_LOG := Log(0, None, [], false, None, [], [], 0, 0, false)

  datatype RunStep =
    | Start(workDir: string)
    | LookForSession
    | Adopt
    | Created(id: Option<string>)      // session/new has answered with a session, or failed
    | Activate
    | LoopTimeout
    | LoopReceive
    | Clear

  datatype SenderStep =
    | PromptAnswered(ok: bool)
    | PromptCancelled
    | CheckAdopted
    | Reset
    | Renewed(id: Option<string>)
    | Repoint
    | RetryAnswered(ok: bool)
    | Signal
    | GiveUpSignal

  datatype Step =
    | ByRun(r: RunStep)
    | BySender(k: nat, s: SenderStep)  // the goroutine of turn k
    | CtxFires(k: nat)                 // the context of turn k
    | TextLine(sid: string, text: string)
    | CompletionLine(sid: string)
    | Push
    | Die
    | FinishInit                       // Init's last assignment
    | Close

  /** A Run is in progress; runMu admits one at a time, so it is the last turn. */
  predicate InRun(w: World) {
    |w.turns| > 0 && !w.turns[|w.turns| - 1].run.Finished?
  }

  function Now(w: World): Turn
    requires |w.turns| > 0
  {
    w.turns[|w.turns| - 1]
  }

  predicate ValidId(id: Option<string>) {
    id.Some? ==> id.value != ""
  }

  predicate RunEnabled(w: World, r: RunStep) {
    match r
    case Start(_) => w.inited && !InRun(w)
    case LookForSession => InRun(w) && Now(w).run.Ensuring?
    case Adopt => InRun(w) && Now(w).run.Adopting?
    case Created(id) => InRun(w) && Now(w).run.Creating? && ValidId(id)
    case Activate => InRun(w) && Now(w).run.Activating?
    case LoopTimeout => InRun(w) && Now(w).run.Looping? && Now(w).ctxDone
    case LoopReceive => InRun(w) && Now(w).run.Looping? && Now(w).ch != []
    case Clear => InRun(w) && Now(w).run.Clearing?
  }

  predicate SenderEnabled(w: World, t: Turn, s: SenderStep) {
    match s
    case PromptAnswered(_) => t.sender.Prompting? && w.reader.Reading?
    case PromptCancelled => t.sender.Prompting? && (t.ctxDone || w.reader.Gone?)
    case CheckAdopted => t.sender.Rejected?
    case Reset => t.sender.Resetting?
    case Renewed(id) => t.sender.Renewing? && ValidId(id)
    case Repoint => t.sender.Repointing?
    case RetryAnswered(ok) => t.sender.Retrying? && (ok ==> w.reader.Reading?)
    case Signal => t.sender.Signalling? && |t.ch| < BACKLOG
    case GiveUpSignal => t.sender.Signalling? && t.ctxDone
  }

  predicate Enabled(w: World, e: Step) {
    match e
    case ByRun(r) => RunEnabled(w, r)
    case BySender(k, s) => k < |w.turns| && SenderEnabled(w, w.turns[k], s)
    case CtxFires(k) => k < |w.turns|
    case TextLine(_, text) => w.reader.Reading? && text != ""
    case CompletionLine(_) => w.reader.Reading?
    case Push => w.reader.Pushing? && w.reader.k < |w.turns|
    case Die => w.reader.Reading?
    case FinishInit => !w.inited
    case Close => true
  }

  function Put(w: World, k: nat, t: Turn): World
    requires k < |w.turns|
  {
    w.(turns := w.turns[k := t])
  }

  /** dispatchDelta and its siblings: the turn that an update for session sid goes to. */
  function Route(w: World, sid: string): Option<nat> {
    if sid != "" && w.activeSession != "" && sid != w.activeSession then None else w.activeTurn
  }

  /** The final response to the prompt has been read. */
  predicate Answered(s: Sender) {
    s.Signalling? || s.Stopped?
  }

  function PushText(t: Turn, s: string): Turn {
    if |t.ch| >= BACKLOG then t.(log := t.log.(dropped := t.log.dropped + 1))
    else
      var u := t.(ch := t.ch + [Text(s)]);
      if t.log.signalled then u
      else if Answered(t.sender) then u.(log := u.log.(window := u.log.window + [s]))
      else u.(log := u.log.(before := u.log.before + [s]))
  }

  function PushCompleted(t: Turn): Turn {
    t.(ch := Offer(t.ch, Completed), log := t.log.(inline := t.log.inline + 1))
  }

  function FailSender(t: Turn): Turn {
    t.(sender := Stopped, ch := Offer(t.ch, Failure))
  }

  function ReceiveEvent(t: Turn, e: Event): Turn {
    match e
    case Text(s) => t.(parts := t.parts + [s])
    case Failure => t.(run := Clearing(Failed))
    case Completed =>
      var text := Trim(Concat(t.parts));
      t.(run := Clearing(if text == "" then Failed else Answer(text)))
  }

  function ReceiveState(state: RuntimeState, t: Turn, e: Event): RuntimeState {
    match e
    case Text(_) => state
    case Failure => Broken
    case Completed => if Trim(Concat(t.parts)) == "" then Broken else AfterTurn(state)
  }

  /** What a step of Run does to its own turn, after the start. */
  function RunTurn(w: World, t: Turn, r: RunStep): Turn
    requires RunEnabled(w, r) && !r.Start? && t == Now(w)
  {
    match r
    case LookForSession =>
      if w.sessionID != "" && w.sessionDir == t.workDir then t.(run := Activating(w.sessionID))
      else if w.sessionID == "" && w.resumeID != "" then t.(run := Adopting)
      else t.(run := Creating, log := t.log.(news := t.log.news + 1))
    case Adopt => t.(run := Activating(w.resumeID))
    case Created(id) =>
      t.(run := if id.None? then Finished(Failed) else Activating(id.value), log := t.log.(made := id))
    case Activate =>
      t.(run := Looping, sender := Prompting(t.run.sid), log := t.log.(prompts := t.log.prompts + [t.run.sid]))
    case LoopTimeout => t.(run := Clearing(Failed))
    case LoopReceive => ReceiveEvent(t.(ch := t.ch[1..]), t.ch[0])
    case Clear => t.(run := Finished(t.run.r))
  }

  /** What it does to the runtime's fields. */
  function RunShared(w: World, t: Turn, r: RunStep): World
    requires RunEnabled(w, r) && !r.Start? && t == Now(w)
  {
    match r
    case LookForSession => w
    case Adopt => w.(sessionID := w.resumeID, sessionDir := t.workDir, adopted := true)
    case Created(id) =>
      if id.None? then w.(state := Broken) else w.(sessionID := id.value, sessionDir := t.workDir, adopted := false)
    case Activate => w.(activeSession := t.run.sid, activeTurn := Some(|w.turns| - 1))
    case LoopTimeout => w.(state := Broken)
    case LoopReceive => w.(state := ReceiveState(w.state, t, t.ch[0]))
    case Clear => if w.activeTurn == Some(|w.turns| - 1) then w.(activeTurn := None, activeSession := "") else w
  }

  /** A Run that finds the runtime broken fails at once. */
  function StartRun(w: World, dir: string): World {
    w.(state := if w.state.Broken? then Broken else Running,
       turns := w.turns + [Turn(dir, if w.state.Broken? then Finished(Failed) else Ensuring, NotYet, [], [], false, NEW_LOG)])
  }

  function ApplyRun(w: World, r: RunStep): World
    requires RunEnabled(w, r)
  {
    if r.Start? then StartRun(w, r.workDir)
    else Put(RunShared(w, Now(w), r), |w.turns| - 1, RunTurn(w, Now(w), r))
  }

  /** What a sender step does to its own turn. */
  function SenderTurn(w: World, t: Turn, s: SenderStep): Turn
    requires SenderEnabled(w, t, s)
  {
    match s
    case PromptAnswered(ok) => t.(sender := if ok then Signalling else Rejected(t.sender.sid))
    case PromptCancelled => t.(sender := Rejected(t.sender.sid))
    case CheckAdopted =>
      if !(w.adopted && w.sessionID == t.sender.sid) || t.ctxDone then FailSender(t)
      else t.(sender := Resetting(t.sender.sid), log := t.log.(adoptedRejected := true))
    case Reset => t.(sender := Renewing, log := t.log.(news := t.log.news + 1))
    case Renewed(id) =>
      if id.None? then FailSender(t) else t.(sender := Repointing(id.value), log := t.log.(renewed := id))
    case Repoint => t.(sender := Retrying(t.sender.sid), log := t.log.(prompts := t.log.prompts + [t.sender.sid]))
    case RetryAnswered(ok) => if ok then t.(sender := Signalling) else FailSender(t)
    case Signal => t.(sender := Stopped, ch := t.ch + [Completed], log := t.log.(signalled := true))
    case GiveUpSignal => t.(sender := Stopped)
  }

  /** What a sender step of turn k does to the runtime's fields. */
  function SenderShared(w: World, k: nat, t: Turn, s: SenderStep): World
    requires SenderEnabled(w, t, s)
  {
    match s
    case Reset => if w.sessionID == t.sender.sid then w.(sessionID := "", sessionDir := "", adopted := false) else w
    case Renewed(Some(id)) => w.(sessionID := id, sessionDir := t.workDir, adopted := false)
    case Repoint => if w.activeTurn == Some(k) then w.(activeSession := t.sender.sid) else w
    case _ => w
  }

  function ApplyPush(w: World): World
    requires Enabled(w, Push)
  {
    var t := w.turns[w.reader.k];
    Put(w, w.reader.k, if w.reader.e.Text? then PushText(t, w.reader.e.s) else PushCompleted(t)).(reader := Reading)
  }

  function ApplyDie(w: World): World {
    var v := w.(state := Broken, reader := Gone);
    if w.activeTurn.Some? && w.activeTurn.value < |w.turns|
    then Put(v, w.activeTurn.value, w.turns[w.activeTurn.value].(ch := Offer(w.turns[w.activeTurn.value].ch, Failure)))
    else v
  }

  function ApplyLine(w: World, sid: string, e: Event): World {
    if Route(w, sid).Some? then w.(reader := Pushing(Route(w, sid).value, e)) else w
  }

  function Apply(w: World, e: Step): World
    requires Enabled(w, e)
  {
    match e
    case ByRun(r) => ApplyRun(w, r)
    case BySender(k, s) => Put(SenderShared(w, k, w.turns[k], s), k, SenderTurn(w, w.turns[k], s))
    case CtxFires(k) => Put(w, k, w.turns[k].(ctxDone := true))
    case TextLine(sid, text) => ApplyLine(w, sid, Text(text))
    case CompletionLine(sid) => ApplyLine(w, sid, Completed)
    case Push => ApplyPush(w)
    case Die => ApplyDie(w)
    case FinishInit => w.(state := Ready, inited := true)
    case Close => w.(state := Broken)
  }

  ghost predicate Reaches(w: World, es: seq<Step>, v: World)
    decreases |es|
  {
    if es == [] then w == v else Enabled(w, es[0]) && Reaches(Apply(w, es[0]), es[1..], v)
  }

  // ---------------------------------------------------------------- routing and recovery

  predicate RunActive(r: Run) {
    r.Looping? || r.Clearing?
  }

  function One(id: Option<string>): nat {
    if id.Some? then 1 else 0
  }

  /** What a turn has asked of the server, by how far it has come. */
  predicate TurnOk(w: World, t: Turn) {
    && (t.sender.NotYet? <==> t.log.prompts == [])
    && (RunActive(t.run) ==> !t.sender.NotYet?)
    && |t.log.prompts| <= 2
    && (t.run.Ensuring? || t.run.Adopting? ==> t.log.news == 0 && t.log.made.None?)
    && (t.run.Creating? ==> t.log.news == 1 && t.log.made.None?)
    && (t.run.Activating? ==> t.log.news == One(t.log.made) && (t.log.made.Some? ==> t.log.made == Some(t.run.sid)))
    && (t.sender.NotYet? && t.run.Finished? ==> t.log.news <= 1)
    && (t.run.Ensuring? || t.run.Adopting? || t.run.Creating? || t.run.Activating? ==> t.sender.NotYet?)
    && (t.sender.NotYet? ==> !t.log.signalled && t.log.before == [] && t.log.window == [] && t.ch == [] && t.parts == [])
    && (t.sender.Prompting? || t.sender.Rejected? ==>
          t.log.prompts == [t.sender.sid] && !t.log.adoptedRejected)
    && (t.sender.Resetting? ==> t.log.prompts == [t.sender.sid])
    && (t.log.prompts != [] ==>
          && t.log.news == One(t.log.made) + (if t.log.adoptedRejected && !t.sender.Resetting? then 1 else 0)
          && (t.log.made.Some? ==> t.log.made == Some(t.log.prompts[0])))
    && (t.log.prompts == [] ==> !t.log.adoptedRejected)
    && (t.sender.Resetting? || t.sender.Renewing? || t.sender.Repointing? ==> t.log.adoptedRejected && |t.log.prompts| == 1)
    && (t.sender.Repointing? ==> t.log.renewed == Some(t.sender.sid))
    && (t.log.signalled ==> t.sender.Stopped?)
    && (t.log.adoptedRejected ==> t.log.prompts != [] && t.log.prompts[0] == w.resumeID)
    && (|t.log.prompts| == 2 ==> t.log.adoptedRejected && t.log.renewed == Some(t.log.prompts[1]))
  }

  ghost predicate TurnsOk(w: World) {
    forall k: nat | k < |w.turns| :: TurnOk(w, w.turns[k])
  }

  /** Only the last turn can be in progress; the routing points to it or to nothing, and then
      to its last prompted session; the reader is about to write to a prompted turn. */
  ghost predicate SharedOk(w: World) {
    && (forall k: nat | k < |w.turns| - 1 :: w.turns[k].run.Finished?)
    && (w.adopted ==> w.sessionID == w.resumeID)
    && (w.activeTurn.None? ==> w.activeSession == "")
    && (w.activeTurn.Some? ==>
          var k := w.activeTurn.value;
          k == |w.turns| - 1 && RunActive(w.turns[k].run)
          && w.turns[k].log.prompts != [] && w.activeSession == w.turns[k].log.prompts[|w.turns[k].log.prompts| - 1])
    && (w.reader.Pushing? ==>
          w.reader.k < |w.turns| && !w.turns[w.reader.k].sender.NotYet? && !w.reader.e.Failure?)
  }

  ghost predicate RoutingOk(w: World) {
    TurnsOk(w) && SharedOk(w)
  }

  lemma TurnsOkPut(w: World, v: World, k: nat, t: Turn)
    requires TurnsOk(w) && k < |w.turns| && TurnOk(w, t)
    requires v.resumeID == w.resumeID && v.turns == w.turns[k := t]
    ensures TurnsOk(v)
  {
    forall j: nat | j < |v.turns|
      ensures TurnOk(v, v.turns[j])
    {
      assert TurnOk(w, w.turns[j]);
    }
  }

  lemma TurnsOkSame(w: World, v: World)
    requires TurnsOk(w) && v.resumeID == w.resumeID && v.turns == w.turns
    ensures TurnsOk(v)
  {
    forall j: nat | j < |v.turns|
      ensures TurnOk(v, v.turns[j])
    {
      assert TurnOk(w, w.turns[j]);
    }
  }

  lemma SenderKeepsTurn(w: World, t: Turn, s: SenderStep)
    requires TurnOk(w, t) && (w.adopted ==> w.sessionID == w.resumeID) && SenderEnabled(w, t, s)
    ensures TurnOk(w, SenderTurn(w, t, s))
  {
  }

  /** A turn that asks nothing new, and does not end while it is published. */
  predicate KeepsPlace(t: Turn, u: Turn) {
    && u.log.prompts == t.log.prompts
    && (t.run.Finished? ==> u.run.Finished?) && (RunActive(t.run) ==> RunActive(u.run))
    && (u.sender.NotYet? ==> t.sender.NotYet?)
  }

  lemma PutKeepsShared(w: World, k: nat, u: Turn)
    requires SharedOk(w) && k < |w.turns| && KeepsPlace(w.turns[k], u)
    ensures SharedOk(Put(w, k, u))
  {
  }

  lemma SenderKeepsPlace(w: World, t: Turn, s: SenderStep)
    requires SenderEnabled(w, t, s) && !s.Repoint?
    ensures KeepsPlace(t, SenderTurn(w, t, s))
  {
  }

  lemma RepointKeepsShared(w: World, k: nat)
    requires SharedOk(w) && Enabled(w, BySender(k, Repoint))
    ensures SharedOk(Apply(w, BySender(k, Repoint)))
  {
  }

  lemma SenderKeepsShared(w: World, k: nat, s: SenderStep)
    requires SharedOk(w) && Enabled(w, BySender(k, s)) && TurnOk(w, w.turns[k])
    ensures SharedOk(Apply(w, BySender(k, s)))
  {
    var t, u := w.turns[k], SenderTurn(w, w.turns[k], s);
    if s.Repoint? {
      RepointKeepsShared(w, k);
    } else {
      SenderKeepsPlace(w, t, s);
      PutKeepsShared(w, k, u);
      var v := SenderShared(w, k, t, s);
      assert v == w.(sessionID := v.sessionID, sessionDir := v.sessionDir, adopted := v.adopted);
    }
  }

  lemma SenderKeepsRouting(w: World, k: nat, s: SenderStep)
    requires RoutingOk(w) && Enabled(w, BySender(k, s))
    ensures RoutingOk(Apply(w, BySender(k, s)))
  {
    var t := w.turns[k];
    assert TurnOk(w, t);
    SenderKeepsShared(w, k, s);
    SenderKeepsTurn(w, t, s);
    TurnsOkPut(w, Apply(w, BySender(k, s)), k, SenderTurn(w, t, s));
  }

  lemma RunKeepsTurn(w: World, r: RunStep)
    requires RunEnabled(w, r) && !r.Start? && TurnOk(w, Now(w))
    ensures TurnOk(w, RunTurn(w, Now(w), r))
  {
  }

  lemma StartKeepsShared(w: World, dir: string)
    requires SharedOk(w) && !InRun(w)
    ensures SharedOk(StartRun(w, dir))
  {
    assert w.activeTurn.None?;
  }

  /** Of Run's steps only Activate and Clear touch the routing. */
  lemma RunKeepsShared(w: World, r: RunStep)
    requires SharedOk(w) && RunEnabled(w, r) && !r.Start? && TurnOk(w, Now(w))
    ensures SharedOk(ApplyRun(w, r))
  {
    var t, u := Now(w), RunTurn(w, Now(w), r);
    if r.Activate? {
      ActivateKeepsShared(w);
    } else if r.Clear? {
      ClearKeepsShared(w);
    } else {
      RunKeepsPlace(w, r);
      PutKeepsShared(w, |w.turns| - 1, u);
      var v := RunShared(w, t, r);
      assert v == w.(state := v.state, sessionID := v.sessionID, sessionDir := v.sessionDir, adopted := v.adopted);
    }
  }

  lemma RunKeepsPlace(w: World, r: RunStep)
    requires RunEnabled(w, r) && !r.Start? && !r.Activate? && !r.Clear?
    ensures KeepsPlace(Now(w), RunTurn(w, Now(w), r))
  {
  }

  lemma ActivateKeepsShared(w: World)
    requires SharedOk(w) && RunEnabled(w, Activate)
    ensures SharedOk(ApplyRun(w, Activate))
  {
    assert w.activeTurn.None?;
  }

  lemma ClearKeepsShared(w: World)
    requires SharedOk(w) && RunEnabled(w, Clear) && TurnOk(w, Now(w))
    ensures SharedOk(ApplyRun(w, Clear))
  {
    assert Now(w).run.Clearing?;
  }

  lemma RunKeepsRouting(w: World, r: RunStep)
    requires RoutingOk(w) && RunEnabled(w, r)
    ensures RoutingOk(ApplyRun(w, r))
  {
    var v := ApplyRun(w, r);
    if r.Start? {
      StartKeepsShared(w, r.workDir);
      forall j: nat | j < |v.turns|
        ensures TurnOk(v, v.turns[j])
      {
        assert j < |w.turns| ==> TurnOk(w, w.turns[j]);
      }
    } else {
      assert TurnOk(w, Now(w));
      RunKeepsTurn(w, r);
      RunKeepsShared(w, r);
      TurnsOkPut(w, v, |w.turns| - 1, RunTurn(w, Now(w), r));
    }
  }

  /** An event in the channel changes neither the run nor what was asked of the server. */
  lemma PushKeepsTurn(w: World, t: Turn, s: string)
    requires TurnOk(w, t) && !t.sender.NotYet?
    ensures TurnOk(w, PushText(t, s)) && TurnOk(w, PushCompleted(t))
  {
  }

  lemma PushKeepsPlace(t: Turn, s: string)
    ensures KeepsPlace(t, PushText(t, s)) && KeepsPlace(t, PushCompleted(t))
  {
  }

  lemma IdleReaderKeepsShared(w: World)
    requires SharedOk(w)
    ensures SharedOk(w.(reader := Reading))
  {
  }

  lemma PushKeepsRouting(w: World)
    requires RoutingOk(w) && Enabled(w, Push)
    ensures RoutingOk(ApplyPush(w))
  {
    var k := w.reader.k;
    assert TurnOk(w, w.turns[k]);
    var s := if w.reader.e.Text? then w.reader.e.s else "";
    PushKeepsTurn(w, w.turns[k], s);
    PushKeepsPlace(w.turns[k], s);
    var t := if w.reader.e.Text? then PushText(w.turns[k], s) else PushCompleted(w.turns[k]);
    assert ApplyPush(w) == Put(w, k, t).(reader := Reading);
    PutKeepsShared(w, k, t);
    IdleReaderKeepsShared(Put(w, k, t));
    TurnsOkPut(w, ApplyPush(w), k, t);
  }

  lemma DieKeepsRouting(w: World)
    requires RoutingOk(w)
    ensures RoutingOk(ApplyDie(w))
  {
    if w.activeTurn.Some? {
      var k := w.activeTurn.value;
      assert TurnOk(w, w.turns[k]);
      TurnsOkPut(w, ApplyDie(w), k, ApplyDie(w).turns[k]);
    }
  }

  lemma LineKeepsRouting(w: World, sid: string, e: Event)
    requires RoutingOk(w) && w.reader.Reading? && !e.Failure?
    ensures RoutingOk(ApplyLine(w, sid, e))
  {
    if w.activeTurn.Some? {
      assert TurnOk(w, w.turns[w.activeTurn.value]);
    }
  }

  lemma CtxKeepsRouting(w: World, k: nat)
    requires RoutingOk(w) && Enabled(w, CtxFires(k))
    ensures RoutingOk(Apply(w, CtxFires(k)))
  {
    assert TurnOk(w, w.turns[k]);
    TurnsOkPut(w, Apply(w, CtxFires(k)), k, w.turns[k].(ctxDone := true));
  }

  lemma RoutingStep(w: World, e: Step)
    requires RoutingOk(w) && Enabled(w, e)
    ensures RoutingOk(Apply(w, e))
  {
    match e {
      case ByRun(r) => RunKeepsRouting(w, r);
      case BySender(k, s) => SenderKeepsRouting(w, k, s);
      case CtxFires(k) => CtxKeepsRouting(w, k);
      case TextLine(sid, text) => LineKeepsRouting(w, sid, Text(text));
      case CompletionLine(sid) => LineKeepsRouting(w, sid, Completed);
      case Push => PushKeepsRouting(w);
      case Die => DieKeepsRouting(w);
      case FinishInit =>
        assert TurnsOk(Apply(w, e)) by { TurnsOkSame(w, Apply(w, e)); }
      case Close =>
        assert TurnsOk(Apply(w, e)) by { TurnsOkSame(w, Apply(w, e)); }
    }
  }
}
