/** The opencode runtime's fields and the critical sections that change them, one method per
    lock section, and the event loop of Run; each is tied to the machine of OpencodeTurn. */
module OpencodeRuntime {
  import opened Common
  import opened AgentStates
  import opened TurnEvents
  import opened OpencodeTurn

  /** The event loop on a turn whose events arrive in this order, until it ends. */
  function Loop(t: Turn, events: seq<Event>): Turn
    decreases |events|
  {
    if events == [] || !t.run.Looping? then t else Loop(ReceiveEvent(t, events[0]), events[1..])
  }

  class ACPRuntime {
    const resumeID: string
    var state: RuntimeState
    var sessionID: string
    var sessionWorkDir: string
    var sessionAdopted: bool
    var activeSession: string
    var activePrompt: Option<nat>

    /** The fields are those of the machine's state w. */
    ghost predicate Mirrors(w: World)
      reads this
    {
      && resumeID == w.resumeID && state == w.state
      && sessionID == w.sessionID && sessionWorkDir == w.sessionDir && sessionAdopted == w.adopted
      && activeSession == w.activeSession && activePrompt == w.activeTurn
    }

    constructor (resumeID: string)
      ensures Mirrors(Initial(resumeID))
    {
      this.resumeID := resumeID;
      state, sessionID, sessionWorkDir, sessionAdopted := Starting, "", "", false;
      activeSession, activePrompt := "", None;
    }

    method FinishInit(ghost w: World)
      requires Mirrors(w) && !w.inited
      modifies this`state
      ensures Mirrors(Apply(w, OpencodeTurn.FinishInit))
    {
      state := Ready;
    }

    method BeginRun(dir: string, ghost w: World) returns (ok: bool)
      requires Mirrors(w)
      modifies this`state
      ensures Mirrors(StartRun(w, dir)) && ok == !w.state.Broken?
    {
      if state == Broken {
        return false;
      }
      state := Running;
      return true;
    }

    method MarkBroken()
      modifies this`state
      ensures state == Broken
    {
      state := Broken;
    }

    /** The two critical sections of ensureSession; None asks the caller to create a session. */
    method EnsureSession(dir: string, ghost w: World) returns (sid: Option<string>)
      requires Mirrors(w) && RunEnabled(w, LookForSession) && Now(w).workDir == dir
      modifies this`sessionID, this`sessionWorkDir, this`sessionAdopted
      ensures var t := RunTurn(w, Now(w), LookForSession);
              && (sid.None? <==> t.run.Creating?)
              && (t.run.Activating? ==> sid == Some(t.run.sid) && Mirrors(w))
              && (t.run.Adopting? ==> sid == Some(w.resumeID))
              && (t.run.Adopting? ==> Mirrors(w.(sessionID := w.resumeID, sessionDir := dir, adopted := true)))
              && (t.run.Creating? ==> Mirrors(w))
    {
      if sessionID != "" && sessionWorkDir == dir {
        return Some(sessionID);
      }
      if sessionID == "" && resumeID != "" {
        sessionID, sessionWorkDir, sessionAdopted := resumeID, dir, true;
        return Some(resumeID);
      }
      return None;
    }

    /** newSession has received an id, in Run or in the recovery of turn k. */
    method RecordSession(id: string, dir: string, k: nat, ghost w: World, ghost t: Turn)
      requires Mirrors(w) && t.workDir == dir
      modifies this`sessionID, this`sessionWorkDir, this`sessionAdopted
      ensures RunEnabled(w, Created(Some(id))) && t == Now(w) ==> Mirrors(RunShared(w, t, Created(Some(id))))
      ensures SenderEnabled(w, t, Renewed(Some(id))) ==> Mirrors(SenderShared(w, k, t, Renewed(Some(id))))
    {
      sessionID, sessionWorkDir, sessionAdopted := id, dir, false;
    }

    method Activate(sid: string, k: nat, ghost w: World)
      requires Mirrors(w) && RunEnabled(w, OpencodeTurn.Activate) && Now(w).run.sid == sid && k == |w.turns| - 1
      modifies this`activeSession, this`activePrompt
      ensures Mirrors(RunShared(w, Now(w), OpencodeTurn.Activate))
    {
      activeSession, activePrompt := sid, Some(k);
    }

    /** The deferred clean-up of Run. */
    method Deactivate(k: nat, ghost w: World)
      requires Mirrors(w) && RunEnabled(w, Clear) && k == |w.turns| - 1
      modifies this`activeSession, this`activePrompt
      ensures Mirrors(RunShared(w, Now(w), Clear))
    {
      if activePrompt == Some(k) {
        activeSession, activePrompt := "", None;
      }
    }

    /** The prompt for session sid has failed: whether the turn recovers or gives up. */
    method DecideRecovery(sid: string, ctxDone: bool, ghost w: World, ghost t: Turn) returns (recovers: bool)
      requires Mirrors(w) && t.sender == Rejected(sid) && ctxDone == t.ctxDone
      ensures SenderTurn(w, t, CheckAdopted).sender == if recovers then Resetting(sid) else Stopped
      ensures Failure in SenderTurn(w, t, CheckAdopted).ch || recovers || |t.ch| >= BACKLOG
    {
      var adopted := sessionAdopted && sessionID == sid;
      return adopted && !ctxDone;
    }

    method ResetSession(sid: string, k: nat, ghost w: World, ghost t: Turn)
      requires Mirrors(w) && t.sender == Resetting(sid)
      modifies this`sessionID, this`sessionWorkDir, this`sessionAdopted
      ensures Mirrors(SenderShared(w, k, t, Reset))
    {
      if sessionID == sid {
        sessionID, sessionWorkDir, sessionAdopted := "", "", false;
      }
    }

    method Repoint(sid: string, k: nat, ghost w: World, ghost t: Turn)
      requires Mirrors(w) && t.sender == Repointing(sid)
      modifies this`activeSession
      ensures Mirrors(SenderShared(w, k, t, OpencodeTurn.Repoint))
    {
      if activePrompt == Some(k) {
        activeSession := sid;
      }
    }

    /** The event loop: collects texts until a completion, a failure, or the end of what has
        arrived. */
    method EventLoop(t: Turn, events: seq<Event>) returns (parts: seq<string>, run: Run)
      requires t.run.Looping?
      modifies this`state
      ensures Loop(t, events).parts == parts && Loop(t, events).run == run
      ensures run == Clearing(Failed) ==> state == Broken
      ensures run.Clearing? && run.r.Answer? ==> state == if old(state) == Broken then Broken else Ready
      ensures run.Looping? ==> state == old(state)
    {
      parts, run := t.parts, t.run;
      ghost var cur := t;
      var i := 0;
      while i < |events| && run.Looping?
        invariant 0 <= i <= |events|
        invariant cur.parts == parts && cur.run == run && (run.Looping? || run.Clearing?)
        invariant Loop(t, events) == Loop(cur, events[i..])
        invariant run == Clearing(Failed) ==> state == Broken
        invariant run.Clearing? && run.r.Answer? ==> state == if old(state) == Broken then Broken else Ready
        invariant run.Looping? ==> state == old(state)
      {
        ghost var next := ReceiveEvent(cur, events[i]);
        assert events[i..][1..] == events[i + 1..];
        match events[i] {
          case Text(s) => parts := parts + [s];
          case Failure =>
            MarkBroken();
            run := Clearing(Failed);
          case Completed =>
            var text := Trim(Concat(parts));
            if text == "" {
              MarkBroken();
              run := Clearing(Failed);
            } else {
              if state != Broken {
                state := Ready;
              }
              run := Clearing(Answer(text));
            }
        }
        cur := next;
        i := i + 1;
      }
    }
  }

  /** A failed or a completed event ends the loop with what was collected before it: the
      texts in front of the first such event, in order. */
  lemma {:induction false} LoopCollectsInOrder(t: Turn, texts: seq<string>, last: Event, rest: seq<Event>)
    requires t.run.Looping? && !last.Text?
    ensures var u := Loop(t, Wrap(texts) + [last] + rest);
            && u.parts == t.parts + texts
            && u.run == Clearing(if last.Failure? || Trim(Concat(t.parts + texts)) == "" then Failed
                                 else Answer(Trim(Concat(t.parts + texts))))
    decreases |texts|
  {
    var all := Wrap(texts) + [last] + rest;
    if texts == [] {
      assert all[0] == last && t.parts + texts == t.parts;
    } else {
      assert all[1..] == Wrap(texts[1..]) + [last] + rest;
      LoopCollectsInOrder(ReceiveEvent(t, all[0]), texts[1..], last, rest);
      assert t.parts + [texts[0]] + texts[1..] == t.parts + texts;
    }
  }

  function Wrap(texts: seq<string>): seq<Event> {
    seq(|texts|, i requires 0 <= i < |texts| => Text(texts[i]))
  }
}
