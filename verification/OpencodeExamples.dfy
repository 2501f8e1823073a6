/** Runs of the opencode runtime in which a property fails that its neighbours have. */
module OpencodeExamples {
  import opened Common
  import opened AgentStates
  import opened TurnEvents
  import opened OpencodeTurn
  import opened OpencodeResults

  ghost predicate Reachable(resumeID: string, w: World) {
    exists es :: Reaches(Initial(resumeID), es, w)
  }

  lemma {:induction false} Extend(w: World, es: seq<Step>, v: World, e: Step)
    requires Reaches(w, es, v) && Enabled(v, e)
    ensures Reaches(w, es + [e], Apply(v, e))
    decreases |es|
  {
    if es == [] {
      assert [e][1..] == [];
    } else {
      assert (es + [e])[1..] == es[1..] + [e];
      Extend(Apply(w, es[0]), es[1..], v, e);
    }
  }

  lemma Go(resumeID: string, w: World, e: Step)
    requires Reachable(resumeID, w) && Enabled(w, e)
    ensures Reachable(resumeID, Apply(w, e))
  {
    var es :| Reaches(Initial(resumeID), es, w);
    Extend(Initial(resumeID), es, w, e);
  }

  function Idle(resumeID: string): World {
    Initial(resumeID).(inited := true, state := Ready)
  }

  lemma IdleIsReachable(resumeID: string)
    ensures Reachable(resumeID, Idle(resumeID))
  {
    var es: seq<Step> := [];
    assert Reaches(Initial(resumeID), es, Initial(resumeID));
    Go(resumeID, Initial(resumeID), FinishInit);
  }

  // ---------------------------------------------------------------- a late text

  /** The first turn has sent its prompt, for a new session. */
  function Prompted(dir: string): World {
    var log := NEW_LOG.(news := 1, made := Some("s"), prompts := ["s"]);
    Idle("").(state := Running, sessionID := "s", sessionDir := dir, activeSession := "s", activeTurn := Some(0),
              turns := [Turn(dir, Looping, Prompting("s"), [], [], false, log)])
  }

  /** The first turn has begun. */
  function Begun(resumeID: string, dir: string): World {
    Idle(resumeID).(state := Running, turns := [Turn(dir, Ensuring, NotYet, [], [], false, NEW_LOG)])
  }

  lemma BegunIsReachable(resumeID: string, dir: string)
    ensures Reachable(resumeID, Begun(resumeID, dir))
  {
    IdleIsReachable(resumeID);
    Go(resumeID, Idle(resumeID), ByRun(Start(dir)));
    assert Apply(Idle(resumeID), ByRun(Start(dir))) == Begun(resumeID, dir);
  }

  lemma PromptedIsReachable(dir: string)
    ensures Reachable("", Prompted(dir))
  {
    BegunIsReachable("", dir);
    var w1, t := Begun("", dir), Begun("", dir).turns[0];
    Go("", w1, ByRun(LookForSession));
    var w2 := w1.(turns := [t.(run := Creating, log := NEW_LOG.(news := 1))]);
    assert Apply(w1, ByRun(LookForSession)) == w2;
    Go("", w2, ByRun(Created(Some("s"))));
    var w3 := w1.(sessionID := "s", sessionDir := dir,
                  turns := [t.(run := Activating("s"), log := NEW_LOG.(news := 1, made := Some("s")))]);
    assert Apply(w2, ByRun(Created(Some("s")))) == w3;
    Go("", w3, ByRun(Activate));
    assert NEW_LOG.prompts + ["s"] == ["s"];
    assert Apply(w3, ByRun(Activate)) == Prompted(dir);
  }

  /** The response to the prompt has been read, and then a text. */
  function Windowed(dir: string): World {
    var t := Prompted(dir).turns[0];
    Prompted(dir).(turns := [t.(sender := Signalling, ch := [Text("b")], log := t.log.(window := ["b"]))])
  }

  lemma WindowedIsReachable(dir: string)
    ensures Reachable("", Windowed(dir))
  {
    PromptedIsReachable(dir);
    var w, t := Prompted(dir), Prompted(dir).turns[0];
    Go("", w, BySender(0, PromptAnswered(true)));
    var w1 := w.(turns := [t.(sender := Signalling)]);
    assert Apply(w, BySender(0, PromptAnswered(true))) == w1;
    Go("", w1, TextLine("", "b"));
    var w2 := w1.(reader := Pushing(0, Text("b")));
    assert Apply(w1, TextLine("", "b")) == w2;
    Go("", w2, Push);
    assert t.ch + [Text("b")] == [Text("b")] && t.log.window + ["b"] == ["b"];
    assert Apply(w2, Push) == Windowed(dir);
  }

  /** The turn has ended with the late text as its answer. */
  function AnsweredLate(dir: string): World {
    var t := Prompted(dir).turns[0];
    Prompted(dir).(state := Ready, activeSession := "", activeTurn := None,
                   turns := [t.(run := Finished(Answer("b")), sender := Stopped, parts := ["b"],
                                log := t.log.(window := ["b"], signalled := true))])
  }

  lemma AnsweredLateIsReachable(dir: string)
    ensures Reachable("", AnsweredLate(dir))
  {
    WindowedIsReachable(dir);
    var w, t := Windowed(dir), Windowed(dir).turns[0];
    Go("", w, BySender(0, Signal));
    var u := t.(sender := Stopped, ch := [Text("b"), Completed], log := t.log.(signalled := true));
    assert [Text("b")] + [Completed] == u.ch;
    var w1 := w.(turns := [u]);
    assert Apply(w, BySender(0, Signal)) == w1;
    LateTextIsReceived(dir, u, w1);
  }

  lemma LateTextIsReceived(dir: string, u: Turn, w1: World)
    requires u == Windowed(dir).turns[0].(sender := Stopped, ch := [Text("b"), Completed],
                                          log := Prompted(dir).turns[0].log.(window := ["b"], signalled := true))
    requires w1 == Windowed(dir).(turns := [u]) && Reachable("", w1)
    ensures Reachable("", AnsweredLate(dir))
  {
    var w := Windowed(dir);
    assert u.ch[1..] == [Completed];
    Go("", w1, ByRun(LoopReceive));
    var w2 := w.(turns := [u.(ch := [Completed], parts := ["b"])]);
    assert u.parts + ["b"] == ["b"];
    assert Apply(w1, ByRun(LoopReceive)) == w2;
    LateTextIsTheAnswer(dir, u, w2);
  }

  lemma LateTextIsTheAnswer(dir: string, u: Turn, w2: World)
    requires u == Windowed(dir).turns[0].(sender := Stopped, ch := [Text("b"), Completed],
                                          log := Prompted(dir).turns[0].log.(window := ["b"], signalled := true))
    requires w2 == Windowed(dir).(turns := [u.(ch := [Completed], parts := ["b"])]) && Reachable("", w2)
    ensures Reachable("", AnsweredLate(dir))
  {
    var w := Windowed(dir);
    assert [Completed][1..] == [];
    Go("", w2, ByRun(LoopReceive));
    JustB();
    var w3 := w.(state := Ready, turns := [u.(ch := [], parts := ["b"], run := Clearing(Answer("b")))]);
    assert Apply(w2, ByRun(LoopReceive)) == w3;
    Go("", w3, ByRun(Clear));
    assert Apply(w3, ByRun(Clear)) == AnsweredLate(dir);
  }

  lemma JustB()
    ensures Trim(Concat(["b"])) == "b"
  {
    assert ["b"][1..] == [];
    assert Concat(["b"]) == "b" + Concat([]) == "b";
  }

  /** Nothing was said before the response, and yet there is an answer: a text that the agent
      sent after it. With the texts before the response alone, the turn would have failed. */
  lemma LateTextGetsIn(dir: string)
    ensures exists es, w ::
              && Reaches(Initial(""), es, w) && |w.turns| == 1 && Clean(w.turns[0])
              && w.turns[0].run == Finished(Answer("b"))
              && Early(Initial(""), es, 0) == [] && Late(Initial(""), es, 0) == ["b"]
  {
    AnsweredLateIsReachable(dir);
    var w := AnsweredLate(dir);
    var es :| Reaches(Initial(""), es, w);
    TextsOfRun(Initial(""), es, w, 0);
    assert BeforeOf(w, 0) == [] && WindowOf(w, 0) == ["b"];
    assert [] + Early(Initial(""), es, 0) == Early(Initial(""), es, 0);
    assert [] + Late(Initial(""), es, 0) == Late(Initial(""), es, 0);
  }

  // ---------------------------------------------------------------- a second new session

  /** The last turn is in progress, and nothing has been said in it. */
  predicate Quiet(w: World) {
    && |w.turns| > 0 && w.reader.Reading? && w.state.Running? && w.activeTurn == Some(|w.turns| - 1)
    && var t := Now(w);
       t.run.Looping? && t.ch == [] && t.parts == [] && !Answered(t.sender) && !t.log.signalled
  }

  function Told(t: Turn): Turn {
    t.(ch := [Text("a"), Completed], log := t.log.(before := t.log.before + ["a"], inline := t.log.inline + 1))
  }

  /** The agent says "a" and completes the turn with an item of the stream. */
  lemma TellInline(resumeID: string, w: World)
    requires Reachable(resumeID, w) && Quiet(w)
    ensures Reachable(resumeID, PutNow(w, Told(Now(w))))
  {
    var t, k := Now(w), |w.turns| - 1;
    Go(resumeID, w, TextLine("", "a"));
    var w1 := w.(reader := Pushing(k, Text("a")));
    assert Apply(w, TextLine("", "a")) == w1;
    Go(resumeID, w1, Push);
    var u := t.(ch := [Text("a")], log := t.log.(before := t.log.before + ["a"]));
    assert t.ch + [Text("a")] == [Text("a")];
    assert Apply(w1, Push) == PutNow(w, u);
    CompleteInline(resumeID, w, u);
  }

  lemma CompleteInline(resumeID: string, w: World, u: Turn)
    requires Quiet(w) && Reachable(resumeID, PutNow(w, u))
    requires u == Now(w).(ch := [Text("a")], log := Now(w).log.(before := Now(w).log.before + ["a"]))
    ensures Reachable(resumeID, PutNow(w, Told(Now(w))))
  {
    var t, k, w2 := Now(w), |w.turns| - 1, PutNow(w, u);
    Go(resumeID, w2, CompletionLine(""));
    var w3 := w2.(reader := Pushing(k, Completed));
    assert Apply(w2, CompletionLine("")) == w3;
    Go(resumeID, w3, Push);
    assert u.ch + [Completed] == [Text("a"), Completed];
    assert w2.turns[k := Told(t)] == w.turns[k := Told(t)];
    assert Apply(w3, Push) == PutNow(w, Told(t));
  }

  function PutNow(w: World, t: Turn): World
    requires |w.turns| > 0
  {
    Put(w, |w.turns| - 1, t)
  }

  function AnsweredInline(t: Turn): Turn {
    Told(t).(run := Finished(Answer("a")), ch := [], parts := ["a"])
  }

  lemma JustA()
    ensures Trim(Concat(["a"])) == "a"
  {
    assert ["a"][1..] == [];
    assert Concat(["a"]) == "a" + Concat([]) == "a";
  }

  /** So the turn ends with an answer, whatever its sender is doing. */
  lemma AnswerInline(resumeID: string, w: World)
    requires Reachable(resumeID, w) && Quiet(w)
    ensures Reachable(resumeID, PutNow(w, AnsweredInline(Now(w))).(state := Ready, activeSession := "", activeTurn := None))
  {
    TellInline(resumeID, w);
    ReceiveInline(resumeID, w);
    var w2 := PutNow(w, AnsweredInline(Now(w)).(run := Clearing(Answer("a")))).(state := Ready);
    Go(resumeID, w2, ByRun(Clear));
    assert Apply(w2, ByRun(Clear)) == PutNow(w, AnsweredInline(Now(w))).(state := Ready, activeSession := "", activeTurn := None);
  }

  lemma ReceiveInline(resumeID: string, w: World)
    requires Quiet(w) && Reachable(resumeID, PutNow(w, Told(Now(w))))
    ensures Reachable(resumeID, PutNow(w, AnsweredInline(Now(w)).(run := Clearing(Answer("a")))).(state := Ready))
  {
    var t, w0 := Told(Now(w)), PutNow(w, Told(Now(w)));
    assert t.ch[1..] == [Completed];
    Go(resumeID, w0, ByRun(LoopReceive));
    var w1 := PutNow(w, t.(ch := [Completed], parts := ["a"]));
    assert t.parts + ["a"] == ["a"];
    assert Apply(w0, ByRun(LoopReceive)) == w1;
    ReceiveTheEnd(resumeID, w, w1);
  }

  lemma ReceiveTheEnd(resumeID: string, w: World, w1: World)
    requires Quiet(w) && Reachable(resumeID, w1)
    requires w1 == PutNow(w, Told(Now(w)).(ch := [Completed], parts := ["a"]))
    ensures Reachable(resumeID, PutNow(w, AnsweredInline(Now(w)).(run := Clearing(Answer("a")))).(state := Ready))
  {
    var t := Told(Now(w));
    assert [Completed][1..] == [];
    Go(resumeID, w1, ByRun(LoopReceive));
    JustA();
    var w2 := PutNow(w, t.(ch := [], parts := ["a"], run := Clearing(Answer("a")))).(state := Ready);
    assert Apply(w1, ByRun(LoopReceive)) == w2;
  }

  /** Turn 0 has adopted session r, was rejected, and is about to forget the session. */
  function First(r: string): Turn {
    Turn("x", Looping, Resetting(r), [], [], false, NEW_LOG.(prompts := [r], adoptedRejected := true))
  }

  function FirstWorld(r: string): World {
    Idle(r).(state := Running, sessionID := r, sessionDir := "x", adopted := true, activeSession := r, activeTurn := Some(0),
             turns := [First(r)])
  }

  lemma FirstIsReachable(r: string)
    requires r != ""
    ensures Reachable(r, FirstWorld(r))
  {
    BegunIsReachable(r, "x");
    var w1, t := Begun(r, "x"), Begun(r, "x").turns[0];
    Go(r, w1, ByRun(LookForSession));
    var w2 := w1.(turns := [t.(run := Adopting)]);
    assert Apply(w1, ByRun(LookForSession)) == w2;
    Go(r, w2, ByRun(Adopt));
    var w3 := w1.(sessionID := r, sessionDir := "x", adopted := true, turns := [t.(run := Activating(r))]);
    assert Apply(w2, ByRun(Adopt)) == w3;
    FirstPrompts(r, w3);
  }

  lemma FirstPrompts(r: string, w3: World)
    requires Reachable(r, w3)
    requires w3 == FirstWorld(r).(activeSession := "", activeTurn := None,
                                  turns := [Turn("x", Activating(r), NotYet, [], [], false, NEW_LOG)])
    ensures Reachable(r, FirstWorld(r))
  {
    Go(r, w3, ByRun(Activate));
    assert NEW_LOG.prompts + [r] == [r];
    var u := First(r).(sender := Prompting(r), log := NEW_LOG.(prompts := [r]));
    var w4 := FirstWorld(r).(turns := [u]);
    assert Apply(w3, ByRun(Activate)) == w4;
    FirstIsRejected(r, w4, u);
  }

  lemma FirstIsRejected(r: string, w: World, u: Turn)
    requires u == First(r).(sender := Prompting(r), log := NEW_LOG.(prompts := [r]))
    requires w == FirstWorld(r).(turns := [u]) && Reachable(r, w)
    ensures Reachable(r, FirstWorld(r))
  {
    Go(r, w, BySender(0, PromptAnswered(false)));
    var w1 := w.(turns := [u.(sender := Rejected(r))]);
    assert Apply(w, BySender(0, PromptAnswered(false))) == w1;
    Go(r, w1, BySender(0, CheckAdopted));
    assert Apply(w1, BySender(0, CheckAdopted)) == FirstWorld(r);
  }

  /** Turn 1, in another directory, has made a session of its own, which the server named r as
      well; its prompt was rejected, too. */
  function Second(r: string): Turn {
    Turn("y", Looping, Rejected(r), [], [], false, NEW_LOG.(news := 1, made := Some(r), prompts := [r]))
  }

  function SecondWorld(r: string): World {
    Idle(r).(state := Running, sessionID := r, sessionDir := "y", adopted := false, activeSession := r, activeTurn := Some(1),
             turns := [AnsweredInline(First(r)), Second(r)])
  }

  lemma SecondIsReachable(r: string)
    requires r != ""
    ensures Reachable(r, SecondWorld(r))
  {
    FirstIsReachable(r);
    AnswerInline(r, FirstWorld(r));
    var a := AnsweredInline(First(r));
    var w := FirstWorld(r).(state := Ready, activeSession := "", activeTurn := None, turns := [a]);
    assert PutNow(FirstWorld(r), a).(state := Ready, activeSession := "", activeTurn := None) == w;
    Go(r, w, ByRun(Start("y")));
    var t := Turn("y", Ensuring, NotYet, [], [], false, NEW_LOG);
    var w1 := w.(state := Running, turns := [a, t]);
    assert Apply(w, ByRun(Start("y"))) == w1;
    SecondMakesASession(r, w1);
  }

  lemma SecondMakesASession(r: string, w1: World)
    requires r != "" && Reachable(r, w1)
    requires w1 == SecondWorld(r).(sessionDir := "x", adopted := true, activeSession := "", activeTurn := None,
                                   turns := [AnsweredInline(First(r)), Turn("y", Ensuring, NotYet, [], [], false, NEW_LOG)])
    ensures Reachable(r, SecondWorld(r))
  {
    var a, t := w1.turns[0], w1.turns[1];
    Go(r, w1, ByRun(LookForSession));
    var w2 := w1.(turns := [a, t.(run := Creating, log := NEW_LOG.(news := 1))]);
    assert Apply(w1, ByRun(LookForSession)) == w2;
    Go(r, w2, ByRun(Created(Some(r))));
    var w3 := w1.(sessionDir := "y", adopted := false,
                  turns := [a, t.(run := Activating(r), log := NEW_LOG.(news := 1, made := Some(r)))]);
    assert Apply(w2, ByRun(Created(Some(r)))) == w3;
    SecondIsRejected(r, w3);
  }

  lemma SecondIsRejected(r: string, w: World)
    requires Reachable(r, w)
    requires w == SecondWorld(r).(activeSession := "", activeTurn := None,
                                  turns := [AnsweredInline(First(r)),
                                            Turn("y", Activating(r), NotYet, [], [], false, NEW_LOG.(news := 1, made := Some(r)))])
    ensures Reachable(r, SecondWorld(r))
  {
    var a := AnsweredInline(First(r));
    Go(r, w, ByRun(Activate));
    assert NEW_LOG.prompts + [r] == [r];
    var w1 := SecondWorld(r).(turns := [a, Second(r).(sender := Prompting(r))]);
    assert Apply(w, ByRun(Activate)) == w1;
    Go(r, w1, BySender(1, PromptAnswered(false)));
    assert Apply(w1, BySender(1, PromptAnswered(false))) == SecondWorld(r);
  }

  /** Turn 0's recovery forgets r, and turn 2 adopts it again. */
  function ThirdWorld(r: string): World {
    var a := AnsweredInline(First(r));
    SecondWorld(r).(sessionDir := "z", adopted := true, activeSession := "", activeTurn := None,
                    turns := [a.(sender := Renewing, log := a.log.(news := 1)), AnsweredInline(Second(r)),
                              Turn("z", Activating(r), NotYet, [], [], false, NEW_LOG)])
  }

  lemma ThirdIsReachable(r: string)
    requires r != ""
    ensures Reachable(r, ThirdWorld(r))
  {
    SecondIsReachable(r);
    AnswerInline(r, SecondWorld(r));
    var a, b := AnsweredInline(First(r)), AnsweredInline(Second(r));
    var w := SecondWorld(r).(state := Ready, activeSession := "", activeTurn := None, turns := [a, b]);
    assert PutNow(SecondWorld(r), b).(state := Ready, activeSession := "", activeTurn := None) == w;
    Go(r, w, BySender(0, Reset));
    var c := a.(sender := Renewing, log := a.log.(news := 1));
    var w1 := w.(sessionID := "", sessionDir := "", turns := [c, b]);
    assert Apply(w, BySender(0, Reset)) == w1;
    ThirdAdopts(r, w1);
  }

  lemma ThirdAdopts(r: string, w1: World)
    requires r != "" && Reachable(r, w1)
    requires w1 == ThirdWorld(r).(state := Ready, sessionID := "", sessionDir := "", adopted := false,
                                  turns := ThirdWorld(r).turns[..2])
    ensures Reachable(r, ThirdWorld(r))
  {
    var c, b := ThirdWorld(r).turns[0], ThirdWorld(r).turns[1];
    Go(r, w1, ByRun(Start("z")));
    var t := Turn("z", Ensuring, NotYet, [], [], false, NEW_LOG);
    var w2 := w1.(state := Running, turns := [c, b, t]);
    assert Apply(w1, ByRun(Start("z"))) == w2;
    Go(r, w2, ByRun(LookForSession));
    var w3 := w2.(turns := [c, b, t.(run := Adopting)]);
    assert Apply(w2, ByRun(LookForSession)) == w3;
    Go(r, w3, ByRun(Adopt));
    assert Apply(w3, ByRun(Adopt)) == ThirdWorld(r);
  }

  /** Now turn 1 takes its own session for an adopted one, and asks for a second new session. */
  lemma SecondSessionIsPossible(r: string)
    requires r != ""
    ensures exists w :: Reachable(r, w) && |w.turns| == 3 && w.turns[1].log.news == 2
  {
    ThirdIsReachable(r);
    var w := ThirdWorld(r);
    Go(r, w, BySender(1, CheckAdopted));
    var b := w.turns[1].(sender := Resetting(r), log := w.turns[1].log.(adoptedRejected := true));
    var w1 := w.(turns := w.turns[1 := b]);
    assert Apply(w, BySender(1, CheckAdopted)) == w1;
    Go(r, w1, BySender(1, Reset));
    assert Apply(w1, BySender(1, Reset)).turns[1].log.news == 2;
  }
}
