/** What holds of every run of the opencode runtime: the answer is the streamed text, the
    recovery is bounded and keeps to its own turn, and a broken runtime stays broken. */
module OpencodeResults {
  import opened Common
  import opened AgentStates
  import opened TurnEvents
  import opened OpencodeTurn

  // ---------------------------------------------------------------- the stream of one turn

  /** Nothing was dropped at a full backlog, and no completion came as an item of the stream. */
  predicate Clean(t: Turn) {
    t.log.dropped == 0 && t.log.inline == 0
  }

  function Streamed(t: Turn): seq<string> {
    t.log.before + t.log.window
  }

  predicate Ended(r: Run) {
    r.Clearing? || r.Finished?
  }

  ghost predicate StreamOk(t: Turn) {
    && (!Answered(t.sender) ==> t.log.window == [])
    && (Clean(t) ==> Completions(t.ch) <= if t.log.signalled then 1 else 0)
    && (Clean(t) && (!t.log.signalled || Completions(t.ch) == 1) ==> t.parts + Texts(t.ch) == Streamed(t))
    && (Clean(t) && t.log.signalled && Completions(t.ch) == 0 ==> t.parts == Streamed(t) && Ended(t.run))
    && (Ended(t.run) && t.run.r.Answer? ==> t.run.r.text == Trim(Concat(t.parts)) && t.run.r.text != "")
    && (Ended(t.run) && t.run.r.Answer? && Clean(t) ==> t.log.signalled && Completions(t.ch) == 0)
  }

  lemma ReceiveKeepsStream(t: Turn)
    requires StreamOk(t) && t.run.Looping? && t.ch != []
    ensures StreamOk(ReceiveEvent(t.(ch := t.ch[1..]), t.ch[0]))
  {
    assert t.ch[0].Text? ==> t.parts + Texts(t.ch) == (t.parts + [t.ch[0].s]) + Texts(t.ch[1..]);
  }

  lemma TextKeepsStream(t: Turn, x: string)
    requires StreamOk(t)
    ensures StreamOk(PushText(t, x))
  {
    Append(t.ch, Text(x));
    assert t.parts + Texts(t.ch) + [x] == t.parts + (Texts(t.ch) + [x]);
    assert Streamed(t) + [x] == t.log.before + (t.log.window + [x]);
    assert t.log.window == [] ==> Streamed(t) + [x] == (t.log.before + [x]) + t.log.window;
  }

  lemma EndKeepsStream(t: Turn)
    requires StreamOk(t)
    ensures StreamOk(PushCompleted(t)) && StreamOk(FailSender(t)) && StreamOk(t.(ch := Offer(t.ch, Failure)))
  {
    Append(t.ch, Completed);
    Append(t.ch, Failure);
  }

  lemma PushKeepsStream(t: Turn, e: Event)
    requires StreamOk(t)
    ensures e.Text? ==> StreamOk(PushText(t, e.s))
    ensures StreamOk(PushCompleted(t)) && StreamOk(FailSender(t)) && StreamOk(t.(ch := Offer(t.ch, Failure)))
  {
    if e.Text? {
      TextKeepsStream(t, e.s);
    }
    EndKeepsStream(t);
  }

  lemma SenderKeepsStream(w: World, t: Turn, s: SenderStep)
    requires StreamOk(t) && TurnOk(w, t) && SenderEnabled(w, t, s)
    ensures StreamOk(SenderTurn(w, t, s))
  {
    PushKeepsStream(t, Failure);
    Append(t.ch, Completed);
  }

  lemma RunKeepsStream(w: World, r: RunStep)
    requires RunEnabled(w, r) && !r.Start? && StreamOk(Now(w)) && TurnOk(w, Now(w))
    ensures StreamOk(RunTurn(w, Now(w), r))
  {
    if r.LoopReceive? {
      ReceiveKeepsStream(Now(w));
    }
  }

  ghost predicate StreamsOk(w: World) {
    forall k: nat | k < |w.turns| :: StreamOk(w.turns[k])
  }

  lemma StreamsOkPut(w: World, v: World, k: nat, t: Turn)
    requires StreamsOk(w) && k < |w.turns| && StreamOk(t) && v.turns == w.turns[k := t]
    ensures StreamsOk(v)
  {
  }

  lemma StreamsRun(w: World, r: RunStep)
    requires RoutingOk(w) && StreamsOk(w) && RunEnabled(w, r)
    ensures StreamsOk(ApplyRun(w, r))
  {
    if !r.Start? {
      assert TurnOk(w, Now(w));
      RunKeepsStream(w, r);
      StreamsOkPut(w, ApplyRun(w, r), |w.turns| - 1, RunTurn(w, Now(w), r));
    }
  }

  lemma StreamsSender(w: World, k: nat, s: SenderStep)
    requires RoutingOk(w) && StreamsOk(w) && Enabled(w, BySender(k, s))
    ensures StreamsOk(Apply(w, BySender(k, s)))
  {
    assert TurnOk(w, w.turns[k]);
    SenderKeepsStream(w, w.turns[k], s);
    StreamsOkPut(w, Apply(w, BySender(k, s)), k, SenderTurn(w, w.turns[k], s));
  }

  lemma StreamsPush(w: World)
    requires RoutingOk(w) && StreamsOk(w) && Enabled(w, Push)
    ensures StreamsOk(ApplyPush(w))
  {
    PushKeepsStream(w.turns[w.reader.k], w.reader.e);
    StreamsOkPut(w, ApplyPush(w), w.reader.k, ApplyPush(w).turns[w.reader.k]);
  }

  lemma StreamsDie(w: World)
    requires RoutingOk(w) && StreamsOk(w)
    ensures StreamsOk(ApplyDie(w))
  {
    if w.activeTurn.Some? {
      PushKeepsStream(w.turns[w.activeTurn.value], Failure);
      StreamsOkPut(w, ApplyDie(w), w.activeTurn.value, ApplyDie(w).turns[w.activeTurn.value]);
    }
  }

  lemma StreamsStep(w: World, e: Step)
    requires RoutingOk(w) && StreamsOk(w) && Enabled(w, e)
    ensures StreamsOk(Apply(w, e))
  {
    if e.ByRun? {
      StreamsRun(w, e.r);
    } else if e.BySender? {
      StreamsSender(w, e.k, e.s);
    } else if e.CtxFires? {
      assert StreamOk(w.turns[e.k].(ctxDone := true)) by { assert StreamOk(w.turns[e.k]); }
      StreamsOkPut(w, Apply(w, e), e.k, w.turns[e.k].(ctxDone := true));
    } else if e.Push? {
      StreamsPush(w);
    } else if e.Die? {
      StreamsDie(w);
    } else {
      assert Apply(w, e).turns == w.turns;
    }
  }

  ghost predicate Inv(w: World) {
    RoutingOk(w) && StreamsOk(w)
  }

  lemma {:induction false} InvRun(w: World, es: seq<Step>, v: World)
    requires Inv(w) && Reaches(w, es, v)
    ensures Inv(v) && v.resumeID == w.resumeID
    decreases |es|
  {
    if es == [] {
    } else {
      RoutingStep(w, es[0]);
      StreamsStep(w, es[0]);
      InvRun(Apply(w, es[0]), es[1..], v);
    }
  }

  // ---------------------------------------------------------------- main results

  /** The step puts a text into the channel of turn k before the response to its prompt has
      been read. */
  predicate EarlyText(w: World, e: Step, k: nat) {
    && e.Push? && Enabled(w, e) && w.reader.k == k && w.reader.e.Text? && |w.turns[k].ch| < BACKLOG
    && !Answered(w.turns[k].sender) && !w.turns[k].log.signalled
  }

  /** The step does so after the response has been read, and before the completion has been
      queued. */
  predicate LateText(w: World, e: Step, k: nat) {
    && e.Push? && Enabled(w, e) && w.reader.k == k && w.reader.e.Text? && |w.turns[k].ch| < BACKLOG
    && Answered(w.turns[k].sender) && !w.turns[k].log.signalled
  }

  /** The early texts of turn k in a run, in the order in which the reader handled them. */
  function Early(w: World, es: seq<Step>, k: nat): seq<string>
    decreases |es|
  {
    if es == [] || !Enabled(w, es[0]) then []
    else (if EarlyText(w, es[0], k) then [w.reader.e.s] else []) + Early(Apply(w, es[0]), es[1..], k)
  }

  function Late(w: World, es: seq<Step>, k: nat): seq<string>
    decreases |es|
  {
    if es == [] || !Enabled(w, es[0]) then []
    else (if LateText(w, es[0], k) then [w.reader.e.s] else []) + Late(Apply(w, es[0]), es[1..], k)
  }

  function BeforeOf(w: World, k: nat): seq<string> {
    if k < |w.turns| then w.turns[k].log.before else []
  }

  function WindowOf(w: World, k: nat): seq<string> {
    if k < |w.turns| then w.turns[k].log.window else []
  }

  lemma PushRecords(w: World, k: nat)
    requires Enabled(w, Push)
    ensures var v := ApplyPush(w);
            && BeforeOf(v, k) == BeforeOf(w, k) + (if EarlyText(w, Push, k) then [w.reader.e.s] else [])
            && WindowOf(v, k) == WindowOf(w, k) + (if LateText(w, Push, k) then [w.reader.e.s] else [])
  {
  }

  lemma OthersRecordNothing(w: World, e: Step, k: nat)
    requires Enabled(w, e) && !e.Push?
    ensures BeforeOf(Apply(w, e), k) == BeforeOf(w, k) && WindowOf(Apply(w, e), k) == WindowOf(w, k)
  {
    if e.ByRun? {
      RunRecordsNothing(w, e.r, k);
    }
  }

  lemma RunRecordsNothing(w: World, r: RunStep, k: nat)
    requires RunEnabled(w, r)
    ensures BeforeOf(ApplyRun(w, r), k) == BeforeOf(w, k) && WindowOf(ApplyRun(w, r), k) == WindowOf(w, k)
  {
  }

  /** The window of a turn grows exactly by its late texts, what is before it by its early ones. */
  lemma WindowGrowsExactlyWhen(w: World, e: Step, k: nat)
    requires Enabled(w, e)
    ensures var v := Apply(w, e);
            && (WindowOf(v, k) != WindowOf(w, k) <==> LateText(w, e, k))
            && (BeforeOf(v, k) != BeforeOf(w, k) <==> EarlyText(w, e, k))
            && WindowOf(v, k) == WindowOf(w, k) + (if LateText(w, e, k) then [w.reader.e.s] else [])
            && BeforeOf(v, k) == BeforeOf(w, k) + (if EarlyText(w, e, k) then [w.reader.e.s] else [])
  {
    if e.Push? {
      PushRecords(w, k);
      assert |WindowOf(Apply(w, e), k)| == |WindowOf(w, k)| + (if LateText(w, e, k) then 1 else 0);
      assert |BeforeOf(Apply(w, e), k)| == |BeforeOf(w, k)| + (if EarlyText(w, e, k) then 1 else 0);
    } else {
      OthersRecordNothing(w, e, k);
    }
  }

  lemma {:induction false} TextsOfRun(w: World, es: seq<Step>, v: World, k: nat)
    requires Reaches(w, es, v)
    ensures BeforeOf(v, k) == BeforeOf(w, k) + Early(w, es, k)
    ensures WindowOf(v, k) == WindowOf(w, k) + Late(w, es, k)
    decreases |es|
  {
    if es == [] {
    } else {
      WindowGrowsExactlyWhen(w, es[0], k);
      TextsOfRun(Apply(w, es[0]), es[1..], v, k);
    }
  }

  /** The answer of a turn is the trimmed concatenation of the early texts of the run and then
      its late ones, in the order in which the reader handled them, provided the backlog was
      never full for a text and no completion came as an item of the stream. So it consists of
      the texts before the response exactly in the runs without a late text; see
      OpencodeExamples for one with. */
  lemma AnswerIsTheStreamedText(resumeID: string, es: seq<Step>, w: World, k: nat, text: string)
    requires Reaches(Initial(resumeID), es, w)
    requires k < |w.turns| && w.turns[k].run == Finished(Answer(text)) && Clean(w.turns[k])
    ensures text == Trim(Concat(Early(Initial(resumeID), es, k) + Late(Initial(resumeID), es, k))) && text != ""
    ensures w.turns[k].parts == Early(Initial(resumeID), es, k) <==> Late(Initial(resumeID), es, k) == []
  {
    InvRun(Initial(resumeID), es, w);
    RecordIsTheRun(resumeID, es, w, k);
    assert StreamOk(w.turns[k]);
    AnswerIsRecorded(w.turns[k], text);
  }

  lemma RecordIsTheRun(resumeID: string, es: seq<Step>, w: World, k: nat)
    requires Reaches(Initial(resumeID), es, w) && k < |w.turns|
    ensures w.turns[k].log.before == Early(Initial(resumeID), es, k)
    ensures w.turns[k].log.window == Late(Initial(resumeID), es, k)
  {
    TextsOfRun(Initial(resumeID), es, w, k);
    assert [] + Early(Initial(resumeID), es, k) == Early(Initial(resumeID), es, k);
    assert [] + Late(Initial(resumeID), es, k) == Late(Initial(resumeID), es, k);
  }

  lemma AnswerIsRecorded(t: Turn, text: string)
    requires StreamOk(t) && t.run == Finished(Answer(text)) && Clean(t)
    ensures text == Trim(Concat(t.log.before + t.log.window)) && text != ""
    ensures t.parts == t.log.before <==> t.log.window == []
  {
    assert t.parts == Streamed(t);
    assert |t.parts| == |t.log.before| + |t.log.window|;
  }

  /** The completion is never dropped and never kept out: while the turn waits for it, either
      it can be queued now, or the event loop can make room. */
  lemma CompletionGetsThrough(w: World, k: nat)
    requires k < |w.turns| && k == |w.turns| - 1
    requires w.turns[k].sender.Signalling? && w.turns[k].run.Looping?
    ensures Enabled(w, BySender(k, Signal)) || Enabled(w, ByRun(LoopReceive))
  {
  }

  /** Each Run sends at most two prompts. The second only follows the rejection of a session
      adopted from the resume id, and goes to the session that the recovery has just been
      given. It asks for at most one new session, unless it made one itself before, and the
      server named that one with the very resume id. */
  lemma RecoveryIsBounded(resumeID: string, es: seq<Step>, w: World, k: nat)
    requires Reaches(Initial(resumeID), es, w) && k < |w.turns|
    ensures var log := w.turns[k].log;
            && |log.prompts| <= 2 && log.news <= 2
            && (|log.prompts| == 2 ==>
                  log.adoptedRejected && log.prompts[0] == resumeID && log.renewed == Some(log.prompts[1]))
            && (log.news == 2 <==> log.made.Some? && log.adoptedRejected && !w.turns[k].sender.Resetting?)
            && (log.news == 2 ==> log.made == Some(resumeID))
  {
    InvRun(Initial(resumeID), es, w);
    assert TurnOk(w, w.turns[k]);
  }

  /** The recovery is a Run's second request for a session exactly if the server named the
      first one with the resume id. */
  lemma SecondSessionExactlyWhen(resumeID: string, es: seq<Step>, w: World, k: nat)
    requires Reaches(Initial(resumeID), es, w) && Enabled(w, BySender(k, Reset))
    ensures Apply(w, BySender(k, Reset)).turns[k].log.news == 2 <==> w.turns[k].log.made == Some(resumeID)
  {
    InvRun(Initial(resumeID), es, w);
    assert TurnOk(w, w.turns[k]);
  }

  /** Updates go to the turn in progress, for the session it prompted last; and a goroutine
      of an earlier turn that is still recovering leaves the routing alone. */
  lemma RoutingBelongsToTheTurn(resumeID: string, es: seq<Step>, w: World)
    requires Reaches(Initial(resumeID), es, w)
    ensures w.activeTurn.Some? ==>
              var k := w.activeTurn.value;
              && k == |w.turns| - 1 && w.turns[k].log.prompts != []
              && w.activeSession == w.turns[k].log.prompts[|w.turns[k].log.prompts| - 1]
    ensures forall k: nat, s | Enabled(w, BySender(k, s)) && w.activeTurn != Some(k) ::
              Apply(w, BySender(k, s)).activeSession == w.activeSession && Apply(w, BySender(k, s)).activeTurn == w.activeTurn
  {
    InvRun(Initial(resumeID), es, w);
  }

  /** No step leaves Broken but the end of Init, which always does. */
  lemma BrokenIsLeftExactlyWhen(w: World, e: Step)
    requires w.state.Broken? && Enabled(w, e)
    ensures Apply(w, e).state.Broken? <==> !e.FinishInit?
    ensures |Apply(w, e).turns| >= |w.turns| && (w.inited ==> Apply(w, e).inited)
  {
  }

  /** A turn that was refused because the runtime was broken. */
  predicate Refused(t: Turn) {
    t.run == Finished(Failed) && t.sender.NotYet? && t.log.news == 0 && t.log.prompts == []
  }

  /** Once Init has returned, Broken is absorbing, and a Run that begins broken asks nothing
      of the server. */
  lemma {:induction false} BrokenIsAbsorbing(w: World, es: seq<Step>, v: World, n: nat)
    requires w.inited && w.state.Broken? && Reaches(w, es, v)
    requires RoutingOk(w)
    requires n <= |w.turns| && forall k: nat | n <= k < |w.turns| :: Refused(w.turns[k])
    ensures v.state.Broken? && n <= |v.turns|
    ensures forall k: nat | n <= k < |v.turns| :: Refused(v.turns[k])
    decreases |es|
  {
    if es == [] {
    } else {
      var u := Apply(w, es[0]);
      BrokenIsLeftExactlyWhen(w, es[0]);
      RoutingStep(w, es[0]);
      forall k: nat | n <= k < |u.turns|
        ensures Refused(u.turns[k])
      {
        RefusedStays(w, es[0], k);
      }
      BrokenIsAbsorbing(u, es[1..], v, n);
    }
  }

  lemma RefusedRun(w: World, r: RunStep, k: nat)
    requires w.state.Broken? && RunEnabled(w, r)
    requires k < |ApplyRun(w, r).turns|
    requires k < |w.turns| ==> Refused(w.turns[k])
    ensures Refused(ApplyRun(w, r).turns[k])
  {
    if !r.Start? {
      assert k < |w.turns| - 1;
    }
  }

  lemma RefusedOther(w: World, e: Step, k: nat)
    requires SharedOk(w) && Enabled(w, e) && !e.ByRun?
    requires k < |w.turns| && Refused(w.turns[k])
    ensures |Apply(w, e).turns| == |w.turns| && Refused(Apply(w, e).turns[k])
  {
  }

  lemma RefusedStays(w: World, e: Step, k: nat)
    requires w.state.Broken? && RoutingOk(w) && Enabled(w, e)
    requires k < |Apply(w, e).turns|
    requires k < |w.turns| ==> Refused(w.turns[k])
    ensures Refused(Apply(w, e).turns[k])
  {
    if e.ByRun? {
      RefusedRun(w, e.r, k);
    } else if k < |w.turns| {
      RefusedOther(w, e, k);
    } else {
      OthersAddNoTurn(w, e);
    }
  }

  lemma OthersAddNoTurn(w: World, e: Step)
    requires Enabled(w, e) && !e.ByRun?
    ensures |Apply(w, e).turns| == |w.turns|
  {
  }

  // ---------------------------------------------------------------- death during Init

  /** A process that dies during Init is forgotten: the end of Init makes the runtime Ready,
      and the next Run starts as if nothing had happened. */
  lemma DeathDuringInitIsForgotten(resumeID: string, dir: string)
    ensures var es := [Die, FinishInit, ByRun(Start(dir))];
            exists w :: Reaches(Initial(resumeID), es, w) && w.reader.Gone? && w.state.Running?
                        && |w.turns| == 1 && Now(w).run.Ensuring?
  {
    var w0 := Initial(resumeID);
    var w1 := Apply(w0, Die);
    var w2 := Apply(w1, FinishInit);
    var w3 := Apply(w2, ByRun(Start(dir)));
    var es := [Die, FinishInit, ByRun(Start(dir))];
    assert es[2..][1..] == [] && Reaches(w3, [], w3) && Reaches(w2, es[2..], w3);
    assert es[1..][1..] == es[2..] && Reaches(w1, es[1..], w3);
    assert Reaches(w0, es, w3);
  }

  /** Turn t has no text, and no answer. */
  predicate Silent(t: Turn) {
    && t.parts == [] && (forall e | e in t.ch :: !e.Text?)
    && (Ended(t.run) ==> t.run.r.Failed?)
  }

  ghost predicate AllSilent(w: World) {
    w.reader.Gone? && forall k: nat | k < |w.turns| :: Silent(w.turns[k])
  }

  lemma RunKeepsSilent(w: World, r: RunStep)
    requires RunEnabled(w, r) && !r.Start? && Silent(Now(w))
    ensures Silent(RunTurn(w, Now(w), r))
  {
    if r.LoopReceive? {
      assert Now(w).ch[0] in Now(w).ch;
      assert Trim(Concat(Now(w).parts)) == "";
    }
  }

  lemma SenderKeepsSilent(w: World, t: Turn, s: SenderStep)
    requires SenderEnabled(w, t, s) && Silent(t)
    ensures Silent(SenderTurn(w, t, s))
  {
  }

  lemma SilentStep(w: World, e: Step)
    requires AllSilent(w) && Enabled(w, e)
    ensures AllSilent(Apply(w, e))
  {
    if e.ByRun? && !e.r.Start? {
      RunKeepsSilent(w, e.r);
    } else if e.BySender? {
      SenderKeepsSilent(w, w.turns[e.k], e.s);
    }
  }

  /** But no such turn ever gets an answer: if the process has died before the first Run, all
      Runs fail, in any continuation. */
  lemma {:induction false} TheDeadDoNotAnswer(w: World, es: seq<Step>, v: World)
    requires AllSilent(w) && Reaches(w, es, v)
    ensures forall k: nat | k < |v.turns| && v.turns[k].run.Finished? :: v.turns[k].run.r.Failed?
    decreases |es|
  {
    if es == [] {
      forall k: nat | k < |v.turns| && v.turns[k].run.Finished?
        ensures v.turns[k].run.r.Failed?
      {
        assert Silent(v.turns[k]);
      }
    } else {
      SilentStep(w, es[0]);
      TheDeadDoNotAnswer(Apply(w, es[0]), es[1..], v);
    }
  }
}
