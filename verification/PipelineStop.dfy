/** What StopBot brings about: no admission enters the generation any more, only a bounded
    number of turns can still start, both goroutines exit, and no progress session is left open. */
module PipelineStop {
  import opened Common
  import opened Dedup
  import opened Pipeline
  import opened PipelineSafety

  /** Turns that can still start. */
  function Startable(s: Pipe): nat {
    |Queued(s.chans)| + |AsSeq(HeldByStarter(s.starter))| + |Passing(s.acc)|
  }

  /** Steps left at most after StopBot: each queued message is worth more than the rest of the
      way through both goroutines. */
  function Remaining(s: Pipe): nat {
    20 * (|Queued(s.chans)| + |AsSeq(HeldByStarter(s.starter))|)
    + (match s.starter case Away => 0 case Evaluating(_) => 2 case Sending(_, _) => 1)
    + (match s.acc
       case AccAbsent => 0
       case AccTop => 3
       case AccSelect(_) => 2
       case AccGot(_) => 16
       case AccMarked(_) => 15
       case AccFailing(_) => 4
       case AccHolding(_) => 14
       case AccStopping(_) => 2
       case AccFinishing(_) => 1
       case AccExit => 0)
    + (match s.del
       case DelAbsent => 0
       case DelSelect => 1
       case DelRunning(_) => 4
       case DelReturned(_, _) => 3
       case DelFinishing(_, _) => 2
       case DelExit => 0)
  }

  /** After StopBot every step gets closer to the end, and starts a turn only out of the
      bounded supply. */
  lemma StoppedStep(s: Pipe, e: Step)
    requires Shape(s) && s.stopped && Enabled(s, e)
    ensures Apply(s, e).stopped
    ensures Apply(s, e).log.admitted == s.log.admitted
    ensures Remaining(Apply(s, e)) < Remaining(s)
    ensures |Apply(s, e).log.turns| + Startable(Apply(s, e)) <= |s.log.turns| + Startable(s)
  {
    if Finishes(s, e).Some? {
      StoppedFinish(s, e);
    } else if TouchesQueue(e) {
      StoppedQueue(s, e);
    } else {
      StoppedLocal(s, e);
    }
  }

  lemma StoppedFinish(s: Pipe, e: Step)
    requires s.stopped && Enabled(s, e) && Finishes(s, e).Some?
    ensures Apply(s, e).stopped && Apply(s, e).log == s.log.(finished := Apply(s, e).log.finished)
    ensures Remaining(Apply(s, e)) < Remaining(s) && Startable(Apply(s, e)) == Startable(s)
  {
  }

  lemma StoppedQueue(s: Pipe, e: Step)
    requires Shape(s) && s.stopped && Enabled(s, e) && TouchesQueue(e)
    ensures Apply(s, e).stopped && Apply(s, e).log.admitted == s.log.admitted && Apply(s, e).log.turns == s.log.turns
    ensures Remaining(Apply(s, e)) < Remaining(s) && Startable(Apply(s, e)) <= Startable(s)
  {
    if e.StarterSend? {
      StoppedSend(s);
    }
  }

  lemma StoppedSend(s: Pipe)
    requires Shape(s) && s.stopped && Enabled(s, StarterSend)
    ensures |Queued(Apply(s, StarterSend).chans)| <= |Queued(s.chans)| + 1
    ensures Apply(s, StarterSend).starter.Away?
  {
  }

  lemma StoppedLocal(s: Pipe, e: Step)
    requires s.stopped && Enabled(s, e) && Finishes(s, e).None? && !TouchesQueue(e)
    ensures Apply(s, e).stopped && Apply(s, e).log.admitted == s.log.admitted
    ensures Remaining(Apply(s, e)) < Remaining(s)
    ensures |Apply(s, e).log.turns| + Startable(Apply(s, e)) <= |s.log.turns| + Startable(s)
  {
  }

  lemma {:induction false} StoppedRun(s: Pipe, es: seq<Step>, t: Pipe)
    requires Shape(s) && s.stopped && Reaches(s, es, t)
    ensures Shape(t) && t.stopped
    ensures t.log.admitted == s.log.admitted
    ensures |es| + Remaining(t) <= Remaining(s)
    ensures |t.log.turns| + Startable(t) <= |s.log.turns| + Startable(s)
    decreases |es|
  {
    if es == [] {
    } else {
      StoppedStep(s, es[0]);
      ShapeStep(s, es[0]);
      StoppedRun(Apply(s, es[0]), es[1..], t);
    }
  }

  predicate AcceptDone(s: Pipe) {
    s.acc.AccAbsent? || s.acc.AccExit?
  }

  predicate DeliverDone(s: Pipe) {
    s.del.DelAbsent? || s.del.DelExit?
  }

  /** The step with which the loops can always go on after StopBot. */
  function NextStep(s: Pipe): Step {
    match s.acc
    case AccTop => AccEnter
    case AccSelect(_) => AccStopped
    case AccGot(_) => AccMark
    case AccMarked(_) => ResolveFail
    case AccFailing(_) => FailFinish(0)
    case AccHolding(_) => AccAbort
    case AccStopping(_) => AccFinalise
    case AccFinishing(_) => AccFinish(0)
    case _ =>
      match s.del
      case DelSelect => DelStopped
      case DelRunning(_) => SendReturn(false)
      case DelReturned(_, _) => DelFinalise
      case _ => DelFinish(0)
  }

  /** Neither loop can get stuck after StopBot. */
  lemma StoppedLoopsGoOn(s: Pipe)
    requires Shape(s) && s.stopped
    requires !AcceptDone(s) || !DeliverDone(s)
    ensures Enabled(s, NextStep(s))
  {
  }

  /** The main result: from the moment StopBot has closed stopCh, every run is shorter than a
      bound computed from the state, admits nothing, and starts at most as many turns as
      messages are queued or on their way to the queue, plus the one the accept loop has; a
      run that cannot go on has both loops out, and then every progress session ever attached
      to an item has received Done or Fail exactly once. */
  lemma StopBotTerminatesAndCleansUp(before: seq<Step>, s: Pipe, es: seq<Step>, t: Pipe)
    requires Reaches(FRESH, before, s) && s.stopped
    requires Reaches(s, es, t)
    ensures |es| <= Remaining(s)
    ensures t.log.admitted == s.log.admitted
    ensures |t.log.turns| <= |s.log.turns| + |Queued(s.chans)| + |AsSeq(HeldByStarter(s.starter))| + 1
    ensures !Enabled(t, NextStep(t)) ==> AcceptDone(t) && DeliverDone(t)
    ensures AcceptDone(t) && DeliverDone(t) ==> multiset(t.log.carried) == multiset(t.log.finalised)
  {
    FreshInv();
    InvRun(FRESH, before, s);
    InvRun(s, es, t);
    StoppedRun(s, es, t);
    if !AcceptDone(t) || !DeliverDone(t) {
      StoppedLoopsGoOn(t);
    } else {
      AllFinalised(t);
    }
  }

  lemma AllFinalised(t: Pipe)
    requires SessionsOk(t) && AcceptDone(t) && DeliverDone(t)
    ensures multiset(t.log.carried) == multiset(t.log.finalised)
  {
    forall x: nat
      ensures multiset(t.log.carried)[x] == multiset(t.log.finalised)[x]
    {
      assert Count(t.log.carried, x) == Count(t.log.finalised, x) + InHand(t, x);
    }
  }

  /** The goroutine that sends the pending message never blocks, and so is not left behind by
      StopBot, unless another message was admitted into the queue before it. */
  lemma StarterIsNotLeftBehind(before: seq<Step>, s: Pipe)
    requires Reaches(FRESH, before, s) && !s.log.raced
    ensures s.starter.Evaluating? ==> Enabled(s, StarterEval)
    ensures s.starter.Sending? ==> Enabled(s, StarterSend)
  {
    FreshInv();
    InvRun(FRESH, before, s);
    StarterHasRoom(s);
  }

  lemma StarterHasRoom(s: Pipe)
    requires Shape(s) && QueueOrder(s)
    ensures s.starter.Evaluating? ==> Enabled(s, StarterEval)
    ensures s.starter.Sending? ==> Enabled(s, StarterSend)
  {
  }

  /** A second message went into the queue before the pending one, and then the bot stopped. */
  function RacedAndStopped(m: Msg, n: Msg): Pipe {
    FRESH.(stopped := true, slice := EMPTY_SLICE, chans := [Chan(1, [n])], starter := Sending(0, m), acc := AccTop,
           del := DelSelect, log := FRESH.log.(admitted := [m, n], raced := true))
  }

  lemma StarterIsReached(m: Msg)
    requires m.id == ""
    ensures exists es :: Reaches(FRESH, es, FRESH.(chans := [Chan(1, [])], starter := Sending(0, m), acc := AccTop,
                                                   del := DelSelect, log := FRESH.log.(admitted := [m])))
  {
    var s1 := FRESH.(pending := Some(m), log := FRESH.log.(admitted := [m]));
    assert Apply(FRESH, AdmitMsg(m, 0)) == s1;
    var s2 := s1.(chans := [Chan(1, [])], pending := None, starter := Evaluating(m), acc := AccTop, del := DelSelect);
    assert Apply(s1, Install) == s2;
    var r0: seq<Step> := [];
    assert Reaches(FRESH, r0, FRESH);
    Extend(FRESH, r0, FRESH, AdmitMsg(m, 0));
    var r1 := r0 + [AdmitMsg(m, 0)];
    Extend(FRESH, r1, s1, Install);
    var r2 := r1 + [Install];
    Extend(FRESH, r2, s2, StarterEval);
    assert Reaches(FRESH, r2 + [StarterEval], s2.(starter := Sending(0, m)));
  }

  lemma RaceIsReached(m: Msg, n: Msg)
    requires m.id == "" && n.id == ""
    ensures exists es :: Reaches(FRESH, es, RacedAndStopped(m, n))
  {
    StarterIsReached(m);
    var s := FRESH.(chans := [Chan(1, [])], starter := Sending(0, m), acc := AccTop, del := DelSelect,
                    log := FRESH.log.(admitted := [m]));
    var es :| Reaches(FRESH, es, s);
    var t := s.(chans := [Chan(1, [n])], log := s.log.(admitted := [m] + [n], raced := true));
    assert s.chans[0].items + [n] == [n] && s.chans[0 := Chan(1, [n])] == t.chans;
    assert Apply(s, AdmitMsg(n, 0)) == t;
    Extend(FRESH, es, s, AdmitMsg(n, 0));
    assert Apply(t, StopBot) == RacedAndStopped(m, n);
    Extend(FRESH, es + [AdmitMsg(n, 0)], t, StopBot);
  }

  /** The accept loop is out, and the channel that the starter sends to is full. */
  predicate Blocked(s: Pipe, ch: nat, m: Msg) {
    && s.stopped && s.acc.AccExit? && s.starter == Sending(ch, m)
    && ch < |s.chans| && |s.chans[ch].items| >= s.chans[ch].cap
  }

  /** A goroutine that is sending the pending message when the accept loop has gone can be
      blocked, and then is blocked in every continuation; so it gets through exactly if there
      is room at that moment. */
  lemma {:induction false} StarterIsBlockedForGoodExactlyWhen(s: Pipe, ch: nat, m: Msg, es: seq<Step>, t: Pipe)
    requires Shape(s) && s.acc.AccExit? && s.starter == Sending(ch, m)
    requires Reaches(s, es, t)
    ensures Enabled(s, StarterSend) <==> !Blocked(s, ch, m)
    ensures Blocked(s, ch, m) ==> Blocked(t, ch, m) && t.chans == s.chans
    decreases |es|
  {
    if es == [] {
    } else if Blocked(s, ch, m) {
      var u := Apply(s, es[0]);
      BlockedStep(s, es[0], ch, m);
      ShapeStep(s, es[0]);
      StarterIsBlockedForGoodExactlyWhen(u, ch, m, es[1..], t);
    }
  }

  lemma BlockedStep(s: Pipe, e: Step, ch: nat, m: Msg)
    requires Blocked(s, ch, m) && Enabled(s, e)
    ensures Blocked(Apply(s, e), ch, m) && Apply(s, e).chans == s.chans
  {
  }

  lemma IdleLoopsExit(es: seq<Step>, s: Pipe)
    requires Reaches(FRESH, es, s) && s.stopped && HasWorker(s.chans) && s.acc.AccTop? && s.del.DelSelect?
    ensures Reaches(FRESH, es + [AccEnter] + [AccStopped] + [DelStopped], s.(acc := AccExit, del := DelExit))
  {
    Extend(FRESH, es, s, AccEnter);
    var s1 := Apply(s, AccEnter);
    Extend(FRESH, es + [AccEnter], s1, AccStopped);
    var s2 := Apply(s1, AccStopped);
    Extend(FRESH, es + [AccEnter] + [AccStopped], s2, DelStopped);
  }

  lemma BlockedForGood(m: Msg, n: Msg, e: Step)
    ensures !Enabled(RacedAndStopped(m, n).(acc := AccExit, del := DelExit), e)
  {
  }

  /** With such a race it can be: the queue of one is taken by the racing message, both loops
      are gone, and no step is left that would unblock the send. */
  lemma StarterCanBeLeftBehind(m: Msg, n: Msg)
    requires m.id == "" && n.id == ""
    ensures exists es, t :: Reaches(FRESH, es, t) && t.starter == Sending(0, m) && t.stopped
                            && AcceptDone(t) && DeliverDone(t) && forall e :: !Enabled(t, e)
  {
    RaceIsReached(m, n);
    var es :| Reaches(FRESH, es, RacedAndStopped(m, n));
    IdleLoopsExit(es, RacedAndStopped(m, n));
    forall e
      ensures !Enabled(RacedAndStopped(m, n).(acc := AccExit, del := DelExit), e)
    {
      BlockedForGood(m, n, e);
    }
  }
}
