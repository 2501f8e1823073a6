/** The critical sections of BotMessageOrchestrator over the state its mutex guards, and
    their relation to the per-bot pipelines: what they do to one bot is one step of that
    bot's pipeline, and what they do to the other bots cannot be told from nothing. */
module Orchestrator {
  import opened Common
  import opened Dedup
  import opened Pipeline

  /** One entry of `bots`; gen tells a bot's successive entries apart, as pointers do. */
  datatype BotState = BotState(chans: Chans, pending: Option<Msg>, active: nat, queueSize: nat, gen: nat)

  datatype Shared = Shared(bots: map<string, BotState>, seen: map<string, Seen>, lastCleanup: Option<int>, nextGen: nat)

  function IndexOf(o: Shared): Index {
    Index(map b | b in o.bots :: o.bots[b].active, o.seen, o.lastCleanup)
  }

  /** The entry admitMessage finds or makes. */
  function EntryFor(o: Shared, bot: string): BotState {
    if bot in o.bots then o.bots[bot] else BotState([], None, 0, DEFAULT_QUEUE_SIZE, o.nextGen)
  }

  function Admission(o: Shared, bot: string, m: Msg, now: int): Event {
    Admit(bot, m.id, HasRoom(EntryFor(o, bot).chans), now)
  }

  function Enqueue(b: BotState, m: Msg): BotState {
    if HasWorker(b.chans) then b.(chans := Push(b.chans, |b.chans| - 1, m)) else b.(pending := Some(m))
  }

  function AdmitVerdict(o: Shared, bot: string, m: Msg, now: int): Verdict {
    Decide(Lookup(Cleaned(IndexOf(o), now).seen, Key(bot, m.id)), m.id, HasRoom(EntryFor(o, bot).chans), now)
  }

  function AdmitSpec(o: Shared, bot: string, m: Msg, now: int): Shared {
    var taken := AdmitVerdict(o, bot, m, now).Admitted?;
    var entry := EntryFor(o, bot);
    var clean := Cleaned(IndexOf(o), now);
    Shared(o.bots[bot := if taken then Enqueue(entry, m) else entry],
           if taken && m.id != "" then clean.seen[Key(bot, m.id) := Seen(now, true)] else clean.seen,
           clean.lastCleanup,
           if bot in o.bots then o.nextGen else o.nextGen + 1)
  }

  /** The state after the cleanup and with an entry for the bot. */
  function WithEntry(o: Shared, bot: string, now: int): Shared {
    Shared(o.bots[bot := EntryFor(o, bot)], Cleaned(IndexOf(o), now).seen, Cleaned(IndexOf(o), now).lastCleanup,
           if bot in o.bots then o.nextGen else o.nextGen + 1)
  }

  function TakeSpec(o: Shared, bot: string, m: Msg, now: int): Shared
    requires bot in o.bots
  {
    o.(bots := o.bots[bot := Enqueue(o.bots[bot], m)],
       seen := if m.id != "" then o.seen[Key(bot, m.id) := Seen(now, true)] else o.seen)
  }

  /** An admission is the cleanup and the entry, and then the taking of the message if there is
      no duplicate and the bot has room. */
  lemma AdmitCases(o: Shared, bot: string, m: Msg, now: int)
    ensures var e := WithEntry(o, bot, now);
            var v := Decide(Lookup(e.seen, Key(bot, m.id)), m.id, HasRoom(e.bots[bot].chans), now);
            && AdmitVerdict(o, bot, m, now) == v
            && AdmitSpec(o, bot, m, now) == if v.Admitted? then TakeSpec(e, bot, m, now) else e
  {
    var e := WithEntry(o, bot, now);
    if AdmitVerdict(o, bot, m, now).Admitted? {
      assert TakeSpec(e, bot, m, now).bots == AdmitSpec(o, bot, m, now).bots;
    }
  }

  function FinishSpec(o: Shared, bot: string, id: string, ok: bool, now: int): Shared {
    var g := IndexStep(IndexOf(o), Finish(bot, id, ok, now)).0;
    o.(seen := g.seen,
       bots := if bot in o.bots then o.bots[bot := o.bots[bot].(active := g.bots[bot])] else o.bots)
  }

  function StopSpec(o: Shared, bot: string): Shared {
    if bot in o.bots then o.(bots := o.bots - {bot}, seen := Erased(o.seen, bot)) else o
  }

  function MarkSpec(o: Shared, bot: string): Shared {
    if bot in o.bots then o.(bots := o.bots[bot := o.bots[bot].(active := o.bots[bot].active + 1)]) else o
  }

  predicate MayInstall(o: Shared, bot: string, gen: nat) {
    bot in o.bots && o.bots[bot].gen == gen && !HasWorker(o.bots[bot].chans)
  }

  function InstallSpec(o: Shared, bot: string, gen: nat): Shared {
    if MayInstall(o, bot, gen)
    then o.(bots := o.bots[bot := o.bots[bot].(chans := [Chan(DEFAULT_QUEUE_SIZE, [])], pending := None)])
    else o
  }

  function ResizeSpec(o: Shared, bot: string, size: int): Shared {
    if bot in o.bots
    then o.(bots := o.bots[bot := o.bots[bot].(queueSize := QueueSize(size),
                                               chans := Resize(o.bots[bot].chans, QueueSize(size)))])
    else o
  }

  class BotMessageOrchestrator {
    var bots: map<string, BotState>
    var seen: map<string, Seen>
    var lastSeenCleanup: Option<int>
    var nextGen: nat

    ghost function View(): Shared
      reads this
    {
      Shared(bots, seen, lastSeenCleanup, nextGen)
    }

    constructor ()
      ensures View() == Shared(map[], map[], None, 0)
    {
      bots, seen, lastSeenCleanup, nextGen := map[], map[], None, 0;
    }

    method CleanupSeenLocked(now: int)
      modifies this`seen, this`lastSeenCleanup
      ensures seen == Pruned(old(seen), now) && lastSeenCleanup == Some(now)
    {
      var keys := seen.Keys;
      ghost var done: set<string> := {};
      while keys != {}
        invariant keys !! done && keys + done == old(seen).Keys
        invariant forall k :: k in seen <==> k in keys || (k in done && !Expired(old(seen)[k], now))
        invariant forall k | k in seen :: seen[k] == old(seen)[k]
        decreases keys
      {
        var key :| key in keys;
        if !seen[key].inProgress && now - seen[key].seenAt >= SEEN_MESSAGE_TTL {
          seen := seen - {key};
        }
        keys := keys - {key};
        done := done + {key};
      }
      lastSeenCleanup := Some(now);
    }

    method AdmitMessage(bot: string, m: Msg, now: int) returns (verdict: Verdict)
      modifies this
      ensures View() == AdmitSpec(old(View()), bot, m, now)
      ensures verdict == AdmitVerdict(old(View()), bot, m, now)
    {
      ghost var before := View();
      if lastSeenCleanup.None? || now - lastSeenCleanup.value >= CLEANUP_INTERVAL {
        CleanupSeenLocked(now);
      }
      assert seen == Cleaned(IndexOf(before), now).seen;
      var state := FindOrCreate(bot);
      assert View() == WithEntry(before, bot, now);
      var key := Key(bot, m.id);
      if m.id != "" && key in seen {
        if seen[key].inProgress || now - seen[key].seenAt < SEEN_MESSAGE_TTL {
          AdmitCases(before, bot, m, now);
          return Duplicate;
        }
      }
      AdmitCases(before, bot, m, now);
      if HasWorker(state.chans) && |Current(state.chans).items| >= Current(state.chans).cap {
        return Busy;
      }
      TakeMessage(bot, m, now);
      return Admitted;
    }

    /** admitMessage once it is clear that the message is taken: the pending slot or the queue,
        and the key. */
    method TakeMessage(bot: string, m: Msg, now: int)
      requires bot in bots
      modifies this`bots, this`seen
      ensures View() == TakeSpec(old(View()), bot, m, now)
    {
      var state := bots[bot];
      if HasWorker(state.chans) {
        bots := bots[bot := state.(chans := Push(state.chans, |state.chans| - 1, m))];
      } else {
        bots := bots[bot := state.(pending := Some(m))];
      }
      if m.id != "" {
        seen := seen[Key(bot, m.id) := Seen(now, true)];
      }
    }

    method FindOrCreate(bot: string) returns (state: BotState)
      modifies this`bots, this`nextGen
      ensures state == EntryFor(old(View()), bot)
      ensures bots == old(bots)[bot := state]
      ensures nextGen == if bot in old(bots) then old(nextGen) else old(nextGen) + 1
    {
      if bot !in bots {
        bots := bots[bot := BotState([], None, 0, DEFAULT_QUEUE_SIZE, nextGen)];
        nextGen := nextGen + 1;
      }
      return bots[bot];
    }

    /** The critical section of ensureWorker, for the entry that admitMessage returned. The
        result is the message to send into the new queue. */
    method InstallWorker(bot: string, gen: nat) returns (installed: bool, pending: Option<Msg>)
      modifies this`bots
      ensures installed == MayInstall(old(View()), bot, gen)
      ensures View() == InstallSpec(old(View()), bot, gen)
      ensures pending == if installed then old(bots)[bot].pending else None
    {
      if bot !in bots || bots[bot].gen != gen || HasWorker(bots[bot].chans) {
        return false, None;
      }
      pending := bots[bot].pending;
      bots := bots[bot := bots[bot].(chans := [Chan(DEFAULT_QUEUE_SIZE, [])], pending := None)];
      return true, pending;
    }

    method ResizeWorkerQueue(bot: string, size: int)
      modifies this`bots
      ensures View() == ResizeSpec(old(View()), bot, size)
    {
      var queueSize := if size <= 0 then DEFAULT_QUEUE_SIZE else size;
      if bot !in bots {
        return;
      }
      var state := bots[bot].(queueSize := queueSize);
      bots := bots[bot := state];
      if !HasWorker(state.chans) || Current(state.chans).cap == queueSize || |Current(state.chans).items| > 0 {
        return;
      }
      bots := bots[bot := state.(chans := state.chans + [Chan(queueSize, [])])];
    }

    method MarkMessageStarted(bot: string)
      modifies this`bots
      ensures View() == MarkSpec(old(View()), bot)
    {
      if bot !in bots {
        return;
      }
      bots := bots[bot := bots[bot].(active := bots[bot].active + 1)];
    }

    method FinishMessage(bot: string, id: string, succeeded: bool, now: int)
      modifies this`bots, this`seen
      ensures View() == FinishSpec(old(View()), bot, id, succeeded, now)
    {
      if bot !in bots {
        return;
      }
      var state := bots[bot];
      if id == "" {
        if state.active > 0 {
          bots := bots[bot := state.(active := state.active - 1)];
        }
        return;
      }
      var key := Key(bot, id);
      if key !in seen {
        return;
      }
      if !seen[key].inProgress {
        return;
      }
      if state.active > 0 {
        bots := bots[bot := state.(active := state.active - 1)];
      }
      if succeeded {
        seen := seen[key := Seen(now, false)];
        return;
      }
      seen := seen - {key};
    }

    /** The critical section of StopBot; closing stopCh is Pipeline's StopBot step. */
    method StopBot(bot: string)
      modifies this`bots, this`seen
      ensures View() == StopSpec(old(View()), bot)
    {
      if bot !in bots {
        return;
      }
      bots := bots - {bot};
      var keys := seen.Keys;
      ghost var done: set<string> := {};
      while keys != {}
        invariant bots == old(bots) - {bot}
        invariant keys !! done && keys + done == old(seen).Keys
        invariant forall k :: k in seen <==> k in keys || (k in done && !(bot + ":" <= k))
        invariant forall k | k in seen :: seen[k] == old(seen)[k]
        decreases keys
      {
        var key :| key in keys;
        if bot + ":" <= key {
          seen := seen - {key};
        }
        keys := keys - {key};
        done := done + {key};
      }
      assert seen == Erased(old(seen), bot);
    }
  }

  // ---------------------------------------------------------------- one bot's view

  /** s is what the pipeline of bot looks like in o; its history has not been pruned. */
  ghost predicate Describes(o: Shared, bot: string, s: Pipe, t: int) {
    && Agrees(IndexOf(o), s.slice, bot, t)
    && (bot in o.bots <==> !s.stopped)
    && (bot in o.bots ==> o.bots[bot].chans == s.chans && o.bots[bot].pending == s.pending)
  }

  lemma AdmitIsAPipelineStep(o: Shared, bot: string, s: Pipe, t: int, m: Msg, now: int)
    requires Describes(o, bot, s, t) && t <= now && !s.stopped
    ensures Describes(AdmitSpec(o, bot, m, now), bot, Apply(s, AdmitMsg(m, now)), now)
    ensures Accepts(s, m, now) <==> AdmitVerdict(o, bot, m, now) == Admitted
  {
    var e := Admission(o, bot, m, now);
    OwnStepAgrees(IndexOf(o), s.slice, bot, t, e);
    AdmitIndex(o, bot, m, now);
  }

  lemma AdmitIndex(o: Shared, bot: string, m: Msg, now: int)
    ensures IndexStep(IndexOf(o), Admission(o, bot, m, now)) ==
            (IndexOf(AdmitSpec(o, bot, m, now)), Decided(AdmitVerdict(o, bot, m, now)))
  {
    assert IndexOf(AdmitSpec(o, bot, m, now)).bots == IndexStep(IndexOf(o), Admission(o, bot, m, now)).0.bots;
  }

  lemma FinishIndex(o: Shared, bot: string, id: string, ok: bool, now: int)
    ensures IndexOf(FinishSpec(o, bot, id, ok, now)) == IndexStep(IndexOf(o), Finish(bot, id, ok, now)).0
  {
    assert IndexOf(FinishSpec(o, bot, id, ok, now)).bots == IndexStep(IndexOf(o), Finish(bot, id, ok, now)).0.bots;
  }

  lemma StopIndex(o: Shared, bot: string)
    ensures IndexOf(StopSpec(o, bot)) == IndexStep(IndexOf(o), Stop(bot)).0
  {
    assert IndexOf(StopSpec(o, bot)).bots == IndexStep(IndexOf(o), Stop(bot)).0.bots;
  }

  lemma MarkIndex(o: Shared, bot: string)
    ensures IndexOf(MarkSpec(o, bot)) == IndexStep(IndexOf(o), MarkStarted(bot)).0
  {
    assert IndexOf(MarkSpec(o, bot)).bots == IndexStep(IndexOf(o), MarkStarted(bot)).0.bots;
  }

  /** finishMessage, called for a message this generation still works on, is the finishing
      step of the goroutine that works on it. */
  lemma FinishIsAPipelineStep(o: Shared, bot: string, s: Pipe, t: int, e: Step)
    requires Describes(o, bot, s, t)
    requires Enabled(s, e) && Finishes(s, e).Some? && t <= e.now
    ensures var ok := e.DelFinish? && s.del.ok;
            Describes(FinishSpec(o, bot, Finishes(s, e).value.id, ok, e.now), bot, Apply(s, e), e.now)
  {
    var ok := e.DelFinish? && s.del.ok;
    var id := Finishes(s, e).value.id;
    OwnStepAgrees(IndexOf(o), s.slice, bot, t, Finish(bot, id, ok, e.now));
    FinishIndex(o, bot, id, ok, e.now);
  }

  lemma MarkIsAPipelineStep(o: Shared, bot: string, s: Pipe, t: int)
    requires Describes(o, bot, s, t) && Enabled(s, AccMark)
    ensures Describes(MarkSpec(o, bot), bot, Apply(s, AccMark), t)
  {
    OwnStepAgrees(IndexOf(o), s.slice, bot, t, MarkStarted(bot));
    MarkIndex(o, bot);
  }

  /** Installing the worker and replacing its queue leave the duplicate filter alone. */
  lemma QueueSectionsArePipelineSteps(o: Shared, bot: string, s: Pipe, t: int, gen: nat, size: int, sess: Option<nat>)
    requires Describes(o, bot, s, t)
    ensures MayInstall(o, bot, gen) && s.pending.Some? ==>
              Enabled(s, Install) && Describes(InstallSpec(o, bot, gen), bot, Apply(s, Install), t)
    ensures Enabled(s, ResolveOk(size, sess)) ==>
              Describes(ResizeSpec(o, bot, size), bot, Apply(s, ResolveOk(size, sess)), t)
  {
    assert IndexOf(InstallSpec(o, bot, gen)) == IndexOf(o);
    assert IndexOf(ResizeSpec(o, bot, size)) == IndexOf(o);
  }

  lemma StopIsAPipelineStep(o: Shared, bot: string, s: Pipe, t: int)
    requires Describes(o, bot, s, t) && !s.stopped
    ensures Describes(StopSpec(o, bot), bot, Apply(s, Pipeline.StopBot), t)
  {
    OwnStepAgrees(IndexOf(o), s.slice, bot, t, Stop(bot));
    StopIndex(o, bot);
    assert Apply(s, Pipeline.StopBot).slice == SliceStep(s.slice, Stop(bot)).0;
    assert bot !in StopSpec(o, bot).bots;
  }

  /** A step of another bot's duplicate filter, in any state that has this bot's channels. */
  lemma OtherIndexStep(o: Shared, o': Shared, bot: string, s: Pipe, t: int, e: Event)
    requires Describes(o, bot, s, t)
    requires e.bot != bot && Apart(e.bot, bot)
    requires Clocked(e) ==> t <= e.now
    requires IndexOf(o') == IndexStep(IndexOf(o), e).0
    requires bot in o.bots <==> bot in o'.bots
    requires bot in o.bots ==> o'.bots[bot] == o.bots[bot]
    ensures Describes(o', bot, s, ClockAfter(e, t))
  {
    OtherStepAgrees(IndexOf(o), s.slice, bot, t, e);
  }

  lemma OtherAdmission(o: Shared, bot: string, s: Pipe, t: int, other: string, m: Msg, now: int)
    requires Describes(o, bot, s, t) && t <= now && other != bot && Apart(other, bot)
    ensures Describes(AdmitSpec(o, other, m, now), bot, s, now)
  {
    AdmitIndex(o, other, m, now);
    OtherIndexStep(o, AdmitSpec(o, other, m, now), bot, s, t, Admission(o, other, m, now));
  }

  lemma OtherFinish(o: Shared, bot: string, s: Pipe, t: int, other: string, id: string, ok: bool, now: int)
    requires Describes(o, bot, s, t) && t <= now && other != bot && Apart(other, bot)
    ensures Describes(FinishSpec(o, other, id, ok, now), bot, s, now)
  {
    FinishIndex(o, other, id, ok, now);
    OtherIndexStep(o, FinishSpec(o, other, id, ok, now), bot, s, t, Finish(other, id, ok, now));
  }

  lemma OtherStop(o: Shared, bot: string, s: Pipe, t: int, other: string)
    requires Describes(o, bot, s, t) && other != bot && Apart(other, bot)
    ensures Describes(StopSpec(o, other), bot, s, t)
  {
    StopIndex(o, other);
    OtherIndexStep(o, StopSpec(o, other), bot, s, t, Stop(other));
  }

  lemma OtherQueue(o: Shared, bot: string, s: Pipe, t: int, other: string, gen: nat, size: int)
    requires Describes(o, bot, s, t) && other != bot && Apart(other, bot)
    ensures Describes(MarkSpec(o, other), bot, s, t)
    ensures Describes(InstallSpec(o, other, gen), bot, s, t) && Describes(ResizeSpec(o, other, size), bot, s, t)
  {
    MarkIndex(o, other);
    OtherIndexStep(o, MarkSpec(o, other), bot, s, t, MarkStarted(other));
    assert IndexOf(InstallSpec(o, other, gen)) == IndexOf(o);
    assert IndexOf(ResizeSpec(o, other, size)) == IndexOf(o);
  }

  /** What one bot's critical sections do to another bot cannot be told from nothing: its
      pipeline is described by the shared state as before. */
  lemma OtherBotsSeeNothing(o: Shared, bot: string, s: Pipe, t: int, other: string, m: Msg, ok: bool, now: int, gen: nat, size: int)
    requires Describes(o, bot, s, t) && t <= now
    requires other != bot && Apart(other, bot)
    ensures Describes(AdmitSpec(o, other, m, now), bot, s, now)
    ensures Describes(FinishSpec(o, other, m.id, ok, now), bot, s, now)
    ensures Describes(StopSpec(o, other), bot, s, t)
    ensures Describes(MarkSpec(o, other), bot, s, t)
    ensures Describes(InstallSpec(o, other, gen), bot, s, t) && Describes(ResizeSpec(o, other, size), bot, s, t)
  {
    OtherAdmission(o, bot, s, t, other, m, now);
    OtherFinish(o, bot, s, t, other, m.id, ok, now);
    OtherStop(o, bot, s, t, other);
    OtherQueue(o, bot, s, t, other, gen, size);
  }
}
