/** The duplicate filter of BotMessageOrchestrator: one `seen` map shared by all bots,
    keyed by "<bot>:<message>" and pruned lazily, against one never-pruned history per bot. */
module Dedup {
  import opened Common

  // Times are milliseconds on one clock.
  const SEEN_MESSAGE_TTL: int := 10 * 60 * 1000
  const CLEANUP_INTERVAL: int := 60 * 1000

  datatype Seen = Seen(seenAt: int, inProgress: bool)

  datatype Verdict = Admitted | Duplicate | Busy

  /** One critical section of the orchestrator, as the duplicate filter sees it. `room` says
      whether the bot's queue (or its pending slot) can take the message. */
  datatype Event =
    | Admit(bot: string, id: string, room: bool, now: int)
    | MarkStarted(bot: string)
    | Finish(bot: string, id: string, ok: bool, now: int)
    | Stop(bot: string)

  /** What the caller of a critical section learns. */
  datatype Obs =
    | Decided(verdict: Verdict)
    | Released(released: bool)
    | Nothing

  // ---------------------------------------------------------------- one bot's history

  /** One bot alone: `active` is None while the bot has no state. */
  datatype Slice = Slice(active: Option<nat>, seen: map<string, Seen>)

  const EMPTY_SLICE := Slice(None, map[])

  predicate IsDuplicate(seen: Option<Seen>, now: int) {
    seen.Some? && (seen.value.inProgress || now - seen.value.seenAt < SEEN_MESSAGE_TTL)
  }

  function Lookup(seen: map<string, Seen>, key: string): Option<Seen> {
    if key in seen then Some(seen[key]) else None
  }

  function Decide(seen: Option<Seen>, id: string, room: bool, now: int): Verdict {
    if id != "" && IsDuplicate(seen, now) then Duplicate
    else if room then Admitted
    else Busy
  }

  function Lower(active: nat): nat {
    if active > 0 then active - 1 else 0
  }

  /** The never-pruned reference machine of one bot; the bot field of e is ignored. */
  function SliceStep(h: Slice, e: Event): (Slice, Obs) {
    match e
    case Admit(_, id, room, now) =>
      var present := if h.active.None? then h.(active := Some(0)) else h;
      var v := Decide(Lookup(h.seen, id), id, room, now);
      var h' := if v.Admitted? && id != "" then present.(seen := h.seen[id := Seen(now, true)]) else present;
      (h', Decided(v))
    case MarkStarted(_) =>
      (if h.active.None? then h else h.(active := Some(h.active.value + 1)), Nothing)
    case Finish(_, id, ok, now) =>
      if h.active.None? then (h, Released(false))
      else if id == "" then (h.(active := Some(Lower(h.active.value))), Released(true))
      else if id !in h.seen || !h.seen[id].inProgress then (h, Released(false))
      else
        var seen := if ok then h.seen[id := Seen(now, false)] else h.seen - {id};
        (Slice(Some(Lower(h.active.value)), seen), Released(true))
    case Stop(_) =>
      (EMPTY_SLICE, Nothing)
  }

  // ---------------------------------------------------------------- the shared index

  datatype Index = Index(bots: map<string, nat>, seen: map<string, Seen>, lastCleanup: Option<int>)

  const EMPTY_INDEX := Index(map[], map[], None)

  function Key(bot: string, id: string): string {
    bot + ":" + id
  }

  predicate Expired(s: Seen, now: int) {
    !s.inProgress && now - s.seenAt >= SEEN_MESSAGE_TTL
  }

  function Pruned(seen: map<string, Seen>, now: int): map<string, Seen> {
    map k | k in seen && !Expired(seen[k], now) :: seen[k]
  }

  predicate CleanupDue(g: Index, now: int) {
    g.lastCleanup.None? || now - g.lastCleanup.value >= CLEANUP_INTERVAL
  }

  function Cleaned(g: Index, now: int): Index {
    if CleanupDue(g, now) then g.(seen := Pruned(g.seen, now), lastCleanup := Some(now)) else g
  }

  function Erased(seen: map<string, Seen>, bot: string): map<string, Seen> {
    map k | k in seen && !(bot + ":" <= k) :: seen[k]
  }

  function IndexStep(g: Index, e: Event): (Index, Obs) {
    match e
    case Admit(bot, id, room, now) =>
      var c := Cleaned(g, now);
      var present := if bot in c.bots then c else c.(bots := c.bots[bot := 0]);
      var v := Decide(Lookup(c.seen, Key(bot, id)), id, room, now);
      var g' := if v.Admitted? && id != "" then present.(seen := c.seen[Key(bot, id) := Seen(now, true)]) else present;
      (g', Decided(v))
    case MarkStarted(bot) =>
      (if bot in g.bots then g.(bots := g.bots[bot := g.bots[bot] + 1]) else g, Nothing)
    case Finish(bot, id, ok, now) =>
      if bot !in g.bots then (g, Released(false))
      else
        var lowered := g.bots[bot := Lower(g.bots[bot])];
        if id == "" then (g.(bots := lowered), Released(true))
        else if Key(bot, id) !in g.seen || !g.seen[Key(bot, id)].inProgress then (g, Released(false))
        else
          var seen := if ok then g.seen[Key(bot, id) := Seen(now, false)] else g.seen - {Key(bot, id)};
          (g.(bots := lowered, seen := seen), Released(true))
    case Stop(bot) =>
      if bot !in g.bots then (g, Nothing)
      else (g.(bots := g.bots - {bot}, seen := Erased(g.seen, bot)), Nothing)
  }

  // ---------------------------------------------------------------- keys

  predicate ColonFree(bot: string) {
    ':' !in bot
  }

  /** Neither id is the other one continued after a colon. */
  predicate Apart(a: string, b: string) {
    !(a + ":" <= b) && !(b + ":" <= a)
  }

  lemma ColonFreeHasNoContinuation(a: string, b: string)
    ensures a + ":" <= b ==> !ColonFree(b)
  {
    assert (a + ":")[|a|] == ':';
  }

  lemma ColonFreeApart(a: string, b: string)
    requires ColonFree(a) && ColonFree(b)
    ensures Apart(a, b)
  {
    ColonFreeHasNoContinuation(a, b);
    ColonFreeHasNoContinuation(b, a);
  }

  /** Two prefixes of one string are comparable. */
  lemma PrefixesComparable(p: string, q: string, s: string)
    requires p <= s && q <= s && |p| <= |q|
    ensures p <= q
  {
    assert p == s[..|p|] && q == s[..|q|];
    assert q[..|p|] == s[..|p|];
  }

  /** Keys of one bot determine the message; keys of two bots can meet exactly when one id
      continues the other after a colon. */
  lemma KeysCollideExactly(a: string, b: string)
    ensures forall m, n :: Key(a, m) == Key(a, n) ==> m == n
    ensures (exists m, n :: Key(a, m) == Key(b, n)) <==> (a == b || !Apart(a, b))
  {
    forall m, n | Key(a, m) == Key(a, n)
      ensures m == n
    {
      KeyBody(a, m);
      KeyBody(a, n);
    }
    if exists m, n :: Key(a, m) == Key(b, n) {
      var m, n :| Key(a, m) == Key(b, n);
      KeyOwner(a, b, m, n);
    }
    if a == b {
      assert Key(a, "") == Key(b, "");
    } else if a + ":" <= b {
      var x := b[|a| + 1..];
      assert b == a + ":" + x;
      assert Key(a, x + ":") == a + ":" + (x + ":") == b + ":" + "" == Key(b, "");
    } else if b + ":" <= a {
      var x := a[|b| + 1..];
      assert a == b + ":" + x;
      assert Key(a, "") == a + ":" + "" == b + ":" + (x + ":") == Key(b, x + ":");
    }
  }

  lemma KeyBody(bot: string, id: string)
    ensures bot + ":" <= Key(bot, id)
    ensures Key(bot, id)[|bot| + 1..] == id
  {
  }

  lemma KeyOwner(a: string, b: string, m: string, n: string)
    requires Key(a, m) == Key(b, n)
    ensures a == b || !Apart(a, b)
  {
    PrefixOwner(a, b, n);
  }

  /** A key of bot b starts with "a:" only when a is b, or the ids are not apart. */
  lemma PrefixOwner(a: string, b: string, n: string)
    ensures a + ":" <= Key(a, n)
    ensures a + ":" <= Key(b, n) ==> a == b || !Apart(a, b)
  {
    KeyBody(a, n);
    KeyBody(b, n);
    var k := Key(b, n);
    if a + ":" <= k {
      if |a| < |b| {
        PrefixesComparable(a + ":", b, k);
      } else if |b| < |a| {
        PrefixesComparable(a, a + ":", k);
        PrefixesComparable(b + ":", a, k);
      } else {
        assert a == k[..|a|] == b;
      }
    }
  }

  /** StopBot(a) erases the entries of b exactly when a is b; stated for ids that are apart. */
  lemma StopErasesExactlyItsBot(seen: map<string, Seen>, a: string, b: string, id: string)
    requires a == b || Apart(a, b)
    requires Key(b, id) in seen
    ensures Key(b, id) in Erased(seen, a) <==> a != b
    ensures a != b ==> Erased(seen, a)[Key(b, id)] == seen[Key(b, id)]
  {
    PrefixOwner(a, b, id);
  }

  /** Exactly without that condition StopBot reaches into another bot: some message of b then
      has a key that stopping a erases. */
  lemma StopReachesExactlyWhen(a: string, b: string)
    ensures (exists id :: a + ":" <= Key(b, id)) <==> a == b || !Apart(a, b)
    ensures forall id, seen: map<string, Seen> | Key(b, id) in seen ::
              Key(b, id) !in Erased(seen, a) <==> a + ":" <= Key(b, id)
  {
    if exists id :: a + ":" <= Key(b, id) {
      var id :| a + ":" <= Key(b, id);
      PrefixOwner(a, b, id);
    }
    if a == b {
      assert a + ":" <= Key(b, "");
    } else if a + ":" <= b {
      assert b <= Key(b, "");
      assert a + ":" <= Key(b, "");
    } else if b + ":" <= a {
      var x := a[|b| + 1..];
      assert a == b + ":" + x;
      assert Key(b, x + ":") == a + ":";
    }
  }

  /** An example: stopping "a" forgets "a:b". */
  lemma StopCanEraseAnotherBot()
    ensures var seen := map[Key("a:b", "m") := Seen(0, true)];
            Erased(seen, "a") == map[]
  {
    var k := Key("a:b", "m");
    assert k == "a:b:m";
    assert "a" + ":" <= k;
  }

  // ---------------------------------------------------------------- runs

  predicate Clocked(e: Event) {
    e.Admit? || e.Finish?
  }

  /** The clock readings of es, in lock order, never go below t or backwards. */
  predicate Timed(es: seq<Event>, t: int) {
    if es == [] then true
    else if Clocked(es[0]) then t <= es[0].now && Timed(es[1..], es[0].now)
    else Timed(es[1..], t)
  }

  predicate PairwiseApart(es: seq<Event>, bot: string) {
    forall e | e in es :: e.bot == bot || Apart(e.bot, bot)
  }

  /** The events of one bot. */
  function Own(es: seq<Event>, bot: string): seq<Event>
    decreases |es|
  {
    if es == [] then []
    else (if es[0].bot == bot then [es[0]] else []) + Own(es[1..], bot)
  }

  function IndexRun(g: Index, es: seq<Event>): Index
    decreases |es|
  {
    if es == [] then g else IndexRun(IndexStep(g, es[0]).0, es[1..])
  }

  function SliceRun(h: Slice, es: seq<Event>): Slice
    decreases |es|
  {
    if es == [] then h else SliceRun(SliceStep(h, es[0]).0, es[1..])
  }

  /** What one bot's callers observe of a run of the shared index. */
  function IndexObs(g: Index, es: seq<Event>, bot: string): seq<Obs>
    decreases |es|
  {
    if es == [] then []
    else
      var (g', o) := IndexStep(g, es[0]);
      (if es[0].bot == bot then [o] else []) + IndexObs(g', es[1..], bot)
  }

  function SliceObs(h: Slice, es: seq<Event>): seq<Obs>
    decreases |es|
  {
    if es == [] then []
    else
      var (h', o) := SliceStep(h, es[0]);
      [o] + SliceObs(h', es[1..])
  }

  /** One bot's part of the shared map, by message id. */
  ghost function Part(seen: map<string, Seen>, bot: string): imap<string, Seen> {
    imap id | Key(bot, id) in seen :: seen[Key(bot, id)]
  }

  lemma PartOfPruned(seen: map<string, Seen>, bot: string, now: int)
    ensures Part(Pruned(seen, now), bot) ==
            imap id | id in Part(seen, bot) && !Expired(Part(seen, bot)[id], now) :: Part(seen, bot)[id]
  {
  }

  lemma PartOfOwnUpdate(seen: map<string, Seen>, bot: string, id: string, x: Seen)
    ensures Part(seen[Key(bot, id) := x], bot) == Part(seen, bot)[id := x]
    ensures Part(seen - {Key(bot, id)}, bot) == imap m | m in Part(seen, bot) && m != id :: Part(seen, bot)[m]
  {
    KeysCollideExactly(bot, bot);
  }

  lemma PartOfOtherUpdate(seen: map<string, Seen>, bot: string, other: string, id: string, x: Seen)
    requires bot != other && Apart(bot, other)
    ensures Part(seen[Key(other, id) := x], bot) == Part(seen, bot)
    ensures Part(seen - {Key(other, id)}, bot) == Part(seen, bot)
  {
    forall m
      ensures Key(bot, m) != Key(other, id)
    {
      if Key(bot, m) == Key(other, id) {
        KeyOwner(bot, other, m, id);
      }
    }
  }

  lemma PartOfErased(seen: map<string, Seen>, bot: string, stopped: string)
    requires bot == stopped || Apart(stopped, bot)
    ensures Part(Erased(seen, stopped), bot) == if bot == stopped then imap[] else Part(seen, bot)
  {
    forall m | Key(bot, m) in seen
      ensures Key(bot, m) in Erased(seen, stopped) <==> bot != stopped
      ensures bot != stopped ==> Erased(seen, stopped)[Key(bot, m)] == seen[Key(bot, m)]
    {
      StopErasesExactlyItsBot(seen, stopped, bot, m);
    }
  }

  /** A bot's part of the index agrees with its history, except for entries that were pruned,
      which the clock has made irrelevant. */
  ghost predicate PartAgrees(part: imap<string, Seen>, seen: map<string, Seen>, t: int) {
    && (forall id | id in part :: id in seen && seen[id] == part[id])
    && (forall id | id in seen && id !in part :: Expired(seen[id], t))
  }

  ghost predicate Agrees(g: Index, h: Slice, bot: string, t: int) {
    && h.active == (if bot in g.bots then Some(g.bots[bot]) else None)
    && PartAgrees(Part(g.seen, bot), h.seen, t)
    && (bot !in g.bots ==> Part(g.seen, bot) == imap[] && h.seen == map[])
  }

  function ClockAfter(e: Event, t: int): int {
    if Clocked(e) then e.now else t
  }

  /** Cleaning up changes nothing that the clock has not already settled. */
  lemma CleanupAgrees(g: Index, h: Slice, bot: string, t: int, now: int)
    requires Agrees(g, h, bot, t) && t <= now
    ensures Agrees(Cleaned(g, now), h, bot, now)
  {
    PartOfPruned(g.seen, bot, now);
  }

  lemma OwnStepAgrees(g: Index, h: Slice, bot: string, t: int, e: Event)
    requires Agrees(g, h, bot, t)
    requires e.bot == bot
    requires Clocked(e) ==> t <= e.now
    ensures IndexStep(g, e).1 == SliceStep(h, e).1
    ensures Agrees(IndexStep(g, e).0, SliceStep(h, e).0, bot, ClockAfter(e, t))
  {
    match e {
      case Admit(_, id, room, now) =>
        CleanupAgrees(g, h, bot, t, now);
        PartMembership(Cleaned(g, now).seen, bot, id);
        PartOfOwnUpdate(Cleaned(g, now).seen, bot, id, Seen(now, true));
      case Finish(_, id, ok, now) =>
        PartMembership(g.seen, bot, id);
        PartOfOwnUpdate(g.seen, bot, id, Seen(now, false));
      case Stop(_) =>
        PartOfErased(g.seen, bot, bot);
      case MarkStarted(_) =>
    }
  }

  lemma PartMembership(seen: map<string, Seen>, bot: string, id: string)
    ensures id in Part(seen, bot) <==> Key(bot, id) in seen
    ensures id in Part(seen, bot) ==> Part(seen, bot)[id] == seen[Key(bot, id)]
  {
  }

  /** Pruning aside, a step of another bot leaves a bot's part of the index alone. */
  lemma OtherStepLeavesPart(g: Index, bot: string, e: Event)
    requires e.bot != bot && Apart(e.bot, bot)
    ensures var c := if e.Admit? then Cleaned(g, e.now) else g;
            Part(IndexStep(g, e).0.seen, bot) == Part(c.seen, bot)
  {
    match e {
      case Admit(_, id, _, now) =>
        PartOfOtherUpdate(Cleaned(g, now).seen, bot, e.bot, id, Seen(now, true));
      case Finish(_, id, ok, now) =>
        PartOfOtherUpdate(g.seen, bot, e.bot, id, Seen(now, false));
      case Stop(_) =>
        PartOfErased(g.seen, bot, e.bot);
      case MarkStarted(_) =>
    }
  }

  lemma OtherStepLeavesCount(g: Index, bot: string, e: Event)
    requires e.bot != bot
    ensures var k := IndexStep(g, e).0;
            && (bot in k.bots <==> bot in g.bots)
            && (bot in g.bots ==> k.bots[bot] == g.bots[bot])
  {
  }

  lemma OtherStepAgrees(g: Index, h: Slice, bot: string, t: int, e: Event)
    requires Agrees(g, h, bot, t)
    requires e.bot != bot && Apart(e.bot, bot)
    requires Clocked(e) ==> t <= e.now
    ensures Agrees(IndexStep(g, e).0, h, bot, ClockAfter(e, t))
  {
    var c := if e.Admit? then Cleaned(g, e.now) else g;
    if e.Admit? {
      CleanupAgrees(g, h, bot, t, e.now);
    }
    assert Agrees(c, h, bot, ClockAfter(e, t));
    OtherStepLeavesPart(g, bot, e);
    OtherStepLeavesCount(g, bot, e);
  }

  lemma {:induction false} RunAgrees(g: Index, h: Slice, es: seq<Event>, bot: string, t: int)
    requires Agrees(g, h, bot, t)
    requires Timed(es, t) && PairwiseApart(es, bot)
    ensures IndexObs(g, es, bot) == SliceObs(h, Own(es, bot))
    ensures SliceRun(h, Own(es, bot)).active ==
            if bot in IndexRun(g, es).bots then Some(IndexRun(g, es).bots[bot]) else None
    decreases |es|
  {
    if es == [] {
    } else {
      var e, rest := es[0], es[1..];
      var g' := IndexStep(g, e).0;
      assert PairwiseApart(rest, bot);
      if e.bot == bot {
        OwnStepAgrees(g, h, bot, t, e);
        RunAgrees(g', SliceStep(h, e).0, rest, bot, ClockAfter(e, t));
        assert Own(es, bot) == [e] + Own(rest, bot);
        assert Own(es, bot)[1..] == Own(rest, bot);
      } else {
        OtherStepAgrees(g, h, bot, t, e);
        RunAgrees(g', h, rest, bot, ClockAfter(e, t));
        assert Own(es, bot) == Own(rest, bot);
      }
    }
  }

  /** The main result: over every run whose clock does not go back, what a bot's callers are
      told (admitted, duplicate, busy; entry released or not) is what the bot's own events
      alone, fed to the never-pruned history, would have told them. Pruning is unobservable
      and no other bot's traffic, stop or cleanup can be observed. */
  lemma PruningAndOtherBotsAreUnobservable(es: seq<Event>, bot: string, t: int)
    requires Timed(es, t) && PairwiseApart(es, bot)
    ensures IndexObs(EMPTY_INDEX, es, bot) == SliceObs(EMPTY_SLICE, Own(es, bot))
    ensures SliceRun(EMPTY_SLICE, Own(es, bot)).active ==
            if bot in IndexRun(EMPTY_INDEX, es).bots then Some(IndexRun(EMPTY_INDEX, es).bots[bot]) else None
  {
    RunAgrees(EMPTY_INDEX, EMPTY_SLICE, es, bot, t);
  }

  // ---------------------------------------------------------------- time to live

  predicate Touches(e: Event, id: string) {
    e.Stop? || (e.Admit? && e.id == id)
  }

  /** The run reaches its last event with the key of id neither stopped nor asked for. */
  predicate Untouched(es: seq<Event>, id: string) {
    forall e | e in es :: !Touches(e, id)
  }

  /** No event of any kind except an admission of the same id, or a stop, moves a settled entry. */
  lemma {:induction false} SettledEntryStays(h: Slice, es: seq<Event>, id: string, at: int)
    requires id in h.seen && h.seen[id] == Seen(at, false)
    requires Untouched(es, id)
    ensures id in SliceRun(h, es).seen && SliceRun(h, es).seen[id] == Seen(at, false)
    decreases |es|
  {
    if es == [] {
    } else {
      assert !Touches(es[0], id);
      SettledEntryStays(SliceStep(h, es[0]).0, es[1..], id, at);
    }
  }

  /** After a success recorded at time `at`, whatever else happens to the bot, the same id is
      answered Duplicate before at + TTL, and is not a duplicate from then on. Refused asks
      in between do not extend the period. */
  lemma {:induction false} SuccessHoldsKeyExactlyForTtl(h: Slice, es: seq<Event>, id: string, at: int, room: bool, now: int)
    requires id != "" && id in h.seen && h.seen[id] == Seen(at, false)
    requires forall e | e in es :: !e.Stop?
    requires forall e | e in es && e.Admit? && e.id == id :: e.now < at + SEEN_MESSAGE_TTL
    ensures id in SliceRun(h, es).seen && SliceRun(h, es).seen[id] == Seen(at, false)
    ensures SliceStep(SliceRun(h, es), Admit("", id, room, now)).1 ==
            Decided(if now < at + SEEN_MESSAGE_TTL then Duplicate else if room then Admitted else Busy)
    decreases |es|
  {
    if es == [] {
    } else {
      assert es[0] in es;
      SuccessHoldsKeyExactlyForTtl(SliceStep(h, es[0]).0, es[1..], id, at, room, now);
    }
  }

  // ---------------------------------------------------------------- stale generations

  /** finishMessage looks the bot up by id, so a turn of a stopped generation acts on its
      successor: here the stale finish releases a key the new generation still works on,
      and a third copy of the same message is admitted. */
  lemma StaleFinishReleasesTheNewGeneration(room: bool)
    ensures var h0 := SliceStep(EMPTY_SLICE, Admit("b", "x", true, 0)).0;
            var h1 := SliceStep(h0, Stop("b")).0;
            var (h2, second) := SliceStep(h1, Admit("b", "x", true, 1));
            var (h3, stale) := SliceStep(h2, Finish("b", "x", false, 2));
            && second == Decided(Admitted)
            && SliceStep(h2, Admit("b", "x", room, 3)).1 == Decided(Duplicate)
            && stale == Released(true)
            && SliceStep(h3, Admit("b", "x", true, 3)).1 == Decided(Admitted)
  {
    var h2 := SliceStep(SliceStep(SliceStep(EMPTY_SLICE, Admit("b", "x", true, 0)).0, Stop("b")).0, Admit("b", "x", true, 1)).0;
    assert h2 == Slice(Some(0), map["x" := Seen(1, true)]);
    assert SliceStep(h2, Finish("b", "x", false, 2)).0.seen == map[];
  }

  /** A finish leaves the whole shared state alone exactly when the bot is gone, or the message
      has an id that is not in progress, or it has none and nothing is active. */
  lemma FinishIsHarmlessExactlyWhen(g: Index, bot: string, id: string, ok: bool, now: int)
    ensures IndexStep(g, Finish(bot, id, ok, now)).0 == g <==>
            || bot !in g.bots
            || (id == "" && g.bots[bot] == 0)
            || (id != "" && (Key(bot, id) !in g.seen || !g.seen[Key(bot, id)].inProgress))
  {
    var h := IndexStep(g, Finish(bot, id, ok, now)).0;
    if bot in g.bots && id == "" {
      assert h.bots[bot] == Lower(g.bots[bot]);
      if g.bots[bot] == 0 {
        assert h.bots == g.bots;
      }
    } else if bot in g.bots && Key(bot, id) in g.seen && g.seen[Key(bot, id)].inProgress {
      assert Key(bot, id) !in h.seen || !h.seen[Key(bot, id)].inProgress;
    }
  }
}
