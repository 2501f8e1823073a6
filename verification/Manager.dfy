/** The agent manager: sessionFor run one call at a time, as a class, and all interleavings
    of sessionFor and StopBot, as a machine. */
module Manager {
  import opened Common
  import opened Session

  /** Why sessionFor fails. */
  datatype Failure = UnknownDriver | InitFailed | CloseFailed

  datatype Result<+T> = Ok(value: T) | Err(failure: Failure)

  /** What the outside answers during one call. */
  datatype Outside = Outside(driverKnown: bool, initOk: bool, staleCloseOk: bool, newCloseOk: bool)

  // ---------------------------------------------------------------- one call at a time

  /** A session as the manager sees it; schedClosed says that its scheduler refuses tasks. */
  datatype Entry = Entry(bot: string, spec: Spec, core: Core, sink: Option<nat>, closeCalled: bool, schedClosed: bool)

  function Closed(s: Entry, ok: bool): Entry {
    s.(core := AfterCloseCall(s.core, ok), closeCalled := true, schedClosed := true)
  }

  datatype Book = Book(
    store: seq<Entry>,           // every session ever built, oldest first
    sessions: map<string, nat>,  // bot to its session's position in store
    sinks: map<string, nat>)

  predicate IsEntry(k: Book, i: nat)
    requires i < |k.store|
  {
    k.store[i].bot in k.sessions && k.sessions[k.store[i].bot] == i
  }

  predicate EntryOk(k: Book, bot: string)
    requires bot in k.sessions
  {
    var i := k.sessions[bot];
    && i < |k.store| && k.store[i].bot == bot
    && k.store[i].core.open && k.store[i].core.state != Stopped
    && (bot in k.sinks ==> k.store[i].sink == Some(k.sinks[bot]))
  }

  /** One live session per bot: the entries are open and carry the bot's sink, and every
      other session ever built has had Close called. */
  ghost predicate BookOk(k: Book) {
    && (forall b | b in k.sessions :: EntryOk(k, b))
    && (forall i: nat | i < |k.store| :: k.store[i].closeCalled || IsEntry(k, i))
    && (forall i: nat | i < |k.store| :: k.store[i].spec == CloneSpec(k.store[i].spec))
  }

  /** The bot has a session that sessionFor returns as it is. */
  predicate Reusable(k: Book, bot: string, spec: Spec) {
    && bot in k.sessions && k.sessions[bot] < |k.store|
    && k.store[k.sessions[bot]].spec == spec && k.store[k.sessions[bot]].core.state != Broken
  }

  function SinkSpec(k: Book, bot: string, sink: nat): Book {
    Book(if bot in k.sessions && k.sessions[bot] < |k.store|
         then k.store[k.sessions[bot] := k.store[k.sessions[bot]].(sink := Some(sink))] else k.store,
         k.sessions, k.sinks[bot := sink])
  }

  /** The new session, under the bot's entry and with the bot's sink. */
  function SwapSpec(k: Book, bot: string, spec: Spec): Book {
    var made := Entry(bot, CloneSpec(spec), NEW_CORE, if bot in k.sinks then Some(k.sinks[bot]) else None, false, false);
    k.(store := k.store + [made], sessions := k.sessions[bot := |k.store|])
  }

  function CloseAt(k: Book, i: nat, ok: bool): Book {
    if i < |k.store| then k.(store := k.store[i := Closed(k.store[i], ok)]) else k
  }

  function RollbackSpec(k: Book, bot: string, stale: nat, made: nat): Book {
    if bot in k.sessions && k.sessions[bot] == made then k.(sessions := k.sessions[bot := stale]) else k
  }

  function SessionForSpec(k: Book, bot: string, spec: Spec, env: Outside): (Book, Result<nat>) {
    if Reusable(k, bot, spec) then (k, Ok(k.sessions[bot]))
    else if !env.driverKnown then (k, Err(UnknownDriver))
    else if !env.initOk then (k, Err(InitFailed))
    else
      var made := |k.store|;
      var swapped := SwapSpec(k, bot, spec);
      if bot !in k.sessions then (swapped, Ok(made))
      else
        var closed := CloseAt(swapped, k.sessions[bot], env.staleCloseOk);
        if env.staleCloseOk then (closed, Ok(made))
        else (CloseAt(RollbackSpec(closed, bot, k.sessions[bot], made), made, env.newCloseOk), Err(CloseFailed))
  }

  function StopSpec(k: Book, bot: string, closeOk: bool): Book {
    if bot in k.sessions
    then CloseAt(Book(k.store, k.sessions - {bot}, k.sinks - {bot}), k.sessions[bot], closeOk)
    else k.(sinks := k.sinks - {bot})
  }

  class Manager {
    var store: seq<Entry>
    var sessions: map<string, nat>
    var sinks: map<string, nat>

    ghost function View(): Book
      reads this
    {
      Book(store, sessions, sinks)
    }

    constructor ()
      ensures View() == Book([], map[], map[])
    {
      store, sessions, sinks := [], map[], map[];
    }

    method SetPushSink(bot: string, sink: nat)
      requires BookOk(View())
      modifies this`store, this`sinks
      ensures View() == SinkSpec(old(View()), bot, sink)
    {
      sinks := sinks[bot := sink];
      if bot in sessions {
        assert EntryOk(old(View()), bot);
        store := store[sessions[bot] := store[sessions[bot]].(sink := Some(sink))];
      }
    }

    /** One call at a time. The second look at the map then finds what the first one found,
        so the case of a usable current session does not arise there. */
    method SessionFor(bot: string, spec: Spec, env: Outside) returns (r: Result<nat>)
      requires BookOk(View())
      modifies this`store, this`sessions
      ensures (View(), r) == SessionForSpec(old(View()), bot, spec, env)
    {
      ghost var before := View();
      if bot in sessions {
        assert EntryOk(before, bot);
        if store[sessions[bot]].spec == spec && store[sessions[bot]].core.state != Broken {
          return Ok(sessions[bot]);
        }
      }
      if !env.driverKnown {
        return Err(UnknownDriver);
      }
      if !env.initOk {
        return Err(InitFailed);
      }
      var replacement := |store|;
      store := store + [Entry(bot, CloneSpec(spec), NEW_CORE, None, false, false)];
      var stale := if bot in sessions then Some(sessions[bot]) else None;
      sessions := sessions[bot := replacement];
      if bot in sinks {
        store := store[replacement := store[replacement].(sink := Some(sinks[bot]))];
      }
      assert View() == SwapSpec(before, bot, spec);
      if stale.Some? {
        store := store[stale.value := Closed(store[stale.value], env.staleCloseOk)];
        if !env.staleCloseOk {
          if bot in sessions && sessions[bot] == replacement {
            sessions := sessions[bot := stale.value];
          }
          store := store[replacement := Closed(store[replacement], env.newCloseOk)];
          return Err(CloseFailed);
        }
      }
      return Ok(replacement);
    }

    method StopBot(bot: string, closeOk: bool)
      requires BookOk(View())
      modifies this
      ensures View() == StopSpec(old(View()), bot, closeOk)
    {
      var session := if bot in sessions then Some(sessions[bot]) else None;
      assert session.Some? ==> EntryOk(View(), bot);
      sessions := sessions - {bot};
      sinks := sinks - {bot};
      if session.Some? {
        store := store[session.value := Closed(store[session.value], closeOk)];
      }
    }
  }

  lemma SinkKeepsBook(k: Book, bot: string, sink: nat)
    requires BookOk(k)
    ensures BookOk(SinkSpec(k, bot, sink))
  {
    var k' := SinkSpec(k, bot, sink);
    forall b | b in k'.sessions
      ensures EntryOk(k', b)
    {
      assert EntryOk(k, b);
    }
    forall i: nat | i < |k'.store|
      ensures k'.store[i].closeCalled || IsEntry(k', i)
    {
      assert k.store[i].closeCalled || IsEntry(k, i);
    }
  }

  /** One live session per bot is kept by sessionFor, whatever the outside answers, by
      StopBot and by the registration of sinks. */
  lemma SessionForKeepsBook(k: Book, bot: string, spec: Spec, env: Outside)
    requires BookOk(k)
    ensures BookOk(SessionForSpec(k, bot, spec, env).0)
  {
    var k' := SessionForSpec(k, bot, spec, env).0;
    SessionForKeepsSpecs(k, bot, spec, env);
    forall b | b in k'.sessions
      ensures EntryOk(k', b)
    {
      SessionForKeepsEntry(k, bot, spec, env, b);
    }
    forall i: nat | i < |k'.store|
      ensures k'.store[i].closeCalled || IsEntry(k', i)
    {
      SessionForCloses(k, bot, spec, env, i);
    }
  }

  lemma SessionForKeepsSpecs(k: Book, bot: string, spec: Spec, env: Outside)
    requires BookOk(k)
    ensures var k' := SessionForSpec(k, bot, spec, env).0;
            forall i: nat | i < |k'.store| :: k'.store[i].spec == CloneSpec(k'.store[i].spec)
  {
    CloneIsFaithfulExactlyWhen(spec);
  }

  lemma SessionForKeepsEntry(k: Book, bot: string, spec: Spec, env: Outside, b: string)
    requires BookOk(k) && b in SessionForSpec(k, bot, spec, env).0.sessions
    ensures EntryOk(SessionForSpec(k, bot, spec, env).0, b)
  {
    assert bot in k.sessions ==> EntryOk(k, bot);
    assert b in k.sessions ==> EntryOk(k, b);
  }

  lemma SessionForCloses(k: Book, bot: string, spec: Spec, env: Outside, i: nat)
    requires BookOk(k) && i < |SessionForSpec(k, bot, spec, env).0.store|
    ensures var k' := SessionForSpec(k, bot, spec, env).0;
            k'.store[i].closeCalled || IsEntry(k', i)
  {
    assert bot in k.sessions ==> EntryOk(k, bot);
    assert i < |k.store| ==> k.store[i].closeCalled || IsEntry(k, i);
  }

  lemma StopKeepsBook(k: Book, bot: string, closeOk: bool)
    requires BookOk(k)
    ensures BookOk(StopSpec(k, bot, closeOk))
    ensures forall i: nat | i < |StopSpec(k, bot, closeOk).store| && StopSpec(k, bot, closeOk).store[i].bot == bot ::
              StopSpec(k, bot, closeOk).store[i].closeCalled
  {
    var k' := StopSpec(k, bot, closeOk);
    assert bot in k.sessions ==> EntryOk(k, bot);
    forall b | b in k'.sessions
      ensures EntryOk(k', b)
    {
      assert EntryOk(k, b);
    }
    forall i: nat | i < |k'.store|
      ensures k'.store[i].closeCalled || IsEntry(k', i)
      ensures k'.store[i].bot == bot ==> k'.store[i].closeCalled
    {
      assert k.store[i].closeCalled || IsEntry(k, i);
    }
  }

  /** When sessionFor succeeds, its result is the bot's entry, for this spec, open and not
      broken, with the bot's sink; every other session ever built for the bot has had Close
      called; and the result is an old session exactly if one was reusable. */
  lemma SessionForSucceeds(k: Book, bot: string, spec: Spec, env: Outside)
    requires BookOk(k) && SessionForSpec(k, bot, spec, env).1.Ok?
    ensures var (k', r) := SessionForSpec(k, bot, spec, env);
            && bot in k'.sessions && k'.sessions[bot] == r.value && r.value < |k'.store|
            && k'.store[r.value].spec == CloneSpec(spec)
            && k'.store[r.value].core.open && k'.store[r.value].core.state != Broken
            && (bot in k.sinks ==> k'.store[r.value].sink == Some(k.sinks[bot]))
            && (forall i: nat | i < |k'.store| && k'.store[i].bot == bot && i != r.value :: k'.store[i].closeCalled)
            && (r.value < |k.store| <==> Reusable(k, bot, spec))
  {
    SessionForKeepsBook(k, bot, spec, env);
    var (k', r) := SessionForSpec(k, bot, spec, env);
    assert EntryOk(k', bot);
    forall i: nat | i < |k'.store| && k'.store[i].bot == bot && i != r.value
      ensures k'.store[i].closeCalled
    {
      assert k'.store[i].closeCalled || IsEntry(k', i);
    }
  }

  /** A session is found again by the next call with the same spec, unless the arguments are
      empty but not nil: then every call builds another session and closes the last one. */
  lemma SessionIsFoundAgainExactlyWhen(k: Book, bot: string, spec: Spec, env: Outside, env': Outside)
    requires BookOk(k) && SessionForSpec(k, bot, spec, env).1.Ok?
    ensures var (k', r) := SessionForSpec(k, bot, spec, env);
            var again := SessionForSpec(k', bot, spec, env');
            && (Reusable(k', bot, spec) <==> spec.args != Some([]))
            && (spec.args != Some([]) ==> again == (k', r))
            && (spec.args == Some([]) ==> again.1 != r)
            && (spec.args == Some([]) && again.1.Ok? ==> again.0.store[r.value].closeCalled)
  {
    SessionForSucceeds(k, bot, spec, env);
    CloneIsFaithfulExactlyWhen(spec);
    var k' := SessionForSpec(k, bot, spec, env).0;
    SessionForKeepsBook(k, bot, spec, env);
    if SessionForSpec(k', bot, spec, env').1.Ok? {
      SessionForSucceeds(k', bot, spec, env');
    }
  }

  /** When sessionFor fails, the map is what it was, and anything built on the way has had
      Close called. It fails for the sake of the stale session exactly when that one had to
      be replaced and its Close failed; then it is back in the map, still open, but with
      its scheduler closed. */
  lemma SessionForFails(k: Book, bot: string, spec: Spec, env: Outside)
    requires BookOk(k)
    ensures var (k', r) := SessionForSpec(k, bot, spec, env);
            && (r.Err? ==> k'.sessions == k.sessions && k'.sinks == k.sinks)
            && (r.Err? ==> forall i: nat | |k.store| <= i < |k'.store| :: k'.store[i].closeCalled)
            && (r == Err(CloseFailed) <==>
                !Reusable(k, bot, spec) && env.driverKnown && env.initOk && bot in k.sessions && !env.staleCloseOk)
            && (r == Err(CloseFailed) ==> k'.store[k.sessions[bot]].core.open && k'.store[k.sessions[bot]].schedClosed)
  {
    assert bot in k.sessions ==> EntryOk(k, bot);
    assert k.sessions == if bot in k.sessions then k.sessions[bot := |k.store|][bot := k.sessions[bot]] else k.sessions;
  }

  /** A call for one bot changes nothing of another bot's. */
  lemma SessionForLeavesOthers(k: Book, bot: string, spec: Spec, env: Outside, other: string)
    requires BookOk(k) && other != bot
    ensures var k' := SessionForSpec(k, bot, spec, env).0;
            && (other in k'.sessions <==> other in k.sessions)
            && (other in k.sessions ==> k'.sessions[other] == k.sessions[other])
            && |k.store| <= |k'.store|
            && (forall i: nat | i < |k.store| && k.store[i].bot == other :: k'.store[i] == k.store[i])
  {
    assert bot in k.sessions ==> EntryOk(k, bot);
  }

  // ---------------------------------------------------------------- what callers see

  /** A bot's session as callers know it: what it was made for, whether it can be reused, and
      where its scheduled answers go. */
  datatype Live = Live(spec: Spec, broken: bool, sink: Option<nat>)

  datatype Registry = Registry(live: map<string, Live>, sinks: map<string, nat>)

  datatype Request =
    | Ensure(bot: string, spec: Spec, env: Outside)
    | Turn(bot: string, ok: bool)
    | Register(bot: string, sink: nat)
    | Stop(bot: string, closeOk: bool)

  /** The simple machine: at most one session per bot, and a call that fails does nothing. */
  function Expected(r: Registry, q: Request): Registry {
    match q
    case Ensure(bot, spec, env) =>
      if bot in r.live && r.live[bot].spec == spec && !r.live[bot].broken then r
      else if !env.driverKnown || !env.initOk || (bot in r.live && !env.staleCloseOk) then r
      else
        var sink := if bot in r.sinks then Some(r.sinks[bot]) else None;
        r.(live := r.live[bot := Live(CloneSpec(spec), false, sink)])
    case Turn(bot, ok) =>
      if bot in r.live then r.(live := r.live[bot := r.live[bot].(broken := !ok)]) else r
    case Register(bot, sink) =>
      Registry(if bot in r.live then r.live[bot := r.live[bot].(sink := Some(sink))] else r.live, r.sinks[bot := sink])
    case Stop(bot, _) => Registry(r.live - {bot}, r.sinks - {bot})
  }

  /** A turn on the bot's session, run by Send after sessionFor. */
  function TurnSpec(k: Book, bot: string, ok: bool): Book {
    if bot in k.sessions && k.sessions[bot] < |k.store|
    then
      var s := k.store[k.sessions[bot]];
      k.(store := k.store[k.sessions[bot] := s.(core := AfterRun(s.core, ok))])
    else k
  }

  function Serve(k: Book, q: Request): Book {
    match q
    case Ensure(bot, spec, env) => SessionForSpec(k, bot, spec, env).0
    case Turn(bot, ok) => TurnSpec(k, bot, ok)
    case Register(bot, sink) => SinkSpec(k, bot, sink)
    case Stop(bot, closeOk) => StopSpec(k, bot, closeOk)
  }

  function LiveAt(k: Book, bot: string): Live
    requires bot in k.sessions && k.sessions[bot] < |k.store|
  {
    var s := k.store[k.sessions[bot]];
    Live(s.spec, s.core.state == Broken, s.sink)
  }

  function RegistryOf(k: Book): Registry {
    Registry(map b | b in k.sessions && k.sessions[b] < |k.store| :: LiveAt(k, b), k.sinks)
  }

  lemma TurnKeepsBook(k: Book, bot: string, ok: bool)
    requires BookOk(k)
    ensures BookOk(TurnSpec(k, bot, ok))
  {
    var k' := TurnSpec(k, bot, ok);
    forall b | b in k'.sessions
      ensures EntryOk(k', b)
    {
      assert EntryOk(k, b);
    }
    forall i: nat | i < |k'.store|
      ensures k'.store[i].closeCalled || IsEntry(k', i)
    {
      assert k.store[i].closeCalled || IsEntry(k, i);
    }
  }

  lemma ServeKeepsBook(k: Book, q: Request)
    requires BookOk(k)
    ensures BookOk(Serve(k, q))
  {
    match q {
      case Ensure(bot, spec, env) => SessionForKeepsBook(k, bot, spec, env);
      case Turn(bot, ok) => TurnKeepsBook(k, bot, ok);
      case Register(bot, sink) => SinkKeepsBook(k, bot, sink);
      case Stop(bot, closeOk) => StopKeepsBook(k, bot, closeOk);
    }
  }

  /** The bots of a book are the bots of its registry. */
  lemma RegistryBots(k: Book)
    requires BookOk(k)
    ensures RegistryOf(k).live.Keys == k.sessions.Keys
    ensures forall b | b in k.sessions :: b in RegistryOf(k).live && k.sessions[b] < |k.store| && RegistryOf(k).live[b] == LiveAt(k, b)
  {
    forall b | b in k.sessions
      ensures k.sessions[b] < |k.store|
    {
      assert EntryOk(k, b);
    }
  }

  /** At bot b the book is what r says. */
  ghost predicate AgreesAt(k: Book, r: Registry, b: string) {
    && (b in k.sessions <==> b in r.live)
    && (b in k.sessions ==> k.sessions[b] < |k.store| && LiveAt(k, b) == r.live[b])
  }

  lemma EnsureAt(k: Book, bot: string, spec: Spec, env: Outside)
    requires BookOk(k)
    ensures AgreesAt(SessionForSpec(k, bot, spec, env).0, Expected(RegistryOf(k), Ensure(bot, spec, env)), bot)
  {
    RegistryBots(k);
    assert bot in k.sessions ==> EntryOk(k, bot);
  }

  lemma EnsureElsewhere(k: Book, bot: string, spec: Spec, env: Outside, b: string)
    requires BookOk(k) && b != bot
    ensures AgreesAt(SessionForSpec(k, bot, spec, env).0, Expected(RegistryOf(k), Ensure(bot, spec, env)), b)
  {
    RegistryBots(k);
    SessionForLeavesOthers(k, bot, spec, env, b);
    assert b in k.sessions ==> EntryOk(k, b);
  }

  lemma TurnAt(k: Book, bot: string, ok: bool, b: string)
    requires BookOk(k)
    ensures AgreesAt(TurnSpec(k, bot, ok), Expected(RegistryOf(k), Turn(bot, ok)), b)
  {
    RegistryBots(k);
    assert bot in k.sessions ==> EntryOk(k, bot);
    assert b in k.sessions ==> EntryOk(k, b);
  }

  lemma RegisterAt(k: Book, bot: string, sink: nat, b: string)
    requires BookOk(k)
    ensures AgreesAt(SinkSpec(k, bot, sink), Expected(RegistryOf(k), Register(bot, sink)), b)
  {
    RegistryBots(k);
    assert bot in k.sessions ==> EntryOk(k, bot);
    assert b in k.sessions ==> EntryOk(k, b);
  }

  lemma StopAt(k: Book, bot: string, closeOk: bool, b: string)
    requires BookOk(k)
    ensures AgreesAt(StopSpec(k, bot, closeOk), Expected(RegistryOf(k), Stop(bot, closeOk)), b)
  {
    RegistryBots(k);
    assert bot in k.sessions ==> EntryOk(k, bot);
    assert b in k.sessions ==> EntryOk(k, b);
  }

  /** One request, seen at one bot. */
  lemma ServeAt(k: Book, q: Request, b: string)
    requires BookOk(k)
    ensures AgreesAt(Serve(k, q), Expected(RegistryOf(k), q), b)
  {
    match q {
      case Ensure(bot, spec, env) =>
        if b == bot {
          EnsureAt(k, bot, spec, env);
        } else {
          EnsureElsewhere(k, bot, spec, env, b);
        }
      case Turn(bot, ok) => TurnAt(k, bot, ok, b);
      case Register(bot, sink) => RegisterAt(k, bot, sink, b);
      case Stop(bot, closeOk) => StopAt(k, bot, closeOk, b);
    }
  }

  lemma SinksAgree(k: Book, q: Request)
    ensures Serve(k, q).sinks == Expected(RegistryOf(k), q).sinks
  {
  }

  lemma SameRegistry(k: Book, r: Registry)
    requires k.sinks == r.sinks && forall b: string :: AgreesAt(k, r, b)
    ensures RegistryOf(k) == r
  {
    forall b: string
      ensures b in RegistryOf(k).live <==> b in r.live
      ensures b in r.live ==> RegistryOf(k).live[b] == r.live[b]
    {
      assert AgreesAt(k, r, b);
    }
    assert RegistryOf(k).live == r.live;
  }

  lemma ServeRefines(k: Book, q: Request)
    requires BookOk(k)
    ensures BookOk(Serve(k, q)) && RegistryOf(Serve(k, q)) == Expected(RegistryOf(k), q)
  {
    ServeKeepsBook(k, q);
    SinksAgree(k, q);
    forall b: string
      ensures AgreesAt(Serve(k, q), Expected(RegistryOf(k), q), b)
    {
      ServeAt(k, q, b);
    }
    SameRegistry(Serve(k, q), Expected(RegistryOf(k), q));
  }

  function ServeAll(k: Book, qs: seq<Request>): Book
    decreases |qs|
  {
    if qs == [] then k else ServeAll(Serve(k, qs[0]), qs[1..])
  }

  function ExpectedAll(r: Registry, qs: seq<Request>): Registry
    decreases |qs|
  {
    if qs == [] then r else ExpectedAll(Expected(r, qs[0]), qs[1..])
  }

  lemma {:induction false} RunRefines(k: Book, qs: seq<Request>)
    requires BookOk(k)
    ensures BookOk(ServeAll(k, qs)) && RegistryOf(ServeAll(k, qs)) == ExpectedAll(RegistryOf(k), qs)
    decreases |qs|
  {
    if qs == [] {
    } else {
      ServeRefines(k, qs[0]);
      RunRefines(Serve(k, qs[0]), qs[1..]);
    }
  }

  /** The manager, called by one caller at a time, refines the machine with one live session
      per bot: over any history of requests, the sessions in the map are the ones that machine
      has, with the same spec, health and sink, and every other session ever built has had
      Close called. In particular a replacement that has to be rolled back leaves no trace. */
  lemma OneLiveSessionPerBot(qs: seq<Request>)
    ensures var k := ServeAll(Book([], map[], map[]), qs);
            && RegistryOf(k) == ExpectedAll(Registry(map[], map[]), qs)
            && (forall b | b in k.sessions ::
                  k.sessions[b] < |k.store| && k.store[k.sessions[b]].bot == b && k.store[k.sessions[b]].core.open)
            && (forall i: nat | i < |k.store| :: k.store[i].closeCalled || IsEntry(k, i))
  {
    var none := Book([], map[], map[]);
    assert RegistryOf(none) == Registry(map[], map[]);
    RunRefines(none, qs);
    var k := ServeAll(none, qs);
    forall b | b in k.sessions
      ensures k.sessions[b] < |k.store| && k.store[k.sessions[b]].bot == b && k.store[k.sessions[b]].core.open
    {
      assert EntryOk(k, b);
    }
  }

  // ---------------------------------------------------------------- all interleavings

  /** Where one call is. Sessions are numbered in the order they were built. */
  datatype Call =
    | NoCall
    | Holding(bot: string, made: nat)                       // built, not yet in the map
    | Swapped(bot: string, made: nat, stale: nat)           // stale replaced, Close not called yet
    | RollingBack(bot: string, made: nat, stale: nat)       // stale's Close failed
    | Discarding(made: nat)                                 // about to call Close on the new one
    | Stopping(session: nat)                               // StopBot, about to call Close

  datatype World = World(
    sessions: map<string, nat>,
    owners: seq<string>,       // the bot each session was built for
    closeCalled: set<nat>,
    calls: map<nat, Call>)

  const NEW_WORLD := World(map[], [], {}, map[])

  datatype Step =
    | Build(c: nat, bot: string)        // NewSession succeeded
    | KeepCurrent(c: nat)               // the second look found a usable session
    | Swap(c: nat)
    | CloseStale(c: nat, ok: bool)
    | Restore(c: nat)
    | CloseNew(c: nat)
    | TakeForStop(c: nat, bot: string)
    | CloseStopped(c: nat)

  function CallOf(w: World, c: nat): Call {
    if c in w.calls then w.calls[c] else NoCall
  }

  predicate Enabled(w: World, e: Step) {
    match e
    case Build(c, _) => CallOf(w, c).NoCall?
    case KeepCurrent(c) => CallOf(w, c).Holding? && CallOf(w, c).bot in w.sessions
    case Swap(c) => CallOf(w, c).Holding?
    case CloseStale(c, _) => CallOf(w, c).Swapped?
    case Restore(c) => CallOf(w, c).RollingBack?
    case CloseNew(c) => CallOf(w, c).Discarding?
    case TakeForStop(c, bot) => CallOf(w, c).NoCall? && bot in w.sessions
    case CloseStopped(c) => CallOf(w, c).Stopping?
  }

  function Apply(w: World, e: Step): World
    requires Enabled(w, e)
  {
    match e
    case Build(c, bot) => w.(owners := w.owners + [bot], calls := w.calls[c := Holding(bot, |w.owners|)])
    case KeepCurrent(c) => w.(calls := w.calls[c := Discarding(w.calls[c].made)])
    case Swap(c) =>
      var Holding(bot, made) := w.calls[c];
      w.(sessions := w.sessions[bot := made],
         calls := w.calls[c := if bot in w.sessions then Swapped(bot, made, w.sessions[bot]) else NoCall])
    case CloseStale(c, ok) =>
      var Swapped(bot, made, stale) := w.calls[c];
      w.(closeCalled := w.closeCalled + {stale},
         calls := w.calls[c := if ok then NoCall else RollingBack(bot, made, stale)])
    case Restore(c) =>
      var RollingBack(bot, made, stale) := w.calls[c];
      w.(sessions := if bot in w.sessions && w.sessions[bot] == made then w.sessions[bot := stale] else w.sessions,
         calls := w.calls[c := Discarding(made)])
    case CloseNew(c) => w.(closeCalled := w.closeCalled + {w.calls[c].made}, calls := w.calls[c := NoCall])
    case TakeForStop(c, bot) =>
      w.(sessions := w.sessions - {bot}, calls := w.calls[c := Stopping(w.sessions[bot])])
    case CloseStopped(c) => w.(closeCalled := w.closeCalled + {w.calls[c].session}, calls := w.calls[c := NoCall])
  }

  ghost predicate Reaches(w: World, es: seq<Step>, v: World)
    decreases |es|
  {
    if es == [] then w == v else Enabled(w, es[0]) && Reaches(Apply(w, es[0]), es[1..], v)
  }

  /** The call will still call Close on session s. */
  predicate WillClose(p: Call, s: nat) {
    match p
    case NoCall => false
    case Holding(_, n) => n == s
    case Swapped(_, _, stale) => stale == s
    case RollingBack(_, n, _) => n == s
    case Discarding(n) => n == s
    case Stopping(n) => n == s
  }

  predicate CallOk(w: World, p: Call) {
    match p
    case NoCall => true
    case Holding(bot, n) => n < |w.owners| && w.owners[n] == bot
    case Swapped(bot, n, stale) => n < |w.owners| && w.owners[n] == bot && stale < |w.owners| && w.owners[stale] == bot
    case RollingBack(bot, n, stale) => n < |w.owners| && w.owners[n] == bot && stale < |w.owners| && w.owners[stale] == bot
    case Discarding(n) => n < |w.owners|
    case Stopping(n) => n < |w.owners|
  }

  predicate Mapped(w: World, s: nat) {
    s < |w.owners| && w.owners[s] in w.sessions && w.sessions[w.owners[s]] == s
  }

  ghost predicate Kept(w: World, s: nat) {
    Mapped(w, s) || s in w.closeCalled || exists c: nat :: WillClose(CallOf(w, c), s)
  }

  ghost predicate Inv(w: World) {
    && (forall b | b in w.sessions :: w.sessions[b] < |w.owners| && w.owners[w.sessions[b]] == b)
    && (forall c: nat :: CallOk(w, CallOf(w, c)))
    && (forall s: nat | s < |w.owners| :: Kept(w, s))
  }

  lemma SameCall(w: World, v: World, c: nat, d: nat)
    requires c != d && v.calls == w.calls[c := CallOf(v, c)]
    ensures CallOf(v, d) == CallOf(w, d)
  {
  }

  lemma InvStep(w: World, e: Step)
    requires Inv(w) && Enabled(w, e)
    ensures Inv(Apply(w, e))
  {
    var v := Apply(w, e);
    assert CallOk(w, CallOf(w, e.c));
    forall c: nat
      ensures CallOk(v, CallOf(v, c))
    {
      assert CallOk(w, CallOf(w, c));
    }
    forall s: nat | s < |v.owners|
      ensures Kept(v, s)
    {
      KeptStep(w, e, s);
    }
  }

  /** The step hands every session on to the map, to a call, or to Close. */
  lemma KeptStep(w: World, e: Step, s: nat)
    requires Inv(w) && Enabled(w, e)
    requires s < |Apply(w, e).owners|
    ensures Kept(Apply(w, e), s)
  {
    var v := Apply(w, e);
    assert CallOk(w, CallOf(w, e.c));
    if s == |w.owners| {
      assert WillClose(CallOf(v, e.c), s);
    } else {
      assert Kept(w, s);
      if Mapped(w, s) {
        assert Mapped(v, s) || WillClose(CallOf(v, e.c), s);
      } else if s !in w.closeCalled {
        var c: nat :| WillClose(CallOf(w, c), s);
        if c != e.c {
          assert CallOf(v, c) == CallOf(w, c);
        } else {
          assert Mapped(v, s) || s in v.closeCalled || WillClose(CallOf(v, c), s);
        }
      }
    }
  }

  lemma {:induction false} InvRun(w: World, es: seq<Step>, v: World)
    requires Inv(w) && Reaches(w, es, v)
    ensures Inv(v)
    decreases |es|
  {
    if es == [] {
    } else {
      InvStep(w, es[0]);
      InvRun(Apply(w, es[0]), es[1..], v);
    }
  }

  /** No session is leaked: under any interleaving every session ever built is in the map
      under its own bot, or some unfinished call still owes it a Close, or Close has been
      called; so once all calls have returned, whatever is not in the map has had Close
      called. No session is in the map under two bots. */
  lemma NoSessionIsLeaked(es: seq<Step>, w: World)
    requires Reaches(NEW_WORLD, es, w)
    ensures forall s: nat | s < |w.owners| :: Kept(w, s)
    ensures (forall c: nat :: CallOf(w, c).NoCall?) ==> forall s: nat | s < |w.owners| :: Mapped(w, s) || s in w.closeCalled
    ensures forall a, b | a in w.sessions && b in w.sessions && w.sessions[a] == w.sessions[b] :: a == b
  {
    InvRun(NEW_WORLD, es, w);
    if forall c: nat :: CallOf(w, c).NoCall? {
      forall s: nat | s < |w.owners|
        ensures Mapped(w, s) || s in w.closeCalled
      {
        assert Kept(w, s);
      }
    }
  }
}
