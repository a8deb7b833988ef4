// The client, the manager and whatever renderer process is alive, as one system: every message the
// client's router sends goes to the manager at once, and processes may crash at any message.
module CrashRecovery {
  import opened Prelude
  import opened OverlayIpc
  import OverlayState
  import opened ClientSession
  import ClientLoop
  import opened ClientLoopLaws
  import opened AnswerText
  import opened OverlayProcess
  import OverlayProcessLaws
  import Pipeline
  import SseStream

  type Client = ClientLoop.Client

  datatype System = System(client: Client, manager: Manager)

  // All messages of one event reach the manager at one reading of its clock.
  datatype Move = Loop(event: ClientLoop.Event, at: nat, focus: Option<string>) | Tick(at: nat)

  function OpsOf(messages: seq<Message>, at: nat, focus: Option<string>): (ops: seq<OverlayProcessLaws.Op>)
    ensures |ops| == |messages|
    ensures forall k :: 0 <= k < |ops| ==> ops[k] == OverlayProcessLaws.SendOp(messages[k], at, focus)
  {
    seq(|messages|, k requires 0 <= k < |messages| => OverlayProcessLaws.SendOp(messages[k], at, focus))
  }

  // What event `e` makes the router send.
  function Added(c: Client, e: ClientLoop.Event): seq<Message> {
    var d := ClientLoop.Step(c, e);
    if |c.router.sent| <= |d.router.sent| then d.router.sent[|c.router.sent|..] else []
  }

  function Step(s: System, move: Move, launcher: Launcher): System {
    match move
    case Loop(e, at, focus) =>
      System(ClientLoop.Step(s.client, e),
             OverlayProcessLaws.DoAll(s.manager, OpsOf(Added(s.client, e), at, focus), launcher))
    case Tick(at) => s.(manager := OverlayProcessLaws.TickSink(s.manager, at))
  }

  predicate Possible(s: System, move: Move) { move.Loop? ==> ClientLoop.Possible(s.client, move.event) }

  predicate PossibleRun(s: System, moves: seq<Move>, launcher: Launcher)
    decreases |moves|
  {
    moves == [] || (Possible(s, moves[0]) && PossibleRun(Step(s, moves[0], launcher), moves[1..], launcher))
  }

  function Run(s: System, moves: seq<Move>, launcher: Launcher): System
    decreases |moves|
  {
    if moves == [] then s else Run(Step(s, moves[0], launcher), moves[1..], launcher)
  }

  function Events(moves: seq<Move>): seq<ClientLoop.Event> {
    if moves == [] then []
    else (if moves[0].Loop? then [moves[0].event] else []) + Events(moves[1..])
  }

  lemma {:induction false} ClientRuns(s: System, moves: seq<Move>, launcher: Launcher)
    ensures Run(s, moves, launcher).client == ClientLoop.Run(s.client, Events(moves))
    decreases |moves|
  {
    if moves != [] {
      ClientRuns(Step(s, moves[0], launcher), moves[1..], launcher);
      if moves[0].Loop? {
        assert Events(moves)[1..] == Events(moves[1..]);
      } else {
        assert Events(moves) == Events(moves[1..]);
      }
    }
  }

  // ---------------------------------------------------------------- no process is ahead of an answer

  predicate ScreenBehind(s: OverlayState.Screen, id: Uuid, n: nat) {
    s.active == Some(id) && LlmAnswerDelta in s.lastSeq ==> s.lastSeq[LlmAnswerDelta] <= n
  }

  predicate UpTo(m: Message, id: Uuid, n: nat) { m.IsAnswerOf(id) ==> m.number <= n }

  // Neither the stored message nor the running process is past number `n` of `id`'s answer.
  predicate Behind(g: Manager, id: Uuid, n: nat) {
    && (g.latestMessage.Some? ==> UpTo(g.latestMessage.value, id, n))
    && (g.sink.Some? ==> ScreenBehind(g.sink.value.screen, id, n))
  }

  lemma ApplyKeepsBehind(s: OverlayState.Screen, m: Message, at: nat, id: Uuid, n: nat)
    requires ScreenBehind(s, id, n) && UpTo(m, id, n) && id != NIL
    ensures ScreenBehind(OverlayState.Apply(s, m, at).0, id, n)
  {
  }

  lemma {:induction false} TakeAllKeepsBehind(s: Sink, ms: seq<Message>, now: nat, id: Uuid, n: nat)
    requires ScreenBehind(s.screen, id, n) && id != NIL
    requires forall k :: 0 <= k < |ms| ==> UpTo(ms[k], id, n)
    ensures TakeAll(s, ms, now).Some? ==> ScreenBehind(TakeAll(s, ms, now).value.screen, id, n)
    decreases |ms|
  {
    if ms != [] {
      ApplyKeepsBehind(s.screen, ms[0], Monus(now, s.epoch), id, n);
      if Take(s, ms[0], now).Some? { TakeAllKeepsBehind(Take(s, ms[0], now).value, ms[1..], now, id, n); }
    }
  }

  lemma PrepareKeepsBehind(g: Manager, m: Message, now: nat, launcher: Launcher, id: Uuid, n: nat)
    requires Behind(g, id, n) && UpTo(m, id, n)
    ensures Behind(Prepare(g, m, now, launcher), id, n)
  {
    OverlayProcessLaws.PrepareKeepsOrMovesSink(g, m, now, launcher);
  }

  lemma BatchUpTo(g: Manager, m: Message, now: nat, id: Uuid, n: nat)
    requires OverlayProcessLaws.Inv(g) && Behind(g, id, n) && UpTo(m, id, n)
    ensures forall k :: 0 <= k < |Batch(g, m, now)| ==> UpTo(Batch(g, m, now)[k], id, n)
  {
  }

  lemma SpawnKeepsBehind(
    g: Manager, m: Message, now: nat, focus: Option<string>, launcher: Launcher, id: Uuid, n: nat)
    requires OverlayProcessLaws.Inv(g) && Behind(g, id, n) && UpTo(m, id, n) && id != NIL && g.sink.None?
    ensures Behind(SpawnAndSync(g, m, now, focus, launcher), id, n)
  {
    var h := TrySpawn(g, now, focus, launcher);
    OverlayProcessLaws.SpawnKeepsInv(g, now, focus, launcher);
    OverlayProcessLaws.SpawnFrame(g, now, focus, launcher);
    if h.sink.Some? {
      BatchUpTo(h, m, now, id, n);
      TakeAllKeepsBehind(h.sink.value, Batch(h, m, now), now, id, n);
    }
  }

  lemma DeliverKeepsBehind(
    g: Manager, m: Message, now: nat, focus: Option<string>, launcher: Launcher, id: Uuid, n: nat)
    requires OverlayProcessLaws.Inv(g) && Behind(g, id, n) && UpTo(m, id, n) && id != NIL
    ensures Behind(Deliver(g, m, now, focus, launcher), id, n)
  {
    if g.sink.None? {
      SpawnKeepsBehind(g, m, now, focus, launcher, id, n);
    } else {
      ApplyKeepsBehind(g.sink.value.screen, m, Monus(now, g.sink.value.epoch), id, n);
      SpawnKeepsBehind(WithoutSink(g), m, now, focus, launcher, id, n);
    }
  }

  lemma SendKeepsBehind(
    g: Manager, m: Message, now: nat, focus: Option<string>, launcher: Launcher, id: Uuid, n: nat)
    requires OverlayProcessLaws.Inv(g) && Behind(g, id, n) && UpTo(m, id, n) && id != NIL
    ensures Behind(Send(g, m, now, focus, launcher), id, n)
  {
    PrepareKeepsBehind(g, m, now, launcher, id, n);
    OverlayProcessLaws.PrepareKeepsInv(g, m, now, launcher);
    DeliverKeepsBehind(Prepare(g, m, now, launcher), m, now, focus, launcher, id, n);
  }

  lemma {:induction false} SendAllKeepsInv(
    g: Manager, ms: seq<Message>, at: nat, focus: Option<string>, launcher: Launcher)
    requires OverlayProcessLaws.Inv(g)
    ensures OverlayProcessLaws.Inv(OverlayProcessLaws.DoAll(g, OpsOf(ms, at, focus), launcher))
    decreases |ms|
  {
    if ms != [] {
      OverlayProcessLaws.SendKeepsInv(g, ms[0], at, focus, launcher);
      assert OpsOf(ms, at, focus)[1..] == OpsOf(ms[1..], at, focus);
      SendAllKeepsInv(Send(g, ms[0], at, focus, launcher), ms[1..], at, focus, launcher);
    }
  }

  lemma {:induction false} SendAllKeepsBehind(
    g: Manager, ms: seq<Message>, at: nat, focus: Option<string>, launcher: Launcher, id: Uuid, n: nat)
    requires OverlayProcessLaws.Inv(g) && Behind(g, id, n) && id != NIL
    requires forall k :: 0 <= k < |ms| ==> UpTo(ms[k], id, n)
    ensures Behind(OverlayProcessLaws.DoAll(g, OpsOf(ms, at, focus), launcher), id, n)
    decreases |ms|
  {
    if ms != [] {
      OverlayProcessLaws.SendKeepsInv(g, ms[0], at, focus, launcher);
      SendKeepsBehind(g, ms[0], at, focus, launcher, id, n);
      assert OpsOf(ms, at, focus)[1..] == OpsOf(ms[1..], at, focus);
      SendAllKeepsBehind(Send(g, ms[0], at, focus, launcher), ms[1..], at, focus, launcher, id, n);
    }
  }

  // ---------------------------------------------------------------- the joint invariant

  ghost predicate SystemInv(s: System) {
    && Inv(s.client) && Pipeline.RouterReady(s.client) && OverlayProcessLaws.Inv(s.manager)
    && forall id :: Pipeline.Awaited(s.client, id) ==> Behind(s.manager, id, NumberOf(s.client.llm.numbers, id))
  }

  lemma AddedIsNew(c: Client, e: ClientLoop.Event)
    requires Inv(c) && ClientLoop.Possible(c, e)
    ensures ClientLoop.Step(c, e).router.sent == c.router.sent + Added(c, e)
    ensures forall k :: 0 <= k < |Added(c, e)| ==> Pipeline.MaySend(c, e, Added(c, e)[k])
  {
    assert c.llm.inFlight.Some? ==> Current(c, c.llm.inFlight.value);
    Pipeline.StepAdds(c, e);
    var d := ClientLoop.Step(c, e);
    assert forall k :: 0 <= k < |Added(c, e)| ==> Added(c, e)[k] == d.router.sent[|c.router.sent| + k];
  }

  lemma AnswerEventIsAdded(c: Client, e: ClientLoop.Event, id: Uuid)
    requires Inv(c) && Pipeline.RouterReady(c) && (StartsAnswer(c, e, id) || ExtendsAnswer(c, e, id))
    ensures Added(c, e) == Pipeline.HintMessages(e.hint) + [Pipeline.AnswerEvent(c, e, id)]
    ensures var d := ClientLoop.Step(c, e);
            NumberOf(d.llm.numbers, id) == Pipeline.AnswerEvent(c, e, id).number == NumberOf(c.llm.numbers, id) + 1
  {
    assert Current(c, id);
    assert Pipeline.Awaited(c, id);
    Pipeline.AnswerEventIsSent(c, e, id);
    var sent, new_ := c.router.sent, Pipeline.HintMessages(e.hint) + [Pipeline.AnswerEvent(c, e, id)];
    assert ClientLoop.Step(c, e).router.sent == sent + new_;
    assert (sent + new_)[|sent|..] == new_;
  }

  lemma AddedUpTo(c: Client, e: ClientLoop.Event, id: Uuid)
    requires Inv(c) && Pipeline.RouterReady(c) && ClientLoop.Possible(c, e)
    requires Pipeline.Awaited(ClientLoop.Step(c, e), id)
    ensures Pipeline.Awaited(c, id)
    ensures var n := NumberOf(ClientLoop.Step(c, e).llm.numbers, id);
            && NumberOf(c.llm.numbers, id) <= n
            && forall k :: 0 <= k < |Added(c, e)| ==> UpTo(Added(c, e)[k], id, n)
  {
    Pipeline.AwaitedBefore(c, e, id);
    if StartsAnswer(c, e, id) || ExtendsAnswer(c, e, id) {
      AnswerEventIsAdded(c, e, id);
    } else {
      AddedIsNew(c, e);
    }
  }

  lemma LoopKeepsSystemInv(s: System, e: ClientLoop.Event, at: nat, focus: Option<string>, launcher: Launcher)
    requires SystemInv(s) && ClientLoop.Possible(s.client, e)
    ensures SystemInv(Step(s, Loop(e, at, focus), launcher))
  {
    var c, d := s.client, ClientLoop.Step(s.client, e);
    StepKeepsInv(c, e);
    Pipeline.StepKeepsRouterReady(c, e);
    SendAllKeepsInv(s.manager, Added(c, e), at, focus, launcher);
    forall id | Pipeline.Awaited(d, id)
      ensures Behind(Step(s, Loop(e, at, focus), launcher).manager, id, NumberOf(d.llm.numbers, id))
    {
      AddedUpTo(c, e, id);
      assert Behind(s.manager, id, NumberOf(d.llm.numbers, id));
      SendAllKeepsBehind(s.manager, Added(c, e), at, focus, launcher, id, NumberOf(d.llm.numbers, id));
    }
  }

  lemma MoveKeepsSystemInv(s: System, move: Move, launcher: Launcher)
    requires SystemInv(s) && Possible(s, move)
    ensures SystemInv(Step(s, move, launcher))
  {
    if move.Loop? { LoopKeepsSystemInv(s, move.event, move.at, move.focus, launcher); }
  }

  // In every run of the client, the manager and its crashing renderers.
  lemma {:induction false} RunKeepsSystemInv(s: System, moves: seq<Move>, launcher: Launcher)
    requires SystemInv(s) && PossibleRun(s, moves, launcher)
    ensures SystemInv(Run(s, moves, launcher))
    decreases |moves|
  {
    if moves != [] {
      MoveKeepsSystemInv(s, moves[0], launcher);
      RunKeepsSystemInv(Step(s, moves[0], launcher), moves[1..], launcher);
    }
  }

  // A new client, and a manager that has sent nothing yet, whatever process it has launched.
  predicate Starting(s: System) {
    && (exists copyOnly :: s.client == ClientLoop.NewClient(copyOnly))
    && OverlayProcessLaws.Inv(s.manager) && s.manager.latestMessage.None?
    && (s.manager.sink.Some? ==> s.manager.sink.value.screen == OverlayState.Fresh(s.manager.autoHideMs))
  }

  // ---------------------------------------------------------------- answers

  predicate ShowsAnswering(s: OverlayState.Screen, id: Uuid, answer: string) {
    && s.Shows(id) && s.visible.value.mode == OverlayState.Llm
    && s.visible.value.phase == OverlayState.Answering && s.visible.value.answer == answer
  }

  lemma LastSendShows(g: Manager, hint: Option<string>, m: Message, at: nat, focus: Option<string>, launcher: Launcher)
    requires OverlayProcessLaws.Inv(g) && m.InterimText? && m.producer == LlmAnswerDelta && m.session != NIL
    requires m.number > 0 && Behind(g, m.session, m.number - 1)
    ensures var h := OverlayProcessLaws.DoAll(g, OpsOf(Pipeline.HintMessages(hint) + [m], at, focus), launcher);
            h.sink.Some? ==> ShowsAnswering(h.sink.value.screen, m.session, m.text)
  {
    var hints := Pipeline.HintMessages(hint);
    var before := OverlayProcessLaws.DoAll(g, OpsOf(hints, at, focus), launcher);
    SendAllKeepsInv(g, hints, at, focus, launcher);
    SendAllKeepsBehind(g, hints, at, focus, launcher, m.session, m.number - 1);
    assert OpsOf(hints + [m], at, focus) == OpsOf(hints, at, focus) + OpsOf([m], at, focus);
    OverlayProcessLaws.DoAllConcat(g, OpsOf(hints, at, focus), OpsOf([m], at, focus), launcher);
    assert OpsOf([m], at, focus) == [OverlayProcessLaws.SendOp(m, at, focus)] + [];
    OverlayProcessLaws.OneOpMore(before, OverlayProcessLaws.SendOp(m, at, focus), [], launcher);
    if Send(before, m, at, focus, launcher).sink.Some? {
      OverlayProcessLaws.AnswerSurvivesRespawn(before, m, at, focus, launcher);
    }
  }

  // Handling a delta leaves whatever process is alive showing the whole text so far.
  lemma DeltaIsShown(s: System, e: ClientLoop.Event, at: nat, focus: Option<string>, launcher: Launcher, id: Uuid)
    requires SystemInv(s) && ExtendsAnswer(s.client, e, id)
    ensures var t := Step(s, Loop(e, at, focus), launcher);
            t.manager.sink.Some? ==>
              ShowsAnswering(t.manager.sink.value.screen, id, TextOf(s.client.llm.overlayText, id) + e.progress.delta)
  {
    var c := s.client;
    assert Current(c, id);
    assert Pipeline.Awaited(c, id);
    AnswerEventIsAdded(c, e, id);
    LastSendShows(s.manager, e.hint, Pipeline.AnswerEvent(c, e, id), at, focus, launcher);
  }

  lemma {:induction false} AnswerSoFar(started: System, moves: seq<Move>, launcher: Launcher, id: Uuid)
    requires SystemInv(started) && TextOf(started.client.llm.overlayText, id) == ""
    requires PossibleRun(started, moves, launcher) && StaysInFlight(started.client, Events(moves), id)
    ensures var t := Run(started, moves, launcher);
            && SystemInv(t) && t.client.llm.inFlight == Some(id)
            && TextOf(t.client.llm.overlayText, id) == SseStream.Concat(Heard(Events(moves), id))
  {
    RunKeepsSystemInv(started, moves, launcher);
    ClientRuns(started, moves, launcher);
    TextIsWhatWasHeard(started.client, Events(moves), id);
  }

  lemma {:induction false} NextDeltaIsShown(
    t: System, heard: seq<string>, delta: Move, launcher: Launcher, id: Uuid)
    requires SystemInv(t) && t.client.llm.inFlight == Some(id)
    requires TextOf(t.client.llm.overlayText, id) == SseStream.Concat(heard)
    requires delta.Loop? && delta.event.Answering? && delta.event.progress.Delta? && delta.event.progress.session == id
    ensures var u := Step(t, delta, launcher);
            u.manager.sink.Some? ==>
              ShowsAnswering(u.manager.sink.value.screen, id, SseStream.Concat(heard + [delta.event.progress.delta]))
  {
    DeltaIsShown(t, delta.event, delta.at, delta.focus, launcher, id);
    OneDeltaMore(heard, delta.event.progress.delta);
  }

  // In every run from the start: from the moment a query's final result is accepted, and as long
  // as its answer is in flight, each delta leaves the process that is alive after it, however many
  // crashed before, showing that session answering with all deltas so far.
  lemma {:induction false} AnswerSurvivesCrashes(
    start: System, before: seq<Move>, accept: Move, moves: seq<Move>, delta: Move, launcher: Launcher, id: Uuid,
    s: System, started: System)
    requires Starting(start) && PossibleRun(start, before, launcher) && s == Run(start, before, launcher)
    requires accept.Loop? && Possible(s, accept) && StartsAnswer(s.client, accept.event, id)
    requires started == Step(s, accept, launcher) && PossibleRun(started, moves, launcher)
    requires StaysInFlight(started.client, Events(moves), id)
    requires delta.Loop? && delta.event.Answering? && delta.event.progress.Delta? && delta.event.progress.session == id
    ensures var u := Step(Run(started, moves, launcher), delta, launcher);
            u.manager.sink.Some? ==>
              ShowsAnswering(u.manager.sink.value.screen, id,
                             SseStream.Concat(Heard(Events(moves), id) + [delta.event.progress.delta]))
  {
    StartingIsGood(start);
    RunKeepsSystemInv(start, before, launcher);
    MoveKeepsSystemInv(s, accept, launcher);
    StartsBlank(s.client, accept.event, id);
    AnswerSoFar(started, moves, launcher, id);
    NextDeltaIsShown(Run(started, moves, launcher), Heard(Events(moves), id), delta, launcher, id);
  }

  lemma OneDeltaMore(heard: seq<string>, delta: string)
    ensures SseStream.Concat(heard + [delta]) == SseStream.Concat(heard) + delta
  {
    assert (heard + [delta])[..|heard|] == heard;
  }

  lemma StartingIsGood(s: System)
    requires Starting(s)
    ensures SystemInv(s)
  {
  }

  // ---------------------------------------------------------------- the cap countdown

  // An event after which session `id` is still dictated, and which brings no end, no finalizing
  // state and no new warning of it.
  predicate DictatesOn(c: Client, e: ClientLoop.Event, id: Uuid) {
    && c.session.Active() == Some(id) && ClientLoop.Step(c, e).session.Active() == Some(id)
    && (e.Daemon? ==>
          match e.message
          case DaemonSessionEnded(about, _) => about != id
          case DaemonSessionWarning(about, _, _) => about != id
          case DaemonState(about, _, state) => about == id ==> state != OverlayState.DAEMON_STATE_FINALIZING
          case _ => true)
  }

  lemma DictationRunsOn(c: Client, e: ClientLoop.Event, id: Uuid)
    requires Inv(c) && ClientLoop.Possible(c, e) && DictatesOn(c, e, id)
    ensures forall k :: 0 <= k < |Added(c, e)| ==> OverlayProcessLaws.RunsOn(Added(c, e)[k], id)
  {
    AddedIsNew(c, e);
    assert Current(c, id);
    if StartsAnswer(c, e, id) { DaemonStep(c, e); }
    forall k | 0 <= k < |Added(c, e)|
      ensures OverlayProcessLaws.RunsOn(Added(c, e)[k], id)
    {
      MessageRunsOn(c, e, Added(c, e)[k], id);
    }
  }

  lemma MessageRunsOn(c: Client, e: ClientLoop.Event, m: Message, id: Uuid)
    requires StatesAgree(c) && id != NIL && id !in c.closedAt && Pipeline.MaySend(c, e, m)
    requires DictatesOn(c, e, id) && !StartsAnswer(c, e, id)
    ensures OverlayProcessLaws.RunsOn(m, id)
  {
  }

  lemma CountingLater(g: Manager, id: Uuid, remaining: int, since: nat, clock: nat, now: nat)
    requires OverlayProcessLaws.Counting(g, id, remaining, since, clock) && clock <= now
    ensures OverlayProcessLaws.Counting(g, id, remaining, since, now)
  {
  }

  predicate DictatesThrough(s: System, moves: seq<Move>, launcher: Launcher, id: Uuid, clock: nat)
    decreases |moves|
  {
    moves == []
    || (&& clock <= moves[0].at
        && (moves[0].Loop? ==> DictatesOn(s.client, moves[0].event, id))
        && DictatesThrough(Step(s, moves[0], launcher), moves[1..], launcher, id, moves[0].at))
  }

  function LastAt(clock: nat, moves: seq<Move>): nat
    decreases |moves|
  {
    if moves == [] then clock else LastAt(moves[0].at, moves[1..])
  }

  lemma MoveKeepsCounting(
    s: System, move: Move, launcher: Launcher, id: Uuid, remaining: int, since: nat, clock: nat)
    requires SystemInv(s) && Possible(s, move) && clock <= move.at
    requires move.Loop? ==> DictatesOn(s.client, move.event, id)
    requires OverlayProcessLaws.Counting(s.manager, id, remaining, since, clock)
    ensures OverlayProcessLaws.Counting(Step(s, move, launcher).manager, id, remaining, since, move.at)
  {
    match move
    case Loop(e, at, focus) =>
      var ops := OpsOf(Added(s.client, e), at, focus);
      DictationRunsOn(s.client, e, id);
      CountingLater(s.manager, id, remaining, since, clock, at);
      SameTime(ops, at);
      OverlayProcessLaws.CountdownSurvivesRespawns(s.manager, ops, launcher, id, remaining, since, at);
    case Tick(at) =>
      OverlayProcessLaws.TickKeepsCounting(s.manager, id, remaining, since, clock, at);
  }

  lemma {:induction false} SameTime(ops: seq<OverlayProcessLaws.Op>, at: nat)
    requires forall k :: 0 <= k < |ops| ==> ops[k].at == at
    ensures OverlayProcessLaws.InOrder(at, ops) && OverlayProcessLaws.LastAt(at, ops) == at
    decreases |ops|
  {
    if ops != [] { SameTime(ops[1..], at); }
  }

  lemma {:induction false} RunKeepsCounting(
    s: System, moves: seq<Move>, launcher: Launcher, id: Uuid, remaining: int, since: nat, clock: nat)
    requires SystemInv(s) && PossibleRun(s, moves, launcher) && DictatesThrough(s, moves, launcher, id, clock)
    requires OverlayProcessLaws.Counting(s.manager, id, remaining, since, clock)
    ensures OverlayProcessLaws.Counting(Run(s, moves, launcher).manager, id, remaining, since, LastAt(clock, moves))
    decreases |moves|
  {
    if moves != [] {
      MoveKeepsSystemInv(s, moves[0], launcher);
      MoveKeepsCounting(s, moves[0], launcher, id, remaining, since, clock);
      RunKeepsCounting(Step(s, moves[0], launcher), moves[1..], launcher, id, remaining, since, moves[0].at);
    }
  }

  // ---------------------------------------------------------------- from the first interim event on

  // Neither the stored message nor the running process is about session `id`.
  predicate Untracked(g: Manager, id: Uuid, clock: nat) {
    && SessionOf(g.latestMessage) != Some(id)
    && (g.sink.Some? ==> g.sink.value.epoch <= clock && g.sink.value.screen.active != Some(id))
  }

  lemma {:induction false} TakeAllKeepsUntracked(s: Sink, ms: seq<Message>, now: nat, id: Uuid)
    requires s.screen.active != Some(id)
    requires forall k :: 0 <= k < |ms| ==> ms[k].SessionId() != Some(id)
    ensures var t := TakeAll(s, ms, now);
            t.Some? ==> t.value.screen.active != Some(id) && t.value.epoch == s.epoch
    decreases |ms|
  {
    if ms != [] && Take(s, ms[0], now).Some? {
      ApplyKeepsUntracked(s.screen, ms[0], Monus(now, s.epoch), id);
      TakeAllKeepsUntracked(Take(s, ms[0], now).value, ms[1..], now, id);
    }
  }

  lemma ApplyKeepsUntracked(s: OverlayState.Screen, m: Message, at: nat, id: Uuid)
    requires s.active != Some(id) && m.SessionId() != Some(id)
    ensures OverlayState.Apply(s, m, at).0.active != Some(id)
  {
  }

  lemma SpawnKeepsUntracked(g: Manager, m: Message, id: Uuid, now: nat, focus: Option<string>, launcher: Launcher)
    requires OverlayProcessLaws.Inv(g) && SessionOf(g.latestMessage) != Some(id) && g.sink.None? && m.OutputHint?
    ensures Untracked(SpawnAndSync(g, m, now, focus, launcher), id, now)
  {
    var h := TrySpawn(g, now, focus, launcher);
    OverlayProcessLaws.SpawnFrame(g, now, focus, launcher);
    if h.sink.Some? {
      TakeAllKeepsUntracked(h.sink.value, Batch(h, m, now), now, id);
    }
  }

  lemma HintKeepsUntracked(
    g: Manager, m: Message, id: Uuid, clock: nat, now: nat, focus: Option<string>, launcher: Launcher)
    requires OverlayProcessLaws.Inv(g) && Untracked(g, id, clock) && clock <= now && m.OutputHint?
    ensures Untracked(Send(g, m, now, focus, launcher), id, now)
  {
    var p := Prepare(g, m, now, launcher);
    OverlayProcessLaws.PrepareKeepsInv(g, m, now, launcher);
    SpawnKeepsUntracked(if p.sink.None? then p else WithoutSink(p), m, id, now, focus, launcher);
  }

  // The event's interim event of session `id` is sent, and it is not its finalizing state.
  predicate SendsLiveInterim(c: Client, e: ClientLoop.Event, id: Uuid, m: Message) {
    && e.Daemon? && (e.message.DaemonState? || e.message.DaemonText?)
    && Added(c, e) == Pipeline.HintMessages(e.hint) + [m] && OverlayProcessLaws.LiveInterim(m, id)
  }

  lemma FirstInterimStarts(s: System, first: Move, launcher: Launcher, id: Uuid, m: Message, clock: nat)
    requires SystemInv(s) && first.Loop? && clock <= first.at && SendsLiveInterim(s.client, first.event, id, m)
    requires Untracked(s.manager, id, clock)
    ensures OverlayProcessLaws.Live(Step(s, first, launcher).manager, id, first.at)
  {
    var g, at, focus, hint := s.manager, first.at, first.focus, first.event.hint;
    var send := OverlayProcessLaws.SendOp(m, at, focus);
    if hint.None? {
      assert [] + [m] == [m];
      assert OpsOf([m], at, focus) == [send] + [];
      OverlayProcessLaws.OneOpMore(g, send, [], launcher);
      OverlayProcessLaws.FirstInterimIsLive(g, m, id, clock, at, focus, launcher);
    } else {
      var output := OutputHint(hint.value);
      var told := OverlayProcessLaws.SendOp(output, at, focus);
      var h := Send(g, output, at, focus, launcher);
      HintKeepsUntracked(g, output, id, clock, at, focus, launcher);
      OverlayProcessLaws.SendKeepsInv(g, output, at, focus, launcher);
      assert OpsOf([output] + [m], at, focus) == [told] + ([send] + []);
      OverlayProcessLaws.OneOpMore(g, told, [send] + [], launcher);
      OverlayProcessLaws.OneOpMore(h, send, [], launcher);
      OverlayProcessLaws.FirstInterimIsLive(h, m, id, at, at, focus, launcher);
    }
  }

  lemma {:induction false} SendAllKeepsLive(
    g: Manager, ms: seq<Message>, id: Uuid, at: nat, focus: Option<string>, launcher: Launcher)
    requires OverlayProcessLaws.Inv(g) && OverlayProcessLaws.Live(g, id, at)
    requires forall k :: 0 <= k < |ms| ==> OverlayProcessLaws.RunsOn(ms[k], id)
    ensures OverlayProcessLaws.Live(OverlayProcessLaws.DoAll(g, OpsOf(ms, at, focus), launcher), id, at)
    decreases |ms|
  {
    if ms != [] {
      OverlayProcessLaws.SendKeepsInv(g, ms[0], at, focus, launcher);
      OverlayProcessLaws.SendKeepsLive(g, ms[0], id, at, at, focus, launcher);
      assert OpsOf(ms, at, focus)[1..] == OpsOf(ms[1..], at, focus);
      SendAllKeepsLive(Send(g, ms[0], at, focus, launcher), ms[1..], id, at, focus, launcher);
    }
  }

  lemma MoveKeepsLive(s: System, move: Move, launcher: Launcher, id: Uuid, clock: nat)
    requires SystemInv(s) && Possible(s, move) && clock <= move.at
    requires move.Loop? ==> DictatesOn(s.client, move.event, id)
    requires OverlayProcessLaws.Live(s.manager, id, clock)
    ensures OverlayProcessLaws.Live(Step(s, move, launcher).manager, id, move.at)
  {
    if move.Loop? {
      DictationRunsOn(s.client, move.event, id);
      SendAllKeepsLive(s.manager, Added(s.client, move.event), id, move.at, move.focus, launcher);
    }
  }

  lemma {:induction false} RunKeepsLive(s: System, moves: seq<Move>, launcher: Launcher, id: Uuid, clock: nat)
    requires SystemInv(s) && PossibleRun(s, moves, launcher) && DictatesThrough(s, moves, launcher, id, clock)
    requires OverlayProcessLaws.Live(s.manager, id, clock)
    ensures OverlayProcessLaws.Live(Run(s, moves, launcher).manager, id, LastAt(clock, moves))
    decreases |moves|
  {
    if moves != [] {
      MoveKeepsSystemInv(s, moves[0], launcher);
      MoveKeepsLive(s, moves[0], launcher, id, clock);
      RunKeepsLive(Step(s, moves[0], launcher), moves[1..], launcher, id, moves[0].at);
    }
  }

  // From its first interim event on, a session that neither the manager nor its process knew is
  // what a respawn replays and what the living process shows, however many processes crash.
  lemma {:induction false} DictationStaysLive(
    s: System, first: Move, moves: seq<Move>, launcher: Launcher, id: Uuid, m: Message, clock: nat)
    requires SystemInv(s) && first.Loop? && Possible(s, first) && clock <= first.at
    requires SendsLiveInterim(s.client, first.event, id, m) && Untracked(s.manager, id, clock)
    requires PossibleRun(Step(s, first, launcher), moves, launcher)
    requires DictatesThrough(Step(s, first, launcher), moves, launcher, id, first.at)
    ensures OverlayProcessLaws.Live(
              Run(Step(s, first, launcher), moves, launcher).manager, id, LastAt(first.at, moves))
  {
    MoveKeepsSystemInv(s, first, launcher);
    FirstInterimStarts(s, first, launcher, id, m, clock);
    RunKeepsLive(Step(s, first, launcher), moves, launcher, id, first.at);
  }

  // The daemon's warning of the session it tracks starts the countdown.
  lemma WarningStarts(s: System, warning: Move, launcher: Launcher, id: Uuid, clock: nat)
    requires warning.Loop? && warning.event.Daemon? && clock <= warning.at
    requires var m := warning.event.message; m.DaemonSessionWarning? && m.session == id
    requires s.client.router.active == Some(id) && OverlayProcessLaws.Live(s.manager, id, clock)
    ensures OverlayProcessLaws.Counting(
              Step(s, warning, launcher).manager, id, warning.event.message.remainingMs, warning.at, warning.at)
  {
    var c, m, at := s.client, warning.event.message, warning.at;
    var sent := SessionWarning(id, Some(m.remainingMs), Some(m.limitMs));
    assert ClientLoop.Step(c, warning.event).router.sent == c.router.sent + [sent];
    assert (c.router.sent + [sent])[|c.router.sent|..] == [sent];
    assert OpsOf([sent], at, warning.focus) == [OverlayProcessLaws.SendOp(sent, at, warning.focus)] + [];
    OverlayProcessLaws.OneOpMore(s.manager, OverlayProcessLaws.SendOp(sent, at, warning.focus), [], launcher);
    OverlayProcessLaws.WarningStartsCountdown(
      s.manager, id, m.remainingMs, Some(m.limitMs), clock, at, warning.focus, launcher);
  }

  // In every run: from a warning on, and for as long as its session is dictated without another
  // word about its end, the process that is alive at time `t`, however many crashed before, shows
  // the remaining time of the warning less the time since it came.
  lemma {:induction false} CountdownSurvivesCrashes(
    s: System, warning: Move, moves: seq<Move>, launcher: Launcher, id: Uuid, clock: nat, t: nat)
    requires SystemInv(s) && warning.Loop? && Possible(s, warning) && warning.event.Daemon? && clock <= warning.at
    requires var m := warning.event.message; m.DaemonSessionWarning? && m.session == id
    requires s.client.router.active == Some(id) && OverlayProcessLaws.Live(s.manager, id, clock)
    requires PossibleRun(Step(s, warning, launcher), moves, launcher)
    requires DictatesThrough(Step(s, warning, launcher), moves, launcher, id, warning.at)
    requires LastAt(warning.at, moves) <= t
    ensures var g := Run(Step(s, warning, launcher), moves, launcher).manager;
            g.sink.Some? ==>
              && g.sink.value.epoch <= t && g.sink.value.screen.Shows(id)
              && g.sink.value.screen.visible.value.RemainingMs(t - g.sink.value.epoch)
                 == Some(Max(warning.event.message.remainingMs - (t - warning.at), 0))
  {
    var remaining, next := warning.event.message.remainingMs, Step(s, warning, launcher);
    MoveKeepsSystemInv(s, warning, launcher);
    WarningStarts(s, warning, launcher, id, clock);
    RunKeepsCounting(next, moves, launcher, id, remaining, warning.at, warning.at);
    var g := Run(next, moves, launcher).manager;
    if g.sink.Some? {
      OverlayProcessLaws.CountdownReadsTrue(g, id, remaining, warning.at, LastAt(warning.at, moves), t);
    }
  }
}
