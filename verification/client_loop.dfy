// The client's event loop: one event at a time, over the session, LLM and routing state.
module ClientLoop {
  import opened Prelude
  import opened OverlayIpc
  import opened OverlayRouting
  import opened ClientSession

  datatype Origin = RawFinalResult | LlmAnswer

  // An attempt to hand text to the injector; `queued` tells whether the queue took it, `epoch`
  // how many connections had been lost by then.
  datatype Job = Job(session: Uuid, text: string, origin: Origin, queued: bool, epoch: nat)

  datatype WireMessage = StartSession(session: Uuid) | StopSession(session: Uuid)

  datatype Start = Start(intent: Intent, epoch: nat)

  // What one arm of the loop reacts to. Sends, queueing and focus are oracles inside the event.
  datatype Event =
    | HotkeyDown(intent: Intent, newId: Uuid, delivered: bool, hint: Option<string>)
    | HotkeyUp(delivered: bool)
    | Daemon(message: ServerMessage, hint: Option<string>, queued: bool)
    | ConnectionLost
    | Report(session: Uuid, success: bool)
    | Answering(progress: Progress, hint: Option<string>, queued: bool)

  // `jobs` and `wire` are the attempts made so far. The last three fields only remember history:
  // the sessions started, the connections lost, and where in `router.sent` a session was closed.
  datatype Client = Client(
    session: Session,
    llm: Llm,
    router: Router,
    jobs: seq<Job>,
    wire: seq<WireMessage>,
    copyOnly: bool,
    started: map<Uuid, Start>,
    drops: nat,
    closedAt: map<Uuid, nat>)

  function NewClient(copyOnly: bool): Client {
    Client(NoSession, IdleLlm(0), NewRouter(), [], [], copyOnly, map[], 0, map[])
  }

  // A fresh identifier is not nil and was not generated by this client before; only jobs that
  // the queue took are reported on.
  predicate Possible(c: Client, e: Event) {
    match e
    case HotkeyDown(_, newId, _, _) => newId != NIL && newId !in c.started
    case Report(id, _) => exists k :: 0 <= k < |c.jobs| && c.jobs[k].session == id && c.jobs[k].queued
    case _ => true
  }

  function Enqueue(c: Client, id: Uuid, text: string, origin: Origin, queued: bool): Client {
    c.(jobs := c.jobs + [Job(id, text, origin, queued, c.drops)])
  }

  function Drop(c: Client): Client {
    c.(session := NoSession, llm := IdleLlm(c.llm.busyNumber), drops := c.drops + 1)
  }

  function RejectBusy(c: Client, hint: Option<string>): Client {
    var number := c.llm.busyNumber + 1;
    var r := RouteInterim(c.router, None, InterimState(NIL, LlmAnswerDelta, number, BUSY_TEXT), hint);
    c.(llm := c.llm.(busyNumber := number), router := RouteSessionEnded(r, None, NIL, Some("busy")))
  }

  function Down(c: Client, intent: Intent, newId: Uuid, delivered: bool, hint: Option<string>): Client {
    if c.llm.busy then RejectBusy(c, hint)
    else if !c.session.ptt.Idle? then c
    else
      var begun := c.(session := Session(Listening(newId), Some(intent)),
                      wire := c.wire + [StartSession(newId)],
                      started := c.started[newId := Start(intent, c.drops)]);
      if delivered then begun else Drop(begun)
  }

  function Up(c: Client, delivered: bool): Client {
    if !c.session.ptt.Listening? then c
    else
      var id := c.session.ptt.session;
      var stopped := c.(session := Session(WaitingResult(id), c.session.intent), wire := c.wire + [StopSession(id)]);
      if delivered then stopped else Drop(stopped)
  }

  function Close(c: Client, id: Uuid): Client {
    c.(closedAt := c.closedAt[id := |c.router.sent|])
  }

  function AcceptFinalResult(c: Client, id: Uuid, text: string, queued: bool): Client {
    if c.session.Active() != Some(id) then c
    else Enqueue(Close(c, id), id, text, RawFinalResult, queued).(session := NoSession)
  }

  // Daemon messages the LLM runtime does not keep for itself.
  function Dispatch(c: Client, m: ServerMessage, hint: Option<string>, queued: bool): Client {
    var active := c.session.Active();
    match m
    case SessionStarted(id) => c.(router := NoteSessionStarted(c.router, id))
    case FinalResult(id, text) => AcceptFinalResult(c, id, text, queued)
    case Error(_) => c.(session := NoSession)
    case DaemonState(id, number, state) =>
      c.(router := RouteDaemonInterim(c.router, active, InterimState(id, DaemonSttInterim, number, state), hint))
    case DaemonText(id, number, text) =>
      c.(router := RouteDaemonInterim(c.router, active, InterimText(id, DaemonSttInterim, number, text), hint))
    case DaemonAudioLevel(id) => c.(router := RouteAudioLevel(c.router, active, id))
    case DaemonSessionEnded(id, reason) => c.(router := RouteSessionEnded(c.router, active, id, reason))
    case DaemonSessionWarning(id, remainingMs, limitMs) =>
      c.(router := RouteSessionWarning(c.router, id, remainingMs, limitMs))
    case Status => c
  }

  function Receive(c: Client, m: ServerMessage, hint: Option<string>, queued: bool): Client {
    var (llm, session, action) := OnDaemon(c.llm, c.session, m);
    var d := c.(llm := llm, session := session);
    match action
    case PassThrough(m') => Dispatch(d, m', hint, queued)
    case RouteAnswerState(id, number, state) =>
      d.(router := RouteInterim(d.router, None, InterimState(id, LlmAnswerDelta, number, state), hint))
    case _ => d
  }

  function Progressed(c: Client, p: Progress, hint: Option<string>, queued: bool): Client {
    var (llm, action) := OnProgress(c.llm, p);
    var d := c.(llm := llm);
    match action
    case RouteAnswerDelta(id, number, text) =>
      d.(router := RouteInterim(d.router, None, InterimText(id, LlmAnswerDelta, number, text), hint))
    case CompleteAnswer(id, reason, text) =>
      var closed := Close(d, id);
      Enqueue(closed.(router := RouteSessionEnded(closed.router, None, id, reason)), id, text, LlmAnswer, queued)
    case _ => d
  }

  function Step(c: Client, e: Event): Client {
    match e
    case HotkeyDown(intent, newId, delivered, hint) => Down(c, intent, newId, delivered, hint)
    case HotkeyUp(delivered) => Up(c, delivered)
    case Daemon(m, hint, queued) => Receive(c, m, hint, queued)
    case ConnectionLost => Drop(c)
    case Report(id, success) => c.(router := RouteInjectionComplete(c.router, id, success, c.copyOnly))
    case Answering(p, hint, queued) => Progressed(c, p, hint, queued)
  }

  // The loop body over the mutable runtimes.
  class ClientEventLoop {
    const runtime: ClientSessionRuntime
    const llm: ClientLlmQueryRuntime
    const router: OverlayRouter
    const copyOnly: bool
    var jobs: seq<Job>
    var wire: seq<WireMessage>
    ghost var started: map<Uuid, Start>
    var drops: nat
    ghost var closedAt: map<Uuid, nat>

    ghost function State(): Client
      reads this, runtime, llm, router
    {
      Client(runtime.State(), llm.State(), router.State(), jobs, wire, copyOnly, started, drops, closedAt)
    }

    constructor (copyOnly: bool)
      ensures State() == NewClient(copyOnly)
      ensures fresh(runtime) && fresh(llm) && fresh(router)
    {
      runtime := new ClientSessionRuntime();
      llm := new ClientLlmQueryRuntime();
      router := new OverlayRouter();
      this.copyOnly := copyOnly;
      jobs, wire := [], [];
      started, drops, closedAt := map[], 0, map[];
    }

    method OnConnectionLost()
      modifies this, runtime, llm, router
      ensures State() == Drop(old(State()))
    {
      runtime.Reset();
      llm.HandleConnectionDrop();
      drops := drops + 1;
    }

    method OnHotkeyDown(intent: Intent, newId: Uuid, delivered: bool, hint: Option<string>)
      modifies this, runtime, llm, router
      ensures State() == Down(old(State()), intent, newId, delivered, hint)
    {
      if llm.busy {
        var action := llm.HandleBusyRejection();
        router.Interim(None, InterimState(action.session, LlmAnswerDelta, action.number, action.state), hint);
        router.Ended(None, action.session, Some("busy"));
        return;
      }
      var begun := runtime.BeginListening(intent, newId);
      if begun.Some? {
        wire := wire + [StartSession(begun.value)];
        started := started[begun.value := Start(intent, drops)];
        if !delivered {
          OnConnectionLost();
        }
      }
    }

    method OnHotkeyUp(delivered: bool)
      modifies this, runtime, llm, router
      ensures State() == Up(old(State()), delivered)
    {
      var stopped := runtime.StopListening();
      if stopped.Some? {
        wire := wire + [StopSession(stopped.value)];
        if !delivered {
          OnConnectionLost();
        }
      }
    }

    method OnDaemonMessage(message: ServerMessage, hint: Option<string>, queued: bool)
      modifies this, runtime, llm, router
      ensures State() == Receive(old(State()), message, hint, queued)
    {
      var action := llm.HandleDaemonMessage(message, runtime);
      match action {
        case PassThrough(known) =>
          HandleServerMessage(known, hint, queued);
        case RouteAnswerState(id, number, state) =>
          router.Interim(None, InterimState(id, LlmAnswerDelta, number, state), hint);
        case _ =>
      }
    }

    method HandleServerMessage(message: ServerMessage, hint: Option<string>, queued: bool)
      modifies this, runtime, llm, router
      ensures State() == Dispatch(old(State()), message, hint, queued)
    {
      match message
      case SessionStarted(id) =>
        router.SessionStarted(id);
      case FinalResult(id, text) =>
        if runtime.ActiveSessionId() != Some(id) {
          return;
        }
        closedAt := closedAt[id := |router.sink|];
        runtime.Reset();
        jobs := jobs + [Job(id, text, RawFinalResult, queued, drops)];
      case Error(_) =>
        runtime.Reset();
      case DaemonState(id, number, state) =>
        router.DaemonInterim(runtime.ActiveSessionId(), InterimState(id, DaemonSttInterim, number, state), hint);
      case DaemonText(id, number, text) =>
        router.DaemonInterim(runtime.ActiveSessionId(), InterimText(id, DaemonSttInterim, number, text), hint);
      case DaemonAudioLevel(id) =>
        router.Level(runtime.ActiveSessionId(), id);
      case DaemonSessionEnded(id, reason) =>
        router.Ended(runtime.ActiveSessionId(), id, reason);
      case DaemonSessionWarning(id, remainingMs, limitMs) =>
        router.Warning(id, remainingMs, limitMs);
      case Status =>
    }

    method OnReport(id: Uuid, success: bool)
      modifies this, runtime, llm, router
      ensures State() == Step(old(State()), Report(id, success))
    {
      router.InjectionDone(id, success, copyOnly);
    }

    method OnProgressEvent(progress: Progress, hint: Option<string>, queued: bool)
      modifies this, runtime, llm, router
      ensures State() == Progressed(old(State()), progress, hint, queued)
    {
      var action := llm.HandleProgress(progress);
      match action {
        case RouteAnswerDelta(id, number, text) =>
          router.Interim(None, InterimText(id, LlmAnswerDelta, number, text), hint);
        case CompleteAnswer(id, reason, text) =>
          closedAt := closedAt[id := |router.sink|];
          router.Ended(None, id, reason);
          jobs := jobs + [Job(id, text, LlmAnswer, queued, drops)];
        case _ =>
      }
    }
  }

  // ---------------------------------------------------------------- runs

  function Run(c: Client, events: seq<Event>): Client
    decreases |events|
  {
    if events == [] then c else Run(Step(c, events[0]), events[1..])
  }

  predicate PossibleRun(c: Client, events: seq<Event>)
    decreases |events|
  {
    events == [] || (Possible(c, events[0]) && PossibleRun(Step(c, events[0]), events[1..]))
  }
}
