// The manager that keeps one renderer process running, respawns it, and replays what it missed.
module OverlayProcess {
  import opened Prelude
  import opened OverlayIpc
  import opened OverlayState

  // A renderer process: what its pipe took, when it started, how many messages it takes before it
  // is found disconnected, and the screen those messages and its own ticks led to.
  datatype Sink = Sink(received: seq<Message>, epoch: nat, lifetime: nat, screen: Screen)

  // The outcome of the n-th launch ever attempted: a failure, or a process with a lifetime.
  type Launcher = nat -> Option<nat>

  datatype Manager = Manager(
    enabled: bool,
    requireOutput: bool,
    backoffMs: nat,
    watchdogMs: nat,
    autoHideMs: nat,
    sink: Option<Sink>,
    activeOutput: Option<string>,
    latestMessage: Option<Message>,
    latestWarning: Option<Message>,
    latestWarningAt: Option<nat>,
    utteranceStarted: Option<(Uuid, nat)>,
    pendingOutput: Option<string>,
    utteranceActive: bool,
    nextSpawnAllowedAt: Option<nat>,
    outputWaitStartedAt: Option<nat>,
    launches: nat)

  // ---------------------------------------------------------------- sending to a process

  function NewSink(lifetime: nat, now: nat, autoHideMs: nat): Sink {
    Sink([], now, lifetime, Fresh(autoHideMs))
  }

  // The process takes one message, or is found disconnected.
  function Take(s: Sink, m: Message, now: nat): Option<Sink> {
    if |s.received| < s.lifetime then
      Some(s.(received := s.received + [m], screen := Apply(s.screen, m, Monus(now, s.epoch)).0))
    else None
  }

  function TakeAll(s: Sink, ms: seq<Message>, now: nat): Option<Sink>
    decreases |ms|
  {
    if ms == [] then Some(s)
    else
      match Take(s, ms[0], now)
      case None => None
      case Some(t) => TakeAll(t, ms[1..], now)
  }

  // ---------------------------------------------------------------- what is remembered for replay

  function SessionOf(m: Option<Message>): Option<Uuid> {
    if m.None? then None else m.value.SessionId()
  }

  function Remember(g: Manager, m: Message, now: nat): Manager {
    match m
    case OutputHint(_) => g
    case AudioLevel(_) => g
    case InterimState(id, _, _, _) => RememberInterim(g, m, id, now)
    case InterimText(id, _, _, _) => RememberInterim(g, m, id, now)
    case SessionEnded(_, _) => g.(latestMessage := Some(m), latestWarning := None)
    case SessionWarning(id, _, _) =>
      if SessionOf(g.latestMessage) == Some(id) then g.(latestWarning := Some(m), latestWarningAt := Some(now)) else g
    case InjectionComplete(id, _, _) =>
      if SessionOf(g.latestMessage) == Some(id) then g.(latestMessage := None, latestWarning := None) else g
  }

  function RememberInterim(g: Manager, m: Message, id: Uuid, now: nat): Manager {
    var started :=
      if id != NIL && (g.utteranceStarted.None? || g.utteranceStarted.value.0 != id) then Some((id, now))
      else g.utteranceStarted;
    g.(latestMessage := Some(m), utteranceStarted := started,
       latestWarning := if SessionOf(g.latestWarning) == Some(id) then g.latestWarning else None)
  }

  // The stored warning with the time since it arrived taken off what remained.
  function AgedWarning(g: Manager, warning: Message, now: nat): Message {
    match warning
    case SessionWarning(id, remainingMs, limitMs) =>
      var age := if g.latestWarningAt.Some? then Monus(now, g.latestWarningAt.value) else 0;
      var sessionAge :=
        if g.utteranceStarted.Some? && g.utteranceStarted.value.0 == id then Monus(now, g.utteranceStarted.value.1)
        else 0;
      var left :=
        if remainingMs.Some? then Some(Max(remainingMs.value - age, 0))
        else if limitMs.Some? then Some(Max(limitMs.value - sessionAge, 0))
        else None;
      SessionWarning(id, left, limitMs)
    case _ => warning
  }

  function Replay(g: Manager, now: nat): seq<Message> {
    if g.latestMessage.None? then []
    else if g.latestWarning.Some? && SessionOf(g.latestWarning) == SessionOf(g.latestMessage) then
      [g.latestMessage.value, AgedWarning(g, g.latestWarning.value, now)]
    else [g.latestMessage.value]
  }

  // What a process spawned on the way of sending `m` is given.
  function Batch(g: Manager, m: Message, now: nat): seq<Message> {
    var replay := Replay(g, now);
    match m
    case OutputHint(_) => [m] + replay
    case AudioLevel(_) => replay + [m]
    case InjectionComplete(_, _, _) => replay + [m]
    case _ => if replay == [] then [m] else replay
  }

  // ---------------------------------------------------------------- spawning

  function TrySpawn(g: Manager, now: nat, focus: Option<string>, launcher: Launcher): Manager {
    if !g.enabled || g.sink.Some? || (g.nextSpawnAllowedAt.Some? && now < g.nextSpawnAllowedAt.value) then g
    else
      var output := if g.pendingOutput.Some? then g.pendingOutput else focus;
      var h := g.(pendingOutput := output,
                  outputWaitStartedAt := if output.Some? then None else g.outputWaitStartedAt);
      if h.requireOutput && output.None? then
        var started := h.outputWaitStartedAt.GetOr(now);
        if Monus(now, started) < h.watchdogMs then h.(outputWaitStartedAt := Some(started))
        else Launch(h.(outputWaitStartedAt := None), output, now, launcher)
      else Launch(h, output, now, launcher)
  }

  function Launch(g: Manager, output: Option<string>, now: nat, launcher: Launcher): Manager {
    var h := g.(launches := g.launches + 1);
    match launcher(g.launches)
    case Some(lifetime) =>
      h.(sink := Some(NewSink(lifetime, now, g.autoHideMs)), activeOutput := output, nextSpawnAllowedAt := None)
    case None => h.(nextSpawnAllowedAt := Some(now + g.backoffMs))
  }

  predicate WantsRetarget(g: Manager) {
    g.pendingOutput.Some? && g.activeOutput != g.pendingOutput && g.sink.Some?
  }

  // At the start of an utterance the renderer may move to another output, as a new process.
  function Retarget(g: Manager, now: nat, launcher: Launcher): Manager {
    if !WantsRetarget(g) then g
    else
      var h := g.(launches := g.launches + 1);
      match launcher(g.launches)
      case Some(lifetime) =>
        h.(sink := Some(NewSink(lifetime, now, g.autoHideMs)), activeOutput := g.pendingOutput,
           nextSpawnAllowedAt := None)
      case None => h
  }

  // ---------------------------------------------------------------- one message

  function Prepare(g: Manager, m: Message, now: nat, launcher: Launcher): Manager {
    var h := if m.OutputHint? then g.(pendingOutput := Some(m.outputName), outputWaitStartedAt := None)
             else Remember(g, m, now);
    if m.IsInterim() then
      (if h.utteranceActive then h else Retarget(h, now, launcher)).(utteranceActive := true)
    else if m.SessionEnded? then h.(utteranceActive := false)
    else h
  }

  function WithoutSink(g: Manager): Manager { g.(sink := None, activeOutput := None) }

  function SpawnAndSync(g: Manager, m: Message, now: nat, focus: Option<string>, launcher: Launcher): Manager {
    var h := TrySpawn(g, now, focus, launcher);
    if h.sink.None? then h
    else
      match TakeAll(h.sink.value, Batch(h, m, now), now)
      case Some(synced) => h.(sink := Some(synced))
      case None => WithoutSink(h)
  }

  function Deliver(g: Manager, m: Message, now: nat, focus: Option<string>, launcher: Launcher): Manager {
    if !g.enabled then g
    else if g.sink.None? then SpawnAndSync(g, m, now, focus, launcher)
    else
      match Take(g.sink.value, m, now)
      case Some(taken) => g.(sink := Some(taken))
      case None => SpawnAndSync(WithoutSink(g), m, now, focus, launcher)
  }

  function Send(g: Manager, m: Message, now: nat, focus: Option<string>, launcher: Launcher): Manager {
    Deliver(Prepare(g, m, now, launcher), m, now, focus, launcher)
  }

  function NewManager(enabled: bool, requireOutput: bool, backoffMs: nat, watchdogMs: nat, autoHideMs: nat): Manager {
    Manager(enabled, requireOutput, backoffMs, watchdogMs, autoHideMs, None, None, None, None, None, None, None, false,
            None, None, 0)
  }

  class OverlayProcessManager {
    const enabled: bool
    const requireOutputNameOnSpawn: bool
    const respawnBackoffMs: nat
    const outputWatchdogMs: nat
    const autoHideMs: nat
    const launcher: Launcher
    var sink: Option<Sink>
    var activeOutputName: Option<string>
    var latestMessage: Option<Message>
    var latestWarning: Option<Message>
    var latestWarningAt: Option<nat>
    var utteranceStarted: Option<(Uuid, nat)>
    var pendingOutputName: Option<string>
    var utteranceActive: bool
    var nextSpawnAllowedAt: Option<nat>
    var outputWaitStartedAt: Option<nat>
    var launches: nat

    function State(): Manager
      reads this
    {
      Manager(enabled, requireOutputNameOnSpawn, respawnBackoffMs, outputWatchdogMs, autoHideMs, sink, activeOutputName,
              latestMessage, latestWarning, latestWarningAt, utteranceStarted, pendingOutputName, utteranceActive,
              nextSpawnAllowedAt, outputWaitStartedAt, launches)
    }

    constructor (enabled: bool, requireOutput: bool, backoffMs: nat, watchdogMs: nat, autoHideMs: nat,
                 launcher: Launcher, now: nat, focus: Option<string>)
      ensures this.launcher == launcher
      ensures var g := NewManager(enabled, requireOutput, backoffMs, watchdogMs, autoHideMs);
              State() == if requireOutput then g else TrySpawn(g, now, focus, launcher)
    {
      this.enabled, this.requireOutputNameOnSpawn := enabled, requireOutput;
      this.respawnBackoffMs, this.outputWatchdogMs, this.autoHideMs := backoffMs, watchdogMs, autoHideMs;
      this.launcher := launcher;
      sink, activeOutputName, latestMessage, latestWarning, latestWarningAt := None, None, None, None, None;
      utteranceStarted, pendingOutputName, utteranceActive := None, None, false;
      nextSpawnAllowedAt, outputWaitStartedAt, launches := None, None, 0;
      new;
      if !requireOutput {
        TrySpawnSink(now, focus);
      }
    }

    method SendMessage(message: Message, now: nat, focus: Option<string>)
      modifies this
      ensures State() == Send(old(State()), message, now, focus, launcher)
    {
      if message.OutputHint? {
        pendingOutputName := Some(message.outputName);
        outputWaitStartedAt := None;
      } else {
        RememberReplayState(message, now);
      }
      if message.IsInterim() {
        if !utteranceActive {
          MaybeRetargetForNextUtterance(now);
        }
        utteranceActive := true;
      } else if message.SessionEnded? {
        utteranceActive := false;
      }
      assert State() == Prepare(old(State()), message, now, launcher);
      Hand(message, now, focus);
    }

    // The part of `SendMessage` after what is remembered: hands the message to the process, or to a
    // new one.
    method Hand(message: Message, now: nat, focus: Option<string>)
      modifies this
      ensures State() == Deliver(old(State()), message, now, focus, launcher)
    {
      if !enabled {
        return;
      }
      if sink.Some? {
        var taken := Take(sink.value, message, now);
        if taken.Some? {
          sink := taken;
          return;
        }
        sink := None;
        activeOutputName := None;
      }
      TrySpawnSink(now, focus);
      if sink.None? {
        return;
      }
      SyncSinkAfterRespawn(message, now);
    }

    method RememberReplayState(message: Message, now: nat)
      modifies this`latestMessage, this`latestWarning, this`latestWarningAt, this`utteranceStarted
      ensures State() == Remember(old(State()), message, now)
    {
      match message
      case OutputHint(_) =>
      case AudioLevel(_) =>
      case InterimState(id, _, _, _) =>
        RememberInterimEvent(message, id, now);
      case InterimText(id, _, _, _) =>
        RememberInterimEvent(message, id, now);
      case SessionEnded(_, _) =>
        latestMessage := Some(message);
        latestWarning := None;
      case SessionWarning(id, _, _) =>
        if SessionOf(latestMessage) == Some(id) {
          latestWarning := Some(message);
          latestWarningAt := Some(now);
        }
      case InjectionComplete(id, _, _) =>
        if SessionOf(latestMessage) == Some(id) {
          latestMessage := None;
          latestWarning := None;
        }
    }

    method RememberInterimEvent(message: Message, id: Uuid, now: nat)
      modifies this`latestMessage, this`latestWarning, this`utteranceStarted
      ensures State() == RememberInterim(old(State()), message, id, now)
    {
      if SessionOf(latestWarning) != Some(id) {
        latestWarning := None;
      }
      if id != NIL && (utteranceStarted.None? || utteranceStarted.value.0 != id) {
        utteranceStarted := Some((id, now));
      }
      latestMessage := Some(message);
    }

    method SyncSinkAfterRespawn(message: Message, now: nat)
      requires sink.Some?
      modifies this`sink, this`activeOutputName
      ensures var g := old(State());
              State() == match TakeAll(g.sink.value, Batch(g, message, now), now)
                         case Some(synced) => g.(sink := Some(synced))
                         case None => WithoutSink(g)
    {
      var batch := Batch(State(), message, now);
      ghost var whole := TakeAll(sink.value, batch, now);
      for i := 0 to |batch|
        invariant sink.Some? && activeOutputName == old(activeOutputName)
        invariant whole == TakeAll(sink.value, batch[i..], now)
      {
        assert batch[i..][1..] == batch[i + 1..];
        var taken := Take(sink.value, batch[i], now);
        if taken.None? {
          sink := None;
          activeOutputName := None;
          return;
        }
        sink := taken;
      }
    }

    method TrySpawnSink(now: nat, focus: Option<string>)
      modifies this
      ensures State() == TrySpawn(old(State()), now, focus, launcher)
    {
      if !enabled || sink.Some? {
        return;
      }
      if nextSpawnAllowedAt.Some? {
        if now < nextSpawnAllowedAt.value {
          return;
        }
      }
      var output := if pendingOutputName.Some? then pendingOutputName else focus;
      if output.Some? {
        outputWaitStartedAt := None;
      }
      if pendingOutputName.None? {
        pendingOutputName := output;
      }
      if requireOutputNameOnSpawn && output.None? {
        if outputWaitStartedAt.None? {
          outputWaitStartedAt := Some(now);
        }
        if Monus(now, outputWaitStartedAt.value) < outputWatchdogMs {
          return;
        }
        outputWaitStartedAt := None;
      }
      LaunchSink(output, now);
    }

    method LaunchSink(output: Option<string>, now: nat)
      modifies this
      ensures State() == Launch(old(State()), output, now, launcher)
    {
      var launched := launcher(launches);
      launches := launches + 1;
      match launched {
        case Some(lifetime) =>
          sink := Some(NewSink(lifetime, now, autoHideMs));
          activeOutputName := output;
          nextSpawnAllowedAt := None;
        case None =>
          nextSpawnAllowedAt := Some(now + respawnBackoffMs);
      }
    }

    method MaybeRetargetForNextUtterance(now: nat)
      modifies this
      ensures State() == Retarget(old(State()), now, launcher)
    {
      if pendingOutputName.None? || activeOutputName == pendingOutputName || sink.None? {
        return;
      }
      var launched := launcher(launches);
      launches := launches + 1;
      if launched.Some? {
        sink := Some(NewSink(launched.value, now, autoHideMs));
        activeOutputName := pendingOutputName;
        nextSpawnAllowedAt := None;
      }
    }
  }
}
