// Client-side routing: which session events reach the overlay at all.
module OverlayRouting {
  import opened Prelude
  import opened OverlayIpc

  // `sent` is everything handed to the sink so far, oldest first.
  datatype Router = Router(active: Option<Uuid>, lastSeq: map<Producer, nat>, sent: seq<Message>)

  function NewRouter(): Router { Router(None, map[], []) }

  function Emit(r: Router, m: Message): Router { r.(sent := r.sent + [m]) }

  function NoteSessionStarted(r: Router, id: Uuid): Router {
    if r.active == Some(id) then r else r.(active := Some(id), lastSeq := map[])
  }

  // An event is let through unless another session is expected.
  predicate Allows(expected: Option<Uuid>, incoming: Uuid) {
    expected.None? || expected.value == incoming
  }

  function AcceptSeq(r: Router, id: Uuid, number: nat, producer: Producer): (Router, bool) {
    var s := NoteSessionStarted(r, id);
    if producer in s.lastSeq && number <= s.lastSeq[producer] then (s, false)
    else (s.(lastSeq := s.lastSeq[producer := number]), true)
  }

  function EmitHint(r: Router, hint: Option<string>): Router {
    if hint.None? then r else Emit(r, OutputHint(hint.value))
  }

  function RouteInterim(r: Router, expected: Option<Uuid>, m: Message, hint: Option<string>): Router
    requires m.IsInterim()
  {
    if !Allows(expected, m.session) then r
    else
      var (s, accepted) := AcceptSeq(r, m.session, m.number, m.producer);
      if accepted then Emit(EmitHint(s, hint), m) else s
  }

  // Daemon interim events need a session this client is running.
  function RouteDaemonInterim(r: Router, expected: Option<Uuid>, m: Message, hint: Option<string>): Router
    requires m.IsInterim()
  {
    if expected.None? then r else RouteInterim(r, expected, m, hint)
  }

  function RouteAudioLevel(r: Router, expected: Option<Uuid>, id: Uuid): Router {
    if Allows(expected, id) then Emit(r, AudioLevel(id)) else r
  }

  function RouteSessionEnded(r: Router, expected: Option<Uuid>, id: Uuid, reason: Option<string>): Router {
    if !Allows(expected, id) then r
    else
      var s := Emit(r, SessionEnded(id, reason));
      if s.active == Some(id) then s.(active := None, lastSeq := map[]) else s
  }

  function RouteInjectionComplete(r: Router, id: Uuid, success: bool, copyOnly: bool): Router {
    Emit(r, InjectionComplete(id, success, copyOnly))
  }

  function RouteSessionWarning(r: Router, id: Uuid, remainingMs: int, limitMs: int): Router {
    if r.active == Some(id) then Emit(r, SessionWarning(id, Some(remainingMs), Some(limitMs))) else r
  }

  class OverlayRouter {
    var activeSessionId: Option<Uuid>
    var lastSeqByProducer: map<Producer, nat>
    var sink: seq<Message>

    ghost function State(): Router
      reads this
    {
      Router(activeSessionId, lastSeqByProducer, sink)
    }

    constructor ()
      ensures State() == NewRouter()
    {
      activeSessionId, lastSeqByProducer, sink := None, map[], [];
    }

    method OnOverlayEvent(m: Message)
      modifies this`sink
      ensures State() == Emit(old(State()), m)
    {
      sink := sink + [m];
    }

    method SessionStarted(id: Uuid)
      modifies this
      ensures State() == NoteSessionStarted(old(State()), id)
    {
      if activeSessionId != Some(id) {
        activeSessionId := Some(id);
        lastSeqByProducer := map[];
      }
    }

    method TryAcceptSeq(id: Uuid, number: nat, producer: Producer) returns (accepted: bool)
      modifies this
      ensures (State(), accepted) == AcceptSeq(old(State()), id, number, producer)
    {
      if activeSessionId != Some(id) {
        activeSessionId := Some(id);
        lastSeqByProducer := map[];
      }
      if producer in lastSeqByProducer {
        if number <= lastSeqByProducer[producer] {
          return false;
        }
      }
      lastSeqByProducer := lastSeqByProducer[producer := number];
      accepted := true;
    }

    method Interim(expected: Option<Uuid>, m: Message, hint: Option<string>)
      requires m.IsInterim()
      modifies this
      ensures State() == RouteInterim(old(State()), expected, m, hint)
    {
      if !Allows(expected, m.session) {
        return;
      }
      var accepted := TryAcceptSeq(m.session, m.number, m.producer);
      if !accepted {
        return;
      }
      if hint.Some? {
        OnOverlayEvent(OutputHint(hint.value));
      }
      OnOverlayEvent(m);
    }

    method DaemonInterim(expected: Option<Uuid>, m: Message, hint: Option<string>)
      requires m.IsInterim()
      modifies this
      ensures State() == RouteDaemonInterim(old(State()), expected, m, hint)
    {
      if expected.None? {
        return;
      }
      Interim(expected, m, hint);
    }

    method Level(expected: Option<Uuid>, id: Uuid)
      modifies this
      ensures State() == RouteAudioLevel(old(State()), expected, id)
    {
      if Allows(expected, id) {
        OnOverlayEvent(AudioLevel(id));
      }
    }

    method Ended(expected: Option<Uuid>, id: Uuid, reason: Option<string>)
      modifies this
      ensures State() == RouteSessionEnded(old(State()), expected, id, reason)
    {
      if !Allows(expected, id) {
        return;
      }
      OnOverlayEvent(SessionEnded(id, reason));
      if activeSessionId == Some(id) {
        activeSessionId := None;
        lastSeqByProducer := map[];
      }
    }

    method InjectionDone(id: Uuid, success: bool, copyOnly: bool)
      modifies this
      ensures State() == RouteInjectionComplete(old(State()), id, success, copyOnly)
    {
      OnOverlayEvent(InjectionComplete(id, success, copyOnly));
    }

    method Warning(id: Uuid, remainingMs: int, limitMs: int)
      modifies this
      ensures State() == RouteSessionWarning(old(State()), id, remainingMs, limitMs)
    {
      if activeSessionId != Some(id) {
        return;
      }
      OnOverlayEvent(SessionWarning(id, Some(remainingMs), Some(limitMs)));
    }
  }
}
