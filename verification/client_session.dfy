// Client-side session policy: the push-to-talk state and the LLM query in flight.
module ClientSession {
  import opened Prelude
  import opened Text
  import LlmAnswer

  datatype Intent = Dictate | LlmQuery

  datatype PttState = Idle | Listening(session: Uuid) | WaitingResult(session: Uuid) {
    function SessionId(): Option<Uuid> {
      if Idle? then None else Some(session)
    }
  }

  // What the daemon may send, at any time and about any session.
  datatype ServerMessage =
    | SessionStarted(session: Uuid)
    | FinalResult(session: Uuid, text: string)
    | Error(about: Option<Uuid>)
    | Status
    | DaemonState(session: Uuid, number: nat, state: string)
    | DaemonText(session: Uuid, number: nat, text: string)
    | DaemonAudioLevel(session: Uuid)
    | DaemonSessionEnded(session: Uuid, reason: Option<string>)
    | DaemonSessionWarning(session: Uuid, remainingMs: int, limitMs: int)

  datatype LlmResult = Ok(answer: string) | Err

  // What an answering task reports about a session, at any time and in any order.
  datatype Progress =
    | Delta(session: Uuid, delta: string)
    | Finished(session: Uuid, transcript: string, result: LlmResult)

  // ---------------------------------------------------------------- push to talk

  datatype Session = Session(ptt: PttState, intent: Option<Intent>) {
    function Active(): Option<Uuid> { ptt.SessionId() }
  }

  const NoSession := Session(Idle, None)

  class ClientSessionRuntime {
    var state: PttState
    var activeIntent: Option<Intent>

    ghost function State(): Session
      reads this
    {
      Session(state, activeIntent)
    }

    constructor ()
      ensures State() == NoSession
    {
      state, activeIntent := Idle, None;
    }

    // `newId` is the identifier a fresh v4 UUID would be.
    method BeginListening(intent: Intent, newId: Uuid) returns (started: Option<Uuid>)
      modifies this
      ensures started == (if old(state).Idle? then Some(newId) else None)
      ensures State() == if old(state).Idle? then Session(Listening(newId), Some(intent)) else old(State())
    {
      if state != Idle {
        return None;
      }
      state := Listening(newId);
      activeIntent := Some(intent);
      started := Some(newId);
    }

    method StopListening() returns (stopped: Option<Uuid>)
      modifies this
      ensures stopped == (if old(state).Listening? then Some(old(state).session) else None)
      ensures State() == if old(state).Listening? then Session(WaitingResult(old(state).session), old(activeIntent))
                         else old(State())
    {
      match state
      case Listening(id) =>
        state := WaitingResult(id);
        stopped := Some(id);
      case _ =>
        stopped := None;
    }

    method Reset()
      modifies this
      ensures State() == NoSession
    {
      state := Idle;
      activeIntent := None;
    }

    function ActiveSessionId(): Option<Uuid>
      reads this
    {
      state.SessionId()
    }
  }

  // ---------------------------------------------------------------- the query in flight

  datatype Llm = Llm(
    busy: bool,
    inFlight: Option<Uuid>,
    numbers: map<Uuid, nat>,
    overlayText: map<Uuid, string>,
    deferredEnd: map<Uuid, Option<string>>,
    busyNumber: nat)
  {
    function InFlightSet(): set<Uuid> { if inFlight.Some? then {inFlight.value} else {} }
  }

  function IdleLlm(busyNumber: nat): Llm { Llm(false, None, map[], map[], map[], busyNumber) }

  const BUSY_TEXT := "LLM busy; wait for current answer"
  const GENERATING_TEXT := "Generating answer..."

  function NumberOf(m: map<Uuid, nat>, id: Uuid): nat { if id in m then m[id] else 0 }

  function TextOf(m: map<Uuid, string>, id: Uuid): string { if id in m then m[id] else "" }

  function ReasonOf(m: map<Uuid, Option<string>>, id: Uuid): Option<string> { if id in m then m[id] else None }

  function StartAnswer(l: Llm, id: Uuid): Llm {
    l.(busy := true, inFlight := Some(id), numbers := l.numbers[id := NumberOf(l.numbers, id) + 1])
  }

  function RecordDelta(l: Llm, id: Uuid, delta: string): Llm {
    if l.inFlight != Some(id) then l
    else l.(overlayText := l.overlayText[id := TextOf(l.overlayText, id) + delta],
            numbers := l.numbers[id := NumberOf(l.numbers, id) + 1])
  }

  function Forget(l: Llm, id: Uuid): Llm {
    l.(numbers := l.numbers - {id}, overlayText := l.overlayText - {id}, deferredEnd := l.deferredEnd - {id})
  }

  function FinishAnswer(l: Llm, id: Uuid): Llm {
    if l.inFlight != Some(id) then Forget(l, id)
    else Forget(l, id).(busy := false, inFlight := None)
  }

  // Whether the daemon's end of session `id` waits for the answer.
  predicate DefersEnd(l: Llm, s: Session, id: Uuid) {
    (s.intent == Some(LlmQuery) && s.Active() == Some(id)) || l.inFlight == Some(id)
  }

  function DeferEnd(l: Llm, id: Uuid, reason: Option<string>): Llm {
    l.(deferredEnd := l.deferredEnd[id := reason])
  }

  // The text an answer injects: the cleaned answer, or the transcript when there is none.
  function TextToInject(transcript: string, result: LlmResult): string {
    var response := if result.Ok? then LlmAnswer.Sanitize(result.answer) else transcript;
    if Blank(response) then transcript else response
  }

  datatype LlmAction =
    | PassThrough(message: ServerMessage)
    | DeferSessionEnded(session: Uuid)
    | RouteAnswerState(session: Uuid, number: nat, state: string)
    | IgnoreFinalResult(session: Uuid)
    | RouteAnswerDelta(session: Uuid, number: nat, text: string)
    | CompleteAnswer(session: Uuid, reason: Option<string>, text: string)
    | IgnoreProgress

  function OnDaemon(l: Llm, s: Session, m: ServerMessage): (Llm, Session, LlmAction) {
    if m.DaemonSessionEnded? && DefersEnd(l, s, m.session) then
      (DeferEnd(l, m.session, m.reason), s, DeferSessionEnded(m.session))
    else if m.FinalResult? && s.intent == Some(LlmQuery) then
      if s.Active() != Some(m.session) then (l, s, IgnoreFinalResult(m.session))
      else
        var l' := StartAnswer(l, m.session);
        (l', NoSession, RouteAnswerState(m.session, l'.numbers[m.session], GENERATING_TEXT))
    else (l, s, PassThrough(m))
  }

  function OnProgress(l: Llm, p: Progress): (Llm, LlmAction) {
    match p
    case Delta(id, delta) =>
      var l' := RecordDelta(l, id, delta);
      if l.inFlight != Some(id) then (l, IgnoreProgress)
      else (l', RouteAnswerDelta(id, l'.numbers[id], l'.overlayText[id]))
    case Finished(id, transcript, result) =>
      (FinishAnswer(l, id),
       if l.inFlight != Some(id) then IgnoreProgress
       else CompleteAnswer(id, ReasonOf(l.deferredEnd, id), TextToInject(transcript, result)))
  }

  class ClientLlmQueryRuntime {
    var busy: bool
    var inFlightSession: Option<Uuid>
    var numbers: map<Uuid, nat>
    var overlayText: map<Uuid, string>
    var deferredSessionEnd: map<Uuid, Option<string>>
    var busyOverlaySeq: nat

    ghost function State(): Llm
      reads this
    {
      Llm(busy, inFlightSession, numbers, overlayText, deferredSessionEnd, busyOverlaySeq)
    }

    constructor ()
      ensures State() == IdleLlm(0)
    {
      busy, inFlightSession := false, None;
      numbers, overlayText, deferredSessionEnd := map[], map[], map[];
      busyOverlaySeq := 0;
    }

    method NextSeq(id: Uuid) returns (number: nat)
      modifies this`numbers
      ensures number == NumberOf(old(numbers), id) + 1
      ensures numbers == old(numbers)[id := number]
    {
      if id !in numbers {
        numbers := numbers[id := 0];
      }
      numbers := numbers[id := numbers[id] + 1];
      number := numbers[id];
    }

    method HandleBusyRejection() returns (action: LlmAction)
      modifies this`busyOverlaySeq
      ensures busyOverlaySeq == old(busyOverlaySeq) + 1
      ensures action == RouteAnswerState(NIL, busyOverlaySeq, BUSY_TEXT)
    {
      busyOverlaySeq := busyOverlaySeq + 1;
      action := RouteAnswerState(NIL, busyOverlaySeq, BUSY_TEXT);
    }

    method HandleDaemonMessage(m: ServerMessage, runtime: ClientSessionRuntime) returns (action: LlmAction)
      modifies this, runtime
      ensures (State(), runtime.State(), action) == OnDaemon(old(State()), old(runtime.State()), m)
    {
      match m
      case DaemonSessionEnded(id, reason) =>
        var waitingForFinal := runtime.activeIntent == Some(LlmQuery) && runtime.ActiveSessionId() == Some(id);
        var generating := inFlightSession == Some(id);
        if waitingForFinal || generating {
          deferredSessionEnd := deferredSessionEnd[id := reason];
          action := DeferSessionEnded(id);
        } else {
          action := PassThrough(m);
        }
      case FinalResult(id, text) =>
        if runtime.activeIntent != Some(LlmQuery) {
          return PassThrough(m);
        }
        if runtime.ActiveSessionId() != Some(id) {
          return IgnoreFinalResult(id);
        }
        busy := true;
        inFlightSession := Some(id);
        var number := NextSeq(id);
        runtime.Reset();
        action := RouteAnswerState(id, number, GENERATING_TEXT);
      case _ =>
        action := PassThrough(m);
    }

    method HandleProgress(p: Progress) returns (action: LlmAction)
      modifies this
      ensures (State(), action) == OnProgress(old(State()), p)
    {
      match p
      case Delta(id, delta) =>
        if inFlightSession != Some(id) {
          return IgnoreProgress;
        }
        if id !in overlayText {
          overlayText := overlayText[id := ""];
        }
        overlayText := overlayText[id := overlayText[id] + delta];
        assert overlayText == old(overlayText)[id := TextOf(old(overlayText), id) + delta];
        var number := NextSeq(id);
        action := RouteAnswerDelta(id, number, overlayText[id]);
      case Finished(id, transcript, result) =>
        var wasInFlight, reason := Finish(id);
        if !wasInFlight {
          return IgnoreProgress;
        }
        var text := ChooseText(transcript, result);
        action := CompleteAnswer(id, reason, text);
    }

    method Finish(id: Uuid) returns (wasInFlight: bool, reason: Option<string>)
      modifies this
      ensures wasInFlight <==> old(inFlightSession) == Some(id)
      ensures State() == FinishAnswer(old(State()), id)
      ensures wasInFlight ==> reason == ReasonOf(old(deferredSessionEnd), id)
    {
      reason := None;
      wasInFlight := inFlightSession == Some(id);
      numbers := numbers - {id};
      overlayText := overlayText - {id};
      if !wasInFlight {
        deferredSessionEnd := deferredSessionEnd - {id};
        return;
      }
      busy := false;
      inFlightSession := None;
      if id in deferredSessionEnd {
        reason := deferredSessionEnd[id];
        deferredSessionEnd := deferredSessionEnd - {id};
      } else {
        assert deferredSessionEnd - {id} == deferredSessionEnd;
      }
    }

    static method ChooseText(transcript: string, result: LlmResult) returns (text: string)
      ensures text == TextToInject(transcript, result)
      ensures result.Ok? && !Blank(LlmAnswer.Sanitize(result.answer)) ==> text == LlmAnswer.Sanitize(result.answer)
      ensures result.Err? || Blank(LlmAnswer.Sanitize(result.answer)) ==> text == transcript
    {
      text := transcript;
      if result.Ok? {
        text := LlmAnswer.SanitizeModelAnswer(result.answer);
      }
      if Blank(text) {
        text := transcript;
      }
    }

    method HandleConnectionDrop()
      modifies this
      ensures State() == IdleLlm(old(busyOverlaySeq))
    {
      busy := false;
      inFlightSession := None;
      numbers, overlayText, deferredSessionEnd := map[], map[], map[];
    }
  }
}
