// The renderer's presentation state: one view per session, built from the message stream.
module OverlayState {
  import opened Prelude
  import opened Text
  import opened OverlayIpc

  const DEFAULT_AUTO_HIDE_AFTER_MS: nat := 600
  const DONE_LINGER_MS: nat := 900
  const DAEMON_STATE_LISTENING := "listening"
  const DAEMON_STATE_FINALIZING := "finalizing"

  datatype Mode = Stt | Llm

  datatype Phase = Listening | Interim | Finalizing | Answering | Done(success: bool)

  datatype CapWarning = CapWarning(atMs: nat, remainingMs: Option<nat>)

  datatype View = View(
    session: Uuid,
    mode: Mode,
    phase: Phase,
    transcript: string,
    question: Option<string>,
    answer: string,
    status: Option<string>,
    notice: Option<string>,
    reason: Option<string>,
    copyOnly: bool,
    startedMs: nat,
    endedMs: Option<nat>,
    warning: Option<CapWarning>)
  {
    predicate IsLive() { phase.Listening? || phase.Interim? }

    // Session time on the timer; it freezes when the session ends.
    function ElapsedMs(now: nat): nat {
      Max(endedMs.GetOr(now), startedMs) - startedMs
    }

    // Time left before the cap, once a warning with a remaining value arrived.
    function RemainingMs(now: nat): Option<nat> {
      if warning.None? || warning.value.remainingMs.None? then None
      else
        var clock := Min(endedMs.GetOr(now), now);
        Some(Monus(warning.value.remainingMs.value, Monus(clock, warning.value.atMs)))
    }

    function EnterLlm(): View {
      this.(mode := Llm,
            question := if question.None? && !Blank(transcript) then Some(Trim(transcript)) else question,
            phase := Answering)
    }

    function Ended(now: nat): View {
      this.(endedMs := Some(endedMs.GetOr(now)))
    }
  }

  function NewView(session: Uuid, producer: Producer, now: nat): View {
    View(session, if producer.DaemonSttInterim? then Stt else Llm, Listening,
         "", None, "", None, None, None, false, now, None, None)
  }

  datatype Outcome = Applied | DroppedStaleSeq | DroppedSessionMismatch

  datatype Screen = Screen(
    visible: Option<View>,
    active: Option<Uuid>,
    lastSeq: map<Producer, nat>,
    hideDeadline: Option<nat>,
    noticeDeadline: Option<nat>,
    autoHideMs: nat)
  {
    predicate Shows(id: Uuid) { visible.Some? && visible.value.session == id }
  }

  function Fresh(autoHideMs: nat): Screen {
    Screen(None, None, map[], None, None, autoHideMs)
  }

  // ---------------------------------------------------------------- one message

  function SetNotice(s: Screen, notice: Option<string>): Screen {
    if s.visible.Some? then s.(visible := Some(s.visible.value.(notice := notice))) else s
  }

  // The view of session `id`: the current one, or a new one that replaces it.
  function ViewFor(s: Screen, id: Uuid, producer: Producer, now: nat): (r: Screen)
    ensures r.Shows(id)
  {
    if s.Shows(id) then s
    else s.(visible := Some(NewView(id, producer, now)), hideDeadline := None, noticeDeadline := None)
  }

  // Whether an interim number is newer than the last one accepted, and the state after recording it.
  function ApplySeq(s: Screen, id: Uuid, producer: Producer, number: nat): (Screen, bool) {
    var t := if s.active == Some(id) then s else s.(active := Some(id), lastSeq := map[]);
    if producer in t.lastSeq && number <= t.lastSeq[producer] then (t, false)
    else (t.(lastSeq := t.lastSeq[producer := number]), true)
  }

  function StateOnView(v: View, producer: Producer, state: string, now: nat): View {
    match producer
    case LlmAnswerDelta => v.EnterLlm().(status := Some(state))
    case DaemonSttInterim =>
      if state == DAEMON_STATE_LISTENING && v.IsLive() && Blank(v.transcript) then
        v.(phase := Listening)
      else if state == DAEMON_STATE_FINALIZING && v.mode.Stt? then
        (if v.IsLive() then v.(phase := Finalizing) else v).Ended(now)
      else v
  }

  function TextOnView(v: View, producer: Producer, text: string): View {
    match producer
    case LlmAnswerDelta => v.EnterLlm().(answer := text, status := None)
    case DaemonSttInterim =>
      if v.mode.Stt? then
        v.(transcript := text, phase := if v.phase.Listening? then Interim else v.phase)
      else v
  }

  function WarningOnView(v: View, remainingMs: Option<int>, limitMs: Option<int>, now: nat): View {
    var left: Option<nat> :=
      if remainingMs.Some? then Some(Max(remainingMs.value, 0))
      else if limitMs.Some? then Some(Monus(Max(limitMs.value, 0), v.ElapsedMs(now)))
      else None;
    v.(warning := Some(CapWarning(now, left)))
  }

  function ApplyInterim(s: Screen, m: Message, now: nat): (Screen, Outcome)
    requires m.IsInterim()
  {
    if m.session == NIL then
      (SetNotice(s, Some(if m.InterimState? then m.state else m.text)).(noticeDeadline := None), Applied)
    else
      var (t, newer) := ApplySeq(s, m.session, m.producer, m.number);
      if !newer then (t, DroppedStaleSeq)
      else
        var u := ViewFor(t, m.session, m.producer, now);
        var v := if m.InterimState? then StateOnView(u.visible.value, m.producer, m.state, now)
                 else TextOnView(u.visible.value, m.producer, m.text);
        (u.(visible := Some(v), hideDeadline := None), Applied)
  }

  function ApplyEnded(s: Screen, id: Uuid, reason: Option<string>, now: nat): (Screen, Outcome) {
    if id == NIL then (s.(noticeDeadline := Some(now + s.autoHideMs)), Applied)
    else if s.active.Some? && s.active.value != id then (s, DroppedSessionMismatch)
    else
      var u := ViewFor(s.(active := Some(id), lastSeq := map[]), id, DaemonSttInterim, now);
      var v := u.visible.value.(reason := reason).Ended(now);
      (u.(visible := Some(if v.IsLive() then v.(phase := Finalizing) else v),
          hideDeadline := Some(now + s.autoHideMs)), Applied)
  }

  function Apply(s: Screen, m: Message, now: nat): (Screen, Outcome) {
    match m
    case OutputHint(_) => (s, Applied)
    case AudioLevel(_) => (s, Applied)
    case InterimState(_, _, _, _) => ApplyInterim(s, m, now)
    case InterimText(_, _, _, _) => ApplyInterim(s, m, now)
    case SessionEnded(id, reason) => ApplyEnded(s, id, reason, now)
    case SessionWarning(id, remainingMs, limitMs) =>
      if s.active != Some(id) then (s, DroppedSessionMismatch)
      else if s.Shows(id) then
        (s.(visible := Some(WarningOnView(s.visible.value, remainingMs, limitMs, now))), Applied)
      else (s, Applied)
    case InjectionComplete(id, success, copyOnly) =>
      if s.Shows(id) then
        (s.(visible := Some(s.visible.value.(phase := Done(success), copyOnly := copyOnly).Ended(now)),
            hideDeadline := Some(now + DONE_LINGER_MS)), Applied)
      else (s, DroppedSessionMismatch)
  }

  function AdvanceTime(s: Screen, now: nat): (Screen, bool) {
    var expired := s.noticeDeadline.Some? && now >= s.noticeDeadline.value;
    var t := if expired then SetNotice(s.(noticeDeadline := None), None) else s;
    if t.hideDeadline.Some? && now >= t.hideDeadline.value then
      (t.(visible := None, active := None, lastSeq := map[], hideDeadline := None, noticeDeadline := None), true)
    else (t, expired)
  }

  // The renderer with its state in fields, updated one message or tick at a time.
  class OverlayStateMachine {
    var visibility: Option<View>
    var activeSessionId: Option<Uuid>
    var lastSeqByProducer: map<Producer, nat>
    var hideDeadlineMs: Option<nat>
    var noticeDeadlineMs: Option<nat>
    const autoHideAfterMs: nat

    ghost function State(): Screen
      reads this
    {
      Screen(visibility, activeSessionId, lastSeqByProducer, hideDeadlineMs, noticeDeadlineMs, autoHideAfterMs)
    }

    constructor (autoHideAfterMs: nat)
      ensures State() == Fresh(autoHideAfterMs)
    {
      visibility, activeSessionId, lastSeqByProducer := None, None, map[];
      hideDeadlineMs, noticeDeadlineMs := None, None;
      this.autoHideAfterMs := autoHideAfterMs;
    }

    method ApplyEvent(message: Message, now: nat) returns (outcome: Outcome)
      modifies this
      ensures (State(), outcome) == Apply(old(State()), message, now)
    {
      match message
      case OutputHint(_) =>
        outcome := Applied;
      case AudioLevel(_) =>
        outcome := Applied;
      case InterimState(id, producer, number, state) =>
        if id == NIL {
          SetTransientNotice(Some(state));
          noticeDeadlineMs := None;
          return Applied;
        }
        var newer := AcceptSeq(id, producer, number);
        if !newer {
          return DroppedStaleSeq;
        }
        var view := OpenView(id, producer, now);
        match producer {
          case DaemonSttInterim =>
            if state == DAEMON_STATE_LISTENING && view.IsLive() && Blank(view.transcript) {
              view := view.(phase := Listening);
            } else if state == DAEMON_STATE_FINALIZING && view.mode == Stt {
              if view.IsLive() {
                view := view.(phase := Finalizing);
              }
              view := view.(endedMs := Some(view.endedMs.GetOr(now)));
            }
          case LlmAnswerDelta =>
            view := view.EnterLlm();
            view := view.(status := Some(state));
        }
        visibility := Some(view);
        hideDeadlineMs := None;
        outcome := Applied;
      case InterimText(id, producer, number, text) =>
        if id == NIL {
          SetTransientNotice(Some(text));
          noticeDeadlineMs := None;
          return Applied;
        }
        var newer := AcceptSeq(id, producer, number);
        if !newer {
          return DroppedStaleSeq;
        }
        var view := OpenView(id, producer, now);
        match producer {
          case DaemonSttInterim =>
            if view.mode == Stt {
              view := view.(transcript := text);
              if view.phase == Listening {
                view := view.(phase := Interim);
              }
            }
          case LlmAnswerDelta =>
            view := view.EnterLlm();
            view := view.(answer := text, status := None);
        }
        visibility := Some(view);
        hideDeadlineMs := None;
        outcome := Applied;
      case SessionEnded(id, reason) =>
        if id == NIL {
          noticeDeadlineMs := Some(now + autoHideAfterMs);
          return Applied;
        }
        if activeSessionId.Some? && activeSessionId.value != id {
          return DroppedSessionMismatch;
        }
        activeSessionId := Some(id);
        lastSeqByProducer := map[];
        var view := OpenView(id, DaemonSttInterim, now);
        view := view.(reason := reason, endedMs := Some(view.endedMs.GetOr(now)));
        if view.IsLive() {
          view := view.(phase := Finalizing);
        }
        visibility := Some(view);
        hideDeadlineMs := Some(now + autoHideAfterMs);
        outcome := Applied;
      case SessionWarning(id, remainingMs, limitMs) =>
        if activeSessionId != Some(id) {
          return DroppedSessionMismatch;
        }
        if visibility.Some? && visibility.value.session == id {
          var elapsed := visibility.value.ElapsedMs(now);
          var left: Option<nat> := None;
          if remainingMs.Some? {
            left := Some(Max(remainingMs.value, 0));
          } else if limitMs.Some? {
            left := Some(Monus(Max(limitMs.value, 0), elapsed));
          }
          visibility := Some(visibility.value.(warning := Some(CapWarning(now, left))));
        }
        outcome := Applied;
      case InjectionComplete(id, success, copyOnly) =>
        if visibility.Some? && visibility.value.session == id {
          var view := visibility.value;
          view := view.(phase := Done(success), copyOnly := copyOnly, endedMs := Some(view.endedMs.GetOr(now)));
          visibility := Some(view);
          hideDeadlineMs := Some(now + DONE_LINGER_MS);
          outcome := Applied;
        } else {
          outcome := DroppedSessionMismatch;
        }
    }

    method Tick(now: nat) returns (changed: bool)
      modifies this
      ensures (State(), changed) == AdvanceTime(old(State()), now)
    {
      changed := false;
      if noticeDeadlineMs.Some? && now >= noticeDeadlineMs.value {
        noticeDeadlineMs := None;
        SetTransientNotice(None);
        changed := true;
      }
      if hideDeadlineMs.Some? {
        if now >= hideDeadlineMs.value {
          visibility, activeSessionId, lastSeqByProducer := None, None, map[];
          hideDeadlineMs, noticeDeadlineMs := None, None;
          return true;
        }
      }
    }

    method SetTransientNotice(notice: Option<string>)
      modifies this`visibility
      ensures State() == SetNotice(old(State()), notice)
    {
      if visibility.Some? {
        visibility := Some(visibility.value.(notice := notice));
      }
    }

    method OpenView(id: Uuid, producer: Producer, now: nat) returns (view: View)
      modifies this
      ensures State() == ViewFor(old(State()), id, producer, now)
      ensures visibility == Some(view)
    {
      var replace := visibility.None? || visibility.value.session != id;
      if replace {
        visibility := Some(NewView(id, producer, now));
        hideDeadlineMs := None;
        noticeDeadlineMs := None;
      }
      view := visibility.value;
    }

    method AcceptSeq(id: Uuid, producer: Producer, number: nat) returns (newer: bool)
      modifies this
      ensures (State(), newer) == ApplySeq(old(State()), id, producer, number)
    {
      if activeSessionId != Some(id) {
        activeSessionId := Some(id);
        lastSeqByProducer := map[];
      }
      if producer in lastSeqByProducer {
        if number <= lastSeqByProducer[producer] {
          return false;
        }
      }
      lastSeqByProducer := lastSeqByProducer[producer := number];
      newer := true;
    }
  }
}
