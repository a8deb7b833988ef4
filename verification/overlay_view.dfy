// What a sheet shows, field by field: each is decided by the messages about its session, and by
// those messages alone.
module OverlayView {
  import opened Prelude
  import opened Text
  import opened OverlayIpc
  import opened OverlayState
  import opened OverlayStateLaws

  // ---------------------------------------------------------------- one field at a time

  function PhaseTold(v: View, m: Message): Phase {
    match m
    case InjectionComplete(_, success, _) => Done(success)
    case InterimState(_, LlmAnswerDelta, _, _) => Answering
    case InterimText(_, LlmAnswerDelta, _, _) => Answering
    case SessionEnded(_, _) => if v.phase in {Listening, Interim} then Finalizing else v.phase
    case InterimText(_, DaemonSttInterim, _, _) => if v.mode == Stt && v.phase == Listening then Interim else v.phase
    case InterimState(_, DaemonSttInterim, _, state) =>
      if v.phase !in {Listening, Interim} then v.phase
      else if state == "listening" && Trim(v.transcript) == "" then Listening
      else if state == "finalizing" && v.mode == Stt then Finalizing
      else v.phase
    case _ => v.phase
  }

  predicate IsAnswer(m: Message) { m.IsInterim() && m.producer == LlmAnswerDelta }

  function ModeTold(v: View, m: Message): Mode { if IsAnswer(m) then Llm else v.mode }

  function TranscriptTold(v: View, m: Message): string {
    if m.InterimText? && m.producer == DaemonSttInterim && v.mode == Stt then m.text else v.transcript
  }

  function QuestionTold(v: View, m: Message): Option<string> {
    if IsAnswer(m) && v.question == None && Trim(v.transcript) != "" then Some(Trim(v.transcript)) else v.question
  }

  function AnswerTold(v: View, m: Message): string { if m.InterimText? && IsAnswer(m) then m.text else v.answer }

  function StatusTold(v: View, m: Message): Option<string> {
    if IsAnswer(m) then (if m.InterimState? then Some(m.state) else None) else v.status
  }

  function ReasonTold(v: View, m: Message): Option<string> { if m.SessionEnded? then m.reason else v.reason }

  function CopyOnlyTold(v: View, m: Message): bool { if m.InjectionComplete? then m.copyOnly else v.copyOnly }

  // What ends the session, for its timer.
  predicate EndsTimer(v: View, m: Message) {
    || m.SessionEnded? || m.InjectionComplete?
    || (m.InterimState? && m.producer == DaemonSttInterim && m.state == "finalizing" && v.mode == Stt)
  }

  function EndedTold(v: View, m: Message, at: nat): Option<nat> {
    if v.endedMs == None && EndsTimer(v, m) then Some(at) else v.endedMs
  }

  // The time left by a warning: what the daemon says is left, or the cap less the time on the timer.
  function WarningTold(v: View, m: Message, at: nat): Option<CapWarning> {
    if !m.SessionWarning? then v.warning
    else if m.remainingMs.Some? then
      Some(CapWarning(at, Some(if m.remainingMs.value < 0 then 0 else m.remainingMs.value)))
    else if m.limitMs.None? then Some(CapWarning(at, None))
    else
      var left := m.limitMs.value - v.ElapsedMs(at);
      Some(CapWarning(at, Some(if left < 0 || m.limitMs.value < 0 then 0 else left)))
  }

  // A view that is told `m`.
  function Tell(v: View, m: Message, at: nat): View {
    View(v.session, ModeTold(v, m), PhaseTold(v, m), TranscriptTold(v, m), QuestionTold(v, m), AnswerTold(v, m),
         StatusTold(v, m), v.notice, ReasonTold(v, m), CopyOnlyTold(v, m), v.startedMs, EndedTold(v, m, at),
         WarningTold(v, m, at))
  }

  // ---------------------------------------------------------------- one input

  // The message is about session `id`, and not stale.
  predicate Counts(s: Screen, m: Message, id: Uuid) {
    && m.SessionId() == Some(id)
    && !(m.IsInterim() && m.producer in s.lastSeq && m.number <= s.lastSeq[m.producer])
  }

  function NoticeAfter(s: Screen, i: Input, notice: Option<string>): Option<string> {
    match i
    case Receive(InterimState(about, _, _, state), _) => if about == NIL then Some(state) else notice
    case Receive(InterimText(about, _, _, text), _) => if about == NIL then Some(text) else notice
    case Tick(at) => if s.noticeDeadline.Some? && s.noticeDeadline.value <= at then None else notice
    case _ => notice
  }

  function NoticeDeadlineAfter(s: Screen, i: Input): Option<nat> {
    match i
    case Receive(m, at) =>
      if m.SessionId() != Some(NIL) then s.noticeDeadline
      else if m.SessionEnded? then Some(at + s.autoHideMs)
      else if m.IsInterim() then None
      else s.noticeDeadline
    case Tick(at) => if s.noticeDeadline.Some? && s.noticeDeadline.value <= at then None else s.noticeDeadline
  }

  function DeadlineAfter(s: Screen, i: Input, id: Uuid): Option<nat> {
    if !(i.Receive? && Counts(s, i.message, id)) then s.hideDeadline
    else if i.message.SessionEnded? then Some(i.at + s.autoHideMs)
    else if i.message.InjectionComplete? then Some(i.at + 900)
    else if i.message.IsInterim() then None
    else s.hideDeadline
  }

  function NumbersAfter(s: Screen, i: Input, id: Uuid): map<Producer, nat> {
    if !(i.Receive? && Counts(s, i.message, id)) then s.lastSeq
    else if i.message.SessionEnded? then map[]
    else if i.message.IsInterim() then s.lastSeq[i.message.producer := i.message.number]
    else s.lastSeq
  }

  function ViewAfter(s: Screen, i: Input, id: Uuid): View
    requires s.Shows(id)
  {
    var v := s.visible.value;
    var told := if i.Receive? && Counts(s, i.message, id) then Tell(v, i.message, i.at) else v;
    told.(notice := NoticeAfter(s, i, v.notice))
  }

  // Session `id` leaves the screen: another one takes it over, or its deadline passes.
  predicate Departs(s: Screen, i: Input, id: Uuid) {
    match i
    case Receive(m, _) => m.IsInterim() && m.session != NIL && m.session != id
    case Tick(at) => s.hideDeadline.Some? && s.hideDeadline.value <= at
  }

  // All that an input does to a screen that shows `id`, and goes on doing so.
  function ScreenAfter(s: Screen, i: Input, id: Uuid): Screen
    requires s.Shows(id)
  {
    Screen(Some(ViewAfter(s, i, id)), Some(id), NumbersAfter(s, i, id), DeadlineAfter(s, i, id),
           NoticeDeadlineAfter(s, i), s.autoHideMs)
  }

  lemma StateTells(s: Screen, i: Input, id: Uuid)
    requires WellFormed(s) && id != NIL && s.Shows(id) && i.Receive? && i.message.InterimState? && !Departs(s, i, id)
    ensures Step(s, i) == ScreenAfter(s, i, id)
  {
  }

  lemma TextTells(s: Screen, i: Input, id: Uuid)
    requires WellFormed(s) && id != NIL && s.Shows(id) && i.Receive? && i.message.InterimText? && !Departs(s, i, id)
    ensures Step(s, i) == ScreenAfter(s, i, id)
  {
  }

  lemma OtherTells(s: Screen, i: Input, id: Uuid)
    requires WellFormed(s) && id != NIL && s.Shows(id) && !Departs(s, i, id)
    requires i.Receive? ==> !i.message.IsInterim()
    ensures Step(s, i) == ScreenAfter(s, i, id)
  {
  }

  // A screen that shows `id` goes on doing so exactly if the session does not depart; and then each
  // field of it is as told.
  lemma StepTells(s: Screen, i: Input, id: Uuid)
    requires WellFormed(s) && id != NIL && s.Shows(id)
    ensures Step(s, i).Shows(id) <==> !Departs(s, i, id)
    ensures !Departs(s, i, id) ==> Step(s, i) == ScreenAfter(s, i, id)
  {
    if Departs(s, i, id) {
    } else if i.Receive? && i.message.InterimState? {
      StateTells(s, i, id);
    } else if i.Receive? && i.message.InterimText? {
      TextTells(s, i, id);
    } else {
      OtherTells(s, i, id);
    }
  }

  // A session appears with an interim event of its own, or with its end on an empty screen; its view
  // is a blank one, started then, that is told the message.
  predicate Appears(s: Screen, i: Input, id: Uuid) {
    && i.Receive? && i.message.SessionId() == Some(id)
    && (i.message.IsInterim() || (i.message.SessionEnded? && s.visible.None?))
  }

  function BlankView(id: Uuid, mode: Mode, at: nat): View {
    View(id, mode, Listening, "", None, "", None, None, None, false, at, None, None)
  }

  // The screen on which session `id` has just appeared with `m`.
  function FirstScreen(s: Screen, m: Message, at: nat, id: Uuid): Screen {
    Screen(Some(Tell(BlankView(id, if IsAnswer(m) then Llm else Stt, at), m, at)), Some(id),
           if m.IsInterim() then map[m.producer := m.number] else map[],
           if m.SessionEnded? then Some(at + s.autoHideMs) else None, None, s.autoHideMs)
  }

  lemma InterimShows(s: Screen, m: Message, at: nat, id: Uuid)
    requires WellFormed(s) && id != NIL && !s.Shows(id) && m.IsInterimOf(id)
    ensures ApplyInterim(s, m, at).0 == FirstScreen(s, m, at, id)
  {
  }

  lemma OtherShows(s: Screen, i: Input, id: Uuid)
    requires WellFormed(s) && id != NIL && !s.Shows(id) && (i.Receive? ==> !i.message.IsInterimOf(id))
    ensures Step(s, i).Shows(id) <==> Appears(s, i, id)
    ensures Appears(s, i, id) ==> Step(s, i) == FirstScreen(s, i.message, i.at, id)
  {
  }

  lemma StepShows(s: Screen, i: Input, id: Uuid)
    requires WellFormed(s) && id != NIL && !s.Shows(id)
    ensures Step(s, i).Shows(id) <==> Appears(s, i, id)
    ensures Appears(s, i, id) ==> Step(s, i) == FirstScreen(s, i.message, i.at, id)
  {
    if i.Receive? && i.message.IsInterimOf(id) {
      InterimShows(s, i.message, i.at, id);
    } else {
      OtherShows(s, i, id);
    }
  }

  // ---------------------------------------------------------------- runs

  predicate Stays(s: Screen, inputs: seq<Input>, id: Uuid)
    decreases |inputs|
  {
    inputs == [] || (!Departs(s, inputs[0], id) && Stays(Step(s, inputs[0]), inputs[1..], id))
  }

  function Told(s: Screen, inputs: seq<Input>, id: Uuid): Screen
    requires s.Shows(id)
    decreases |inputs|
  {
    if inputs == [] then s else Told(ScreenAfter(s, inputs[0], id), inputs[1..], id)
  }

  // Over any inputs through which a session stays, the screen is what the messages about it tell.
  lemma {:induction false} ScreenIsTold(s: Screen, inputs: seq<Input>, id: Uuid)
    requires WellFormed(s) && id != NIL && s.Shows(id) && Stays(s, inputs, id)
    ensures Feed(s, inputs) == Told(s, inputs, id)
    decreases |inputs|
  {
    if inputs != [] {
      StepTells(s, inputs[0], id);
      StepKeepsWellFormed(s, inputs[0]);
      ScreenIsTold(Step(s, inputs[0]), inputs[1..], id);
    }
  }

  // An input that could change the outcome on the sheet.
  predicate ChangesOutcome(i: Input, id: Uuid) {
    i.Receive? && i.message.SessionId() == Some(id) && (i.message.InjectionComplete? || IsAnswer(i.message))
  }

  // No input ends the timer of session `id`.
  predicate TimerRuns(s: Screen, inputs: seq<Input>, id: Uuid)
    decreases |inputs|
  {
    && s.Shows(id)
    && (inputs == []
        || (&& (inputs[0].Receive? && Counts(s, inputs[0].message, id) ==>
                  !EndsTimer(s.visible.value, inputs[0].message))
            && TimerRuns(Step(s, inputs[0]), inputs[1..], id)))
  }

  lemma {:induction false} TimerKeepsRunning(s: Screen, inputs: seq<Input>, id: Uuid)
    requires WellFormed(s) && id != NIL && TimerRuns(s, inputs, id) && s.visible.value.endedMs.None?
    ensures var t := Feed(s, inputs);
            t.Shows(id) && t.visible.value.endedMs.None? && t.visible.value.startedMs == s.visible.value.startedMs
    decreases |inputs|
  {
    if inputs != [] {
      StepTells(s, inputs[0], id);
      StepKeepsWellFormed(s, inputs[0]);
      TimerKeepsRunning(Step(s, inputs[0]), inputs[1..], id);
    }
  }

  // The timer counts from the session's first message, until something ends it.
  lemma {:induction false} TimerCountsFromFirst(s: Screen, first: Input, inputs: seq<Input>, id: Uuid, now: nat)
    requires WellFormed(s) && id != NIL && !s.Shows(id) && Appears(s, first, id) && !first.message.SessionEnded?
    requires Step(s, first).visible.value.endedMs.None? && TimerRuns(Step(s, first), inputs, id) && first.at <= now
    ensures Feed(Step(s, first), inputs).Shows(id)
    ensures Feed(Step(s, first), inputs).visible.value.ElapsedMs(now) == now - first.at
  {
    StepShows(s, first, id);
    StepKeepsWellFormed(s, first);
    TimerKeepsRunning(Step(s, first), inputs, id);
  }

  // And what ends it first stops it there.
  lemma TimerStops(s: Screen, m: Message, at: nat, id: Uuid, now: nat)
    requires WellFormed(s) && id != NIL && s.Shows(id) && s.visible.value.endedMs.None?
    requires Counts(s, m, id) && EndsTimer(s.visible.value, m) && s.visible.value.startedMs <= at
    ensures var t := Step(s, Receive(m, at));
            t.Shows(id) && t.visible.value.ElapsedMs(now) == at - s.visible.value.startedMs
  {
    StepTells(s, Receive(m, at), id);
  }

  // The outcome of an injection is shown, and nothing but another outcome or an answer event of the
  // session replaces it; the timer stands still from the end on.
  lemma {:induction false} OutcomeStays(s: Screen, inputs: seq<Input>, id: Uuid, success: bool, copyOnly: bool)
    requires WellFormed(s) && id != NIL && s.Shows(id) && Stays(s, inputs, id)
    requires s.visible.value.phase == Done(success) && s.visible.value.copyOnly == copyOnly
    requires s.visible.value.endedMs.Some?
    requires forall k :: 0 <= k < |inputs| ==> !ChangesOutcome(inputs[k], id)
    ensures var t := Feed(s, inputs);
            && t.Shows(id) && t.visible.value.phase == Done(success) && t.visible.value.copyOnly == copyOnly
            && t.visible.value.endedMs == s.visible.value.endedMs
    decreases |inputs|
  {
    if inputs != [] {
      StepTells(s, inputs[0], id);
      StepKeepsWellFormed(s, inputs[0]);
      OutcomeStays(Step(s, inputs[0]), inputs[1..], id, success, copyOnly);
    }
  }

  lemma OutcomeIsShown(s: Screen, id: Uuid, success: bool, copyOnly: bool, at: nat)
    requires WellFormed(s) && id != NIL && s.Shows(id)
    ensures var t := Step(s, Receive(InjectionComplete(id, success, copyOnly), at));
            && t.Shows(id) && t.visible.value.phase == Done(success) && t.visible.value.copyOnly == copyOnly
            && t.visible.value.endedMs.Some? && t.hideDeadline == Some(at + 900)
  {
    StepTells(s, Receive(InjectionComplete(id, success, copyOnly), at), id);
  }

  // The reason on the sheet is that of the last end told about the session.
  lemma {:induction false} ReasonIsLastTold(s: Screen, inputs: seq<Input>, id: Uuid, k: nat)
    requires WellFormed(s) && id != NIL && s.Shows(id) && Stays(s, inputs, id)
    requires k < |inputs| && inputs[k].Receive? && inputs[k].message.SessionEnded? && inputs[k].message.session == id
    requires forall j :: k < j < |inputs| && inputs[j].Receive? && inputs[j].message.SessionEnded? ==>
                           inputs[j].message.session != id
    ensures Feed(s, inputs).Shows(id) && Feed(s, inputs).visible.value.reason == inputs[k].message.reason
    decreases |inputs|
  {
    StepTells(s, inputs[0], id);
    StepKeepsWellFormed(s, inputs[0]);
    if k == 0 {
      ReasonStays(Step(s, inputs[0]), inputs[1..], id);
    } else {
      ReasonIsLastTold(Step(s, inputs[0]), inputs[1..], id, k - 1);
    }
  }

  lemma {:induction false} ReasonStays(s: Screen, inputs: seq<Input>, id: Uuid)
    requires WellFormed(s) && id != NIL && s.Shows(id) && Stays(s, inputs, id)
    requires forall j :: 0 <= j < |inputs| && inputs[j].Receive? && inputs[j].message.SessionEnded? ==>
                           inputs[j].message.session != id
    ensures Feed(s, inputs).Shows(id) && Feed(s, inputs).visible.value.reason == s.visible.value.reason
    decreases |inputs|
  {
    if inputs != [] {
      StepTells(s, inputs[0], id);
      StepKeepsWellFormed(s, inputs[0]);
      ReasonStays(Step(s, inputs[0]), inputs[1..], id);
    }
  }

  // ---------------------------------------------------------------- the busy notice

  // A busy notice is shown on whatever sheet there is, and the end that comes with it clears it once
  // the auto-hide time is over, not before; nothing else of the sheet changes.
  lemma NoticeComesAndGoes(
    s: Screen, id: Uuid, number: nat, text: string, reason: Option<string>, told: nat, ended: nat, now: nat)
    requires WellFormed(s) && id != NIL && s.Shows(id) && s.hideDeadline.None?
    ensures var shown := Step(s, Receive(InterimState(NIL, LlmAnswerDelta, number, text), told));
            var t := Step(Step(shown, Receive(SessionEnded(NIL, reason), ended)), Tick(now));
            && t.Shows(id)
            && t.visible.value == s.visible.value.(notice := if now < ended + s.autoHideMs then Some(text) else None)
  {
    var shown := Receive(InterimState(NIL, LlmAnswerDelta, number, text), told);
    var end := Receive(SessionEnded(NIL, reason), ended);
    var s1 := Step(s, shown);
    StepTells(s, shown, id);
    StepKeepsWellFormed(s, shown);
    var s2 := Step(s1, end);
    StepTells(s1, end, id);
    StepKeepsWellFormed(s1, end);
    StepTells(s2, Tick(now), id);
  }
}
