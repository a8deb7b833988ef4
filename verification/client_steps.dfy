// What each event does, in terms of what can be seen: the session, the wire, the jobs and the
// messages sent to the overlay; and what that makes of whole runs.
module ClientSteps {
  import opened Prelude
  import opened Text
  import opened OverlayIpc
  import opened OverlayRouting
  import opened ClientSession
  import opened ClientLoop
  import opened ClientLoopLaws
  import LlmAnswer
  import opened Subsequences
  import Pipeline

  // ---------------------------------------------------------------- what is injected

  // The daemon's final result for the dictation `id` that is going on.
  predicate DictationResult(c: Client, e: Event, id: Uuid) {
    && e.Daemon? && e.message.FinalResult? && e.message.session == id
    && c.session.Active() == Some(id) && c.session.intent != Some(LlmQuery)
  }

  // What is typed for an answer: the cleaned answer, unless there is none or it is blank.
  predicate Typed(transcript: string, result: LlmResult, text: string) {
    if result.Ok? && !Blank(LlmAnswer.Sanitize(result.answer)) then text == LlmAnswer.Sanitize(result.answer)
    else text == transcript
  }

  lemma AnswerIsCleaned(transcript: string, result: LlmResult)
    ensures Typed(transcript, result, TextToInject(transcript, result))
  {
  }

  // What is typed for an answer is the transcript, or part of the answer without a thinking block.
  lemma TypedIsClean(transcript: string, result: LlmResult, text: string)
    requires Typed(transcript, result, text)
    ensures text == transcript
         || (result.Ok? && !LlmAnswer.Contains(text, "<think>") && Subsequence(text, result.answer))
  {
    if result.Ok? { LlmAnswer.SanitizedAnswer(result.answer); }
  }

  function TypedText(transcript: string, result: LlmResult): (text: string)
    ensures Typed(transcript, result, text)
  {
    AnswerIsCleaned(transcript, result);
    TextToInject(transcript, result)
  }

  // The jobs an event adds: the text of the dictation's result, or what is typed for the answer.
  function InjectedNow(c: Client, e: Event): seq<Job> {
    if e.Daemon? && e.message.FinalResult? && DictationResult(c, e, e.message.session) then
      [Job(e.message.session, e.message.text, RawFinalResult, e.queued, c.drops)]
    else if e.Answering? && FinishesAnswer(c, e, e.progress.session) then
      var text := TypedText(e.progress.transcript, e.progress.result);
      [Job(e.progress.session, text, LlmAnswer, e.queued, c.drops)]
    else []
  }

  lemma DaemonInjects(c: Client, e: Event)
    requires e.Daemon?
    ensures Step(c, e).jobs == c.jobs + InjectedNow(c, e)
  {
  }

  lemma AnsweringInjects(c: Client, e: Event)
    requires e.Answering?
    ensures Step(c, e).jobs == c.jobs + InjectedNow(c, e)
  {
  }

  // An event adds the job of the dictation or the answer it completes, with its text, origin and
  // connection and the queue's answer, and no other.
  lemma StepInjects(c: Client, e: Event)
    ensures Step(c, e).jobs == c.jobs + InjectedNow(c, e)
  {
    match e
    case Daemon(_, _, _) => DaemonInjects(c, e);
    case Answering(_, _, _) => AnsweringInjects(c, e);
    case _ =>
  }

  function InjectedAlong(c: Client, events: seq<Event>): seq<Job>
    decreases |events|
  {
    if events == [] then [] else InjectedNow(c, events[0]) + InjectedAlong(Step(c, events[0]), events[1..])
  }

  lemma {:induction false} RunInjects(c: Client, events: seq<Event>)
    ensures Run(c, events).jobs == c.jobs + InjectedAlong(c, events)
    decreases |events|
  {
    if events == [] {
      assert c.jobs + [] == c.jobs;
    } else {
      var e, rest := events[0], events[1..];
      StepInjects(c, e);
      RunInjects(Step(c, e), rest);
      Joined(c.jobs, InjectedNow(c, e), InjectedAlong(Step(c, e), rest));
    }
  }

  lemma Joined<T>(a: seq<T>, b: seq<T>, c: seq<T>)
    ensures (a + b) + c == a + (b + c)
  {
  }

  // The event that added job `k` of a run.
  lemma {:induction false} JobHasItsEvent(c: Client, events: seq<Event>, k: nat) returns (i: nat)
    requires |c.jobs| <= k < |Run(c, events).jobs|
    ensures i < |events| && InjectedNow(Run(c, events[..i]), events[i]) == [Run(c, events).jobs[k]]
    decreases |events|
  {
    assert events != [];
    var e, rest := events[0], events[1..];
    var d := Step(c, e);
    StepInjects(c, e);
    RunInjects(d, rest);
    if k < |d.jobs| {
      i := 0;
      assert events[..0] == [];
    } else {
      var j := JobHasItsEvent(d, rest, k);
      i := j + 1;
      assert events[..i][0] == e && events[..i][1..] == rest[..j];
    }
  }

  // In every run, what is typed for a dictation is the text of its final result, which the client
  // accepted while that session was the one being dictated.
  lemma {:induction false} DictationIsTypedAsHeard(copyOnly: bool, events: seq<Event>, k: nat) returns (i: nat)
    requires PossibleRun(NewClient(copyOnly), events)
    requires k < |Run(NewClient(copyOnly), events).jobs|
    requires Run(NewClient(copyOnly), events).jobs[k].origin == RawFinalResult
    ensures var j := Run(NewClient(copyOnly), events).jobs[k];
            && i < |events| && events[i].Daemon? && events[i].message == FinalResult(j.session, j.text)
            && events[i].queued == j.queued
            && Run(NewClient(copyOnly), events[..i]).session.Active() == Some(j.session)
            && Run(NewClient(copyOnly), events[..i]).drops == j.epoch
  {
    i := JobHasItsEvent(NewClient(copyOnly), events, k);
  }

  // And what is typed for an answer is what its task delivered, cleaned, or the transcript.
  lemma {:induction false} AnswerIsTypedCleaned(copyOnly: bool, events: seq<Event>, k: nat) returns (i: nat)
    requires PossibleRun(NewClient(copyOnly), events)
    requires k < |Run(NewClient(copyOnly), events).jobs|
    requires Run(NewClient(copyOnly), events).jobs[k].origin == LlmAnswer
    ensures var j := Run(NewClient(copyOnly), events).jobs[k];
            && i < |events| && events[i].Answering? && events[i].progress.Finished?
            && events[i].progress.session == j.session && events[i].queued == j.queued
            && Typed(events[i].progress.transcript, events[i].progress.result, j.text)
            && Run(NewClient(copyOnly), events[..i]).llm.inFlight == Some(j.session)
            && Run(NewClient(copyOnly), events[..i]).drops == j.epoch
  {
    i := JobHasItsEvent(NewClient(copyOnly), events, k);
  }

  // ---------------------------------------------------------------- when a session is dictated, when answered

  predicate Presses(c: Client, e: Event) { e.HotkeyDown? && !c.llm.busy && c.session.ptt.Idle? }

  predicate Releases(c: Client, e: Event) { e.HotkeyUp? && c.session.ptt.Listening? }

  predicate LosesConnection(c: Client, e: Event) {
    || e.ConnectionLost?
    || (Presses(c, e) && !e.delivered)
    || (Releases(c, e) && !e.delivered)
  }

  predicate Begins(c: Client, e: Event, id: Uuid) { Presses(c, e) && e.delivered && e.newId == id }

  // What puts an end to dictating `id`, once it is going on.
  predicate Cuts(c: Client, e: Event, id: Uuid) {
    || LosesConnection(c, e)
    || (e.Daemon? && e.message.Error?)
    || (e.Daemon? && e.message.FinalResult? && e.message.session == id)
  }

  predicate SessionMoves(c: Client, e: Event, d: Client, id: Uuid) {
    && (d.session.ptt == Listening(id) <==>
          Begins(c, e, id) || (c.session.ptt == Listening(id) && !Cuts(c, e, id) && !e.HotkeyUp?))
    && (d.session.ptt == WaitingResult(id) <==>
          || (c.session.ptt == Listening(id) && e == HotkeyUp(true))
          || (c.session.ptt == WaitingResult(id) && !Cuts(c, e, id)))
    && (d.session.Active() == Some(id) ==>
          d.session.intent == if Begins(c, e, id) then Some(e.intent) else c.session.intent)
    && (d.llm.inFlight == Some(id) <==>
          StartsAnswer(c, e, id) || (c.llm.inFlight == Some(id) && !LosesConnection(c, e) && !FinishesAnswer(c, e, id)))
  }

  lemma DaemonMoves(c: Client, e: Event, d: Client, id: Uuid)
    requires StatesAgree(c) && e.Daemon? && DaemonFrame(c, e.message, e.queued, d)
    ensures SessionMoves(c, e, d, id)
  {
  }

  lemma AnsweringMoves(c: Client, e: Event, id: Uuid)
    requires StatesAgree(c) && e.Answering?
    ensures SessionMoves(c, e, Step(c, e), id)
  {
    if FinishesAnswer(c, e, e.progress.session) {
      var _ := FinishingStep(c, e.progress.session, e.progress.transcript, e.progress.result, e.hint, e.queued);
    }
  }

  // A session is listened to, waited for or answered after an event exactly if the event brings it
  // there, or it was there before and the event does not take it away.
  lemma StepMoves(c: Client, e: Event, id: Uuid)
    requires StatesAgree(c)
    ensures SessionMoves(c, e, Step(c, e), id)
  {
    match e
    case Daemon(_, _, _) =>
      DaemonStep(c, e);
      DaemonMoves(c, e, Step(c, e), id);
    case Answering(_, _, _) => AnsweringMoves(c, e, id);
    case _ =>
  }

  // The wire, the connections lost and the busy notices grow exactly so.
  predicate Counts(c: Client, e: Event, d: Client) {
    && d.wire == c.wire + (if Presses(c, e) then [StartSession(e.newId)]
                           else if Releases(c, e) then [StopSession(c.session.ptt.session)]
                           else [])
    && d.drops == c.drops + (if LosesConnection(c, e) then 1 else 0)
    && d.llm.busyNumber == c.llm.busyNumber + (if e.HotkeyDown? && c.llm.busy then 1 else 0)
    && d.started == (if Presses(c, e) then c.started[e.newId := Start(e.intent, c.drops)] else c.started)
    && d.copyOnly == c.copyOnly
  }

  lemma DaemonCounts(c: Client, e: Event, d: Client)
    requires e.Daemon? && DaemonFrame(c, e.message, e.queued, d)
    ensures Counts(c, e, d)
  {
    assert c.wire + [] == c.wire;
  }

  lemma StepCounts(c: Client, e: Event)
    ensures Counts(c, e, Step(c, e))
  {
    assert c.wire + [] == c.wire;
    match e
    case Daemon(_, _, _) =>
      DaemonStep(c, e);
      DaemonCounts(c, e, Step(c, e));
    case Answering(_, _, _) =>
      if FinishesAnswer(c, e, e.progress.session) {
        var _ := FinishingStep(c, e.progress.session, e.progress.transcript, e.progress.result, e.hint, e.queued);
      }
    case _ =>
  }

  // ---------------------------------------------------------------- when a session is dictated, over runs

  lemma {:induction false} RunOneMore(c: Client, events: seq<Event>, e: Event)
    ensures Run(c, events + [e]) == Step(Run(c, events), e)
    ensures PossibleRun(c, events + [e]) <==> PossibleRun(c, events) && Possible(Run(c, events), e)
    decreases |events|
  {
    var longer := events + [e];
    if events == [] {
      assert longer[0] == e && longer[1..] == [];
    } else {
      assert longer[0] == events[0] && longer[1..] == events[1..] + [e];
      RunOneMore(Step(c, events[0]), events[1..], e);
    }
  }

  // Dictating `id` began with event `i`, and no event since cut it.
  predicate DictatedSince(c: Client, events: seq<Event>, id: Uuid, i: int) {
    && 0 <= i < |events| && Begins(Run(c, events[..i]), events[i], id)
    && forall j :: i < j < |events| ==> !Cuts(Run(c, events[..j]), events[j], id)
  }

  lemma ActiveMoves(c: Client, e: Event, id: Uuid)
    requires StatesAgree(c)
    ensures Step(c, e).session.Active() == Some(id) <==>
            Begins(c, e, id) || (c.session.Active() == Some(id) && !Cuts(c, e, id))
  {
    StepMoves(c, e, id);
  }

  // In every run a session is being dictated exactly if a press began it and nothing has cut it
  // since: no lost connection, no daemon error, and no final result of its own.
  lemma {:induction false} DictatedExactly(copyOnly: bool, events: seq<Event>, id: Uuid)
    requires PossibleRun(NewClient(copyOnly), events)
    ensures Run(NewClient(copyOnly), events).session.Active() == Some(id) <==>
            exists i :: DictatedSince(NewClient(copyOnly), events, id, i)
    decreases |events|
  {
    if events != [] {
      var c, n := NewClient(copyOnly), |events| - 1;
      var before, e := events[..n], events[n];
      assert events == before + [e];
      RunOneMore(c, before, e);
      RunKeepsInv(c, before);
      DictatedExactly(copyOnly, before, id);
      ActiveMoves(Run(c, before), e, id);
      SinceOneMore(c, before, e, id);
    }
  }

  lemma SinceOneMore(c: Client, before: seq<Event>, e: Event, id: Uuid)
    ensures (exists i :: DictatedSince(c, before + [e], id, i)) <==>
            || Begins(Run(c, before), e, id)
            || ((exists i :: DictatedSince(c, before, id, i)) && !Cuts(Run(c, before), e, id))
  {
    var events, n := before + [e], |before|;
    assert events[..n] == before && events[n] == e;
    assert forall j :: 0 <= j < n ==> events[..j] == before[..j] && events[j] == before[j];
    forall i
      ensures DictatedSince(c, events, id, i) <==>
                (i == n && Begins(Run(c, before), e, id))
                || (DictatedSince(c, before, id, i) && !Cuts(Run(c, before), e, id))
    {
      if 0 <= i < n && DictatedSince(c, events, id, i) {
        assert !Cuts(Run(c, events[..n]), events[n], id);
        assert forall j :: i < j < n ==> !Cuts(Run(c, events[..j]), events[j], id);
      }
    }
    if Begins(Run(c, before), e, id) { assert DictatedSince(c, events, id, n); }
  }

  // ---------------------------------------------------------------- what is sent to the overlay

  // The router has let nothing of this number through for the session it tracks.
  predicate IsNew(r: Router, id: Uuid, producer: Producer, number: nat) {
    !(r.active == Some(id) && producer in r.lastSeq && number <= r.lastSeq[producer])
  }

  function Hinted(hint: Option<string>, m: Message): seq<Message> {
    if hint.Some? then [OutputHint(hint.value), m] else [m]
  }

  const BUSY_NOTICE := "LLM busy; wait for current answer"

  // The messages an event sends.
  function SentNow(c: Client, e: Event): seq<Message> {
    match e
    case HotkeyDown(_, _, _, hint) =>
      if c.llm.busy then
        Hinted(hint, InterimState(NIL, LlmAnswerDelta, c.llm.busyNumber + 1, BUSY_NOTICE))
        + [SessionEnded(NIL, Some("busy"))]
      else []
    case HotkeyUp(_) => []
    case ConnectionLost => []
    case Report(id, success) => [InjectionComplete(id, success, c.copyOnly)]
    case Answering(Delta(id, delta), hint, _) =>
      if c.llm.inFlight == Some(id) then
        var number, text := NumberOf(c.llm.numbers, id) + 1, TextOf(c.llm.overlayText, id) + delta;
        Hinted(hint, InterimText(id, LlmAnswerDelta, number, text))
      else []
    case Answering(Finished(id, _, _), _, _) =>
      if c.llm.inFlight == Some(id) then [SessionEnded(id, ReasonOf(c.llm.deferredEnd, id))] else []
    case Daemon(DaemonState(id, number, state), hint, _) =>
      if c.session.Active() == Some(id) && IsNew(c.router, id, DaemonSttInterim, number) then
        Hinted(hint, InterimState(id, DaemonSttInterim, number, state))
      else []
    case Daemon(DaemonText(id, number, text), hint, _) =>
      if c.session.Active() == Some(id) && IsNew(c.router, id, DaemonSttInterim, number) then
        Hinted(hint, InterimText(id, DaemonSttInterim, number, text))
      else []
    case Daemon(DaemonAudioLevel(id), _, _) =>
      if c.session.Active() in {None, Some(id)} then [AudioLevel(id)] else []
    case Daemon(DaemonSessionEnded(id, reason), _, _) => if PassesEnd(c, e, id) then [SessionEnded(id, reason)] else []
    case Daemon(DaemonSessionWarning(id, left, limit), _, _) =>
      if c.router.active == Some(id) then [SessionWarning(id, Some(left), Some(limit))] else []
    case Daemon(FinalResult(id, _), hint, _) =>
      if StartsAnswer(c, e, id) then Hinted(hint, InterimState(id, LlmAnswerDelta, 1, "Generating answer...")) else []
    case Daemon(_, _, _) => []
  }

  // The router never holds a busy notice back.
  predicate NoticeReady(r: Router) {
    r.active == Some(NIL) ==> LlmAnswerDelta !in r.lastSeq
  }

  lemma RouteInterimSends(r: Router, expected: Option<Uuid>, m: Message, hint: Option<string>)
    requires m.IsInterim()
    ensures RouteInterim(r, expected, m, hint).sent
         == r.sent
            + if Allows(expected, m.session) && IsNew(r, m.session, m.producer, m.number) then Hinted(hint, m) else []
    ensures NoticeReady(r) && (m.session == NIL ==> m.producer == DaemonSttInterim) ==>
              NoticeReady(RouteInterim(r, expected, m, hint))
  {
    assert r.sent + [] == r.sent;
    if hint.Some? { assert r.sent + [OutputHint(hint.value)] + [m] == r.sent + [OutputHint(hint.value), m]; }
  }

  predicate Sends(c: Client, e: Event, r: Router) {
    r.sent == c.router.sent + SentNow(c, e) && (NoticeReady(c.router) ==> NoticeReady(r))
  }

  lemma NoticeSends(r: Router, m: Message, hint: Option<string>, reason: Option<string>)
    requires NoticeReady(r) && m.IsInterim() && m.session == NIL && m.producer == LlmAnswerDelta
    ensures var s := RouteSessionEnded(RouteInterim(r, None, m, hint), None, NIL, reason);
            s.sent == r.sent + (Hinted(hint, m) + [SessionEnded(NIL, reason)]) && NoticeReady(s)
  {
    RouteInterimSends(r, None, m, hint);
    Joined(r.sent, Hinted(hint, m), [SessionEnded(NIL, reason)]);
  }

  lemma PressSends(c: Client, e: Event)
    requires e.HotkeyDown? && NoticeReady(c.router)
    ensures Sends(c, e, Step(c, e).router)
  {
    assert c.router.sent + [] == c.router.sent;
    if c.llm.busy {
      var m := InterimState(NIL, LlmAnswerDelta, c.llm.busyNumber + 1, BUSY_TEXT);
      NoticeSends(c.router, m, e.hint, Some("busy"));
    }
  }

  lemma DaemonInterimSends(c: Client, e: Event, m: Message)
    requires StatesAgree(c) && e.Daemon?
    requires e.message.DaemonState? || e.message.DaemonText?
    requires m == if e.message.DaemonState? then
                    InterimState(e.message.session, DaemonSttInterim, e.message.number, e.message.state)
                  else InterimText(e.message.session, DaemonSttInterim, e.message.number, e.message.text)
    ensures Sends(c, e, RouteDaemonInterim(c.router, c.session.Active(), m, e.hint))
  {
    assert c.router.sent + [] == c.router.sent;
    RouteInterimSends(c.router, c.session.Active(), m, e.hint);
  }

  lemma DispatchSends(c: Client, e: Event, r: Router)
    requires StatesAgree(c) && e.Daemon? && !e.message.FinalResult?
    requires e.message.DaemonSessionEnded? ==> !DefersEnd(c.llm, c.session, e.message.session)
    requires r == Dispatch(c, e.message, e.hint, e.queued).router
    ensures Sends(c, e, r)
  {
    var m := e.message;
    assert c.router.sent + [] == c.router.sent;
    if m.DaemonState? {
      DaemonInterimSends(c, e, InterimState(m.session, DaemonSttInterim, m.number, m.state));
    } else if m.DaemonText? {
      DaemonInterimSends(c, e, InterimText(m.session, DaemonSttInterim, m.number, m.text));
    }
  }

  lemma DaemonSends(c: Client, e: Event, r: Router)
    requires StatesAgree(c) && SessionsAgree(c) && Pipeline.RouterReady(c)
    requires e.Daemon? && Pipeline.DaemonRoutes(c, e, r)
    ensures Sends(c, e, r)
  {
    var m := e.message;
    assert c.router.sent + [] == c.router.sent;
    if m.DaemonSessionEnded? && DefersEnd(c.llm, c.session, m.session) {
    } else if m.FinalResult? {
      if StartsAnswer(c, e, m.session) {
        assert Current(c, m.session);
        assert Pipeline.Awaited(c, m.session);
        RouteInterimSends(c.router, None, Pipeline.FirstAnswerEvent(c, m.session), e.hint);
      }
    } else {
      DispatchSends(c, e, r);
    }
  }

  lemma AnsweringSends(c: Client, e: Event)
    requires StatesAgree(c) && SessionsAgree(c) && Pipeline.RouterReady(c) && e.Answering?
    ensures Sends(c, e, Step(c, e).router)
  {
    var id := e.progress.session;
    assert c.router.sent + [] == c.router.sent;
    if ExtendsAnswer(c, e, id) {
      assert Current(c, id);
      assert Pipeline.Awaited(c, id);
      Pipeline.DeltaRouting(c, e, id);
      RouteInterimSends(c.router, None, Pipeline.NextAnswerEvent(c, id, e.progress.delta), e.hint);
    } else if FinishesAnswer(c, e, id) {
      var _ := FinishingStep(c, id, e.progress.transcript, e.progress.result, e.hint, e.queued);
    }
  }

  // Every event sends exactly these messages: nothing is dropped but what is stale or foreign, and
  // nothing else is sent.
  lemma StepSends(c: Client, e: Event)
    requires Inv(c) && Pipeline.RouterReady(c) && NoticeReady(c.router)
    ensures Sends(c, e, Step(c, e).router)
  {
    assert c.router.sent + [] == c.router.sent;
    match e
    case HotkeyDown(_, _, _, _) => PressSends(c, e);
    case Daemon(_, _, _) =>
      Pipeline.DaemonRouting(c, e);
      DaemonSends(c, e, Step(c, e).router);
    case Answering(_, _, _) => AnsweringSends(c, e);
    case _ =>
  }

  function SentAlong(c: Client, events: seq<Event>): seq<Message>
    decreases |events|
  {
    if events == [] then [] else SentNow(c, events[0]) + SentAlong(Step(c, events[0]), events[1..])
  }

  lemma {:induction false} RunSends(c: Client, events: seq<Event>)
    requires Inv(c) && Pipeline.RouterReady(c) && NoticeReady(c.router) && PossibleRun(c, events)
    ensures Run(c, events).router.sent == c.router.sent + SentAlong(c, events)
    ensures Pipeline.RouterReady(Run(c, events)) && NoticeReady(Run(c, events).router)
    decreases |events|
  {
    if events == [] {
      assert c.router.sent + [] == c.router.sent;
    } else {
      var e, rest := events[0], events[1..];
      StepSends(c, e);
      StepKeepsInv(c, e);
      Pipeline.StepKeepsRouterReady(c, e);
      RunSends(Step(c, e), rest);
      Joined(c.router.sent, SentNow(c, e), SentAlong(Step(c, e), rest));
    }
  }

  // All messages of a run from the start.
  lemma {:induction false} EverythingSent(copyOnly: bool, events: seq<Event>)
    requires PossibleRun(NewClient(copyOnly), events)
    ensures Run(NewClient(copyOnly), events).router.sent == SentAlong(NewClient(copyOnly), events)
  {
    var c := NewClient(copyOnly);
    RunSends(c, events);
    assert [] + SentAlong(c, events) == SentAlong(c, events);
  }

  // The session the router tracks: the last one acknowledged, or of an event it was handed for the
  // expected session, until its end is sent.
  predicate Tracks(c: Client, e: Event, d: Client) {
    match e
    case Daemon(SessionStarted(id), _, _) => d.router.active == Some(id)
    case Daemon(DaemonState(id, _, _), _, _) =>
      d.router.active == if c.session.Active() == Some(id) then Some(id) else c.router.active
    case Daemon(DaemonText(id, _, _), _, _) =>
      d.router.active == if c.session.Active() == Some(id) then Some(id) else c.router.active
    case Daemon(FinalResult(id, _), _, _) =>
      d.router.active == if StartsAnswer(c, e, id) then Some(id) else c.router.active
    case Daemon(DaemonSessionEnded(id, _), _, _) =>
      d.router.active == if PassesEnd(c, e, id) && c.router.active == Some(id) then None else c.router.active
    case Answering(Delta(id, _), _, _) =>
      d.router.active == if ExtendsAnswer(c, e, id) then Some(id) else c.router.active
    case Answering(Finished(id, _, _), _, _) =>
      d.router.active == if FinishesAnswer(c, e, id) && c.router.active == Some(id) then None else c.router.active
    case HotkeyDown(_, _, _, _) => d.router.active == if c.llm.busy then None else c.router.active
    case _ => d.router.active == c.router.active
  }

  lemma DaemonTracks(c: Client, e: Event)
    requires StatesAgree(c) && e.Daemon?
    ensures Tracks(c, e, Step(c, e))
  {
  }

  lemma StepTracks(c: Client, e: Event)
    requires StatesAgree(c)
    ensures Tracks(c, e, Step(c, e))
  {
    match e
    case Daemon(_, _, _) => DaemonTracks(c, e);
    case _ =>
  }
}
