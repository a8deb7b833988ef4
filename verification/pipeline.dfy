// The client and an uncrashed renderer, joined by the pipe between them. The renderer lags as
// far behind as it likes: messages leave the pipe in order, one at a time, between clock ticks.
module Pipeline {
  import opened Prelude
  import opened OverlayIpc
  import OverlayState
  import OverlayStateLaws
  import opened OverlayRouting
  import opened ClientSession
  import ClientLoop
  import opened ClientLoopLaws

  type Client = ClientLoop.Client
  type Screen = OverlayState.Screen

  // The renderer has consumed the first `delivered` of the messages sent.
  datatype System = System(client: Client, delivered: nat, screen: Screen)

  datatype Move = Loop(event: ClientLoop.Event) | Deliver(at: nat) | Tick(at: nat)

  function NewSystem(copyOnly: bool, autoHideMs: nat): System {
    System(ClientLoop.NewClient(copyOnly), 0, OverlayState.Fresh(autoHideMs))
  }

  predicate Possible(s: System, move: Move) {
    match move
    case Loop(e) => ClientLoop.Possible(s.client, e)
    case Deliver(_) => s.delivered < |s.client.router.sent|
    case Tick(_) => true
  }

  function Step(s: System, move: Move): System
    requires Possible(s, move)
  {
    match move
    case Loop(e) => s.(client := ClientLoop.Step(s.client, e))
    case Deliver(at) =>
      s.(screen := OverlayState.Apply(s.screen, s.client.router.sent[s.delivered], at).0, delivered := s.delivered + 1)
    case Tick(at) => s.(screen := OverlayState.AdvanceTime(s.screen, at).0)
  }

  predicate PossibleRun(s: System, moves: seq<Move>)
    decreases |moves|
  {
    moves == [] || (Possible(s, moves[0]) && PossibleRun(Step(s, moves[0]), moves[1..]))
  }

  function Run(s: System, moves: seq<Move>): System
    requires PossibleRun(s, moves)
    decreases |moves|
  {
    if moves == [] then s else Run(Step(s, moves[0]), moves[1..])
  }

  function Pipe(s: System): seq<Message>
    requires s.delivered <= |s.client.router.sent|
  {
    s.client.router.sent[s.delivered..]
  }

  // ---------------------------------------------------------------- what the client sends

  // What one event may add to the pipe.
  predicate MaySend(c: Client, e: ClientLoop.Event, m: Message) {
    match m
    case OutputHint(_) => true
    case AudioLevel(_) => true
    case SessionWarning(id, _, _) => e.Daemon? && e.message.DaemonSessionWarning? && e.message.session == id
    case InjectionComplete(id, success, _) => e == ClientLoop.Report(id, success) && id in c.closedAt
    case SessionEnded(id, _) => (id == NIL && c.llm.busy) || FinishesAnswer(c, e, id) || PassesEnd(c, e, id)
    case InterimState(id, producer, number, state) =>
      if producer.LlmAnswerDelta? then MaySendAnswer(c, e, id)
      else MaySendInterim(c, e, id) && e.message == DaemonState(id, number, state)
    case InterimText(id, producer, number, text) =>
      if producer.LlmAnswerDelta? then MaySendAnswer(c, e, id)
      else MaySendInterim(c, e, id) && e.message == DaemonText(id, number, text)
  }

  predicate MaySendInterim(c: Client, e: ClientLoop.Event, id: Uuid) {
    e.Daemon? && c.session.Active() == Some(id) && c.llm.inFlight.None?
  }

  predicate MaySendAnswer(c: Client, e: ClientLoop.Event, id: Uuid) {
    (id == NIL && c.llm.busy) || StartsAnswer(c, e, id) || ExtendsAnswer(c, e, id)
  }

  predicate Adds(c: Client, e: ClientLoop.Event, r: Router) {
    && c.router.sent <= r.sent
    && forall k :: |c.router.sent| <= k < |r.sent| ==> MaySend(c, e, r.sent[k])
  }

  lemma RouteInterimAdds(c: Client, e: ClientLoop.Event, expected: Option<Uuid>, m: Message, hint: Option<string>)
    requires m.IsInterim() && (Allows(expected, m.session) ==> MaySend(c, e, m))
    ensures Adds(c, e, RouteInterim(c.router, expected, m, hint))
  {
  }

  lemma RouteEndedAdds(
    c: Client, e: ClientLoop.Event, r: Router, expected: Option<Uuid>, id: Uuid, reason: Option<string>)
    requires Adds(c, e, r) && (Allows(expected, id) ==> MaySend(c, e, SessionEnded(id, reason)))
    ensures Adds(c, e, RouteSessionEnded(r, expected, id, reason))
  {
  }

  lemma BusyAdds(c: Client, e: ClientLoop.Event)
    requires StatesAgree(c) && c.llm.busy && c.llm.inFlight != Some(NIL) && e.HotkeyDown?
    ensures Adds(c, e, ClientLoop.RejectBusy(c, e.hint).router)
  {
    var m := InterimState(NIL, LlmAnswerDelta, c.llm.busyNumber + 1, BUSY_TEXT);
    RouteInterimAdds(c, e, None, m, e.hint);
    RouteEndedAdds(c, e, RouteInterim(c.router, None, m, e.hint), None, NIL, Some("busy"));
  }

  lemma DispatchAdds(c: Client, e: ClientLoop.Event)
    requires StatesAgree(c) && e.Daemon?
    requires e.message.DaemonSessionEnded? ==> !DefersEnd(c.llm, c.session, e.message.session)
    ensures Adds(c, e, ClientLoop.Dispatch(c, e.message, e.hint, e.queued).router)
  {
    var active, m := c.session.Active(), e.message;
    if m.DaemonState? && active.Some? {
      RouteInterimAdds(c, e, active, InterimState(m.session, DaemonSttInterim, m.number, m.state), e.hint);
    } else if m.DaemonText? && active.Some? {
      RouteInterimAdds(c, e, active, InterimText(m.session, DaemonSttInterim, m.number, m.text), e.hint);
    }
  }

  // What a daemon message makes of the router.
  predicate DaemonRoutes(c: Client, e: ClientLoop.Event, r: Router)
    requires e.Daemon?
  {
    var m := e.message;
    if m.DaemonSessionEnded? && DefersEnd(c.llm, c.session, m.session) then r == c.router
    else if m.FinalResult? then
      r == if StartsAnswer(c, e, m.session) then RouteInterim(c.router, None, FirstAnswerEvent(c, m.session), e.hint)
           else c.router
    else r == ClientLoop.Dispatch(c, m, e.hint, e.queued).router
  }

  lemma DaemonRouting(c: Client, e: ClientLoop.Event)
    requires e.Daemon?
    ensures DaemonRoutes(c, e, ClientLoop.Step(c, e).router)
  {
  }

  lemma DaemonAdds(c: Client, e: ClientLoop.Event, r: Router)
    requires StatesAgree(c) && e.Daemon? && DaemonRoutes(c, e, r)
    ensures Adds(c, e, r)
  {
    var m := e.message;
    if m.DaemonSessionEnded? && DefersEnd(c.llm, c.session, m.session) {
    } else if m.FinalResult? {
      if StartsAnswer(c, e, m.session) {
        RouteInterimAdds(c, e, None, FirstAnswerEvent(c, m.session), e.hint);
      }
    } else {
      DispatchAdds(c, e);
    }
  }

  function FirstAnswerEvent(c: Client, id: Uuid): Message {
    InterimState(id, LlmAnswerDelta, NumberOf(c.llm.numbers, id) + 1, GENERATING_TEXT)
  }

  function NextAnswerEvent(c: Client, id: Uuid, delta: string): Message {
    InterimText(id, LlmAnswerDelta, NumberOf(c.llm.numbers, id) + 1, TextOf(c.llm.overlayText, id) + delta)
  }

  // The one answer event that starting or extending an answer sends.
  function AnswerEvent(c: Client, e: ClientLoop.Event, id: Uuid): Message
    requires StartsAnswer(c, e, id) || ExtendsAnswer(c, e, id)
  {
    if e.Daemon? then FirstAnswerEvent(c, id) else NextAnswerEvent(c, id, e.progress.delta)
  }

  lemma DeltaRouting(c: Client, e: ClientLoop.Event, id: Uuid)
    requires ExtendsAnswer(c, e, id)
    ensures ClientLoop.Step(c, e).router
         == RouteInterim(c.router, None, NextAnswerEvent(c, id, e.progress.delta), e.hint)
  {
  }

  lemma DeltaAdds(c: Client, e: ClientLoop.Event, id: Uuid, r: Router)
    requires ExtendsAnswer(c, e, id)
    requires r == RouteInterim(c.router, None, NextAnswerEvent(c, id, e.progress.delta), e.hint)
    ensures Adds(c, e, r)
  {
    RouteInterimAdds(c, e, None, NextAnswerEvent(c, id, e.progress.delta), e.hint);
  }

  lemma FinishAdds(c: Client, e: ClientLoop.Event, id: Uuid)
    requires StatesAgree(c) && FinishesAnswer(c, e, id)
    ensures Adds(c, e, ClientLoop.Step(c, e).router)
  {
    var _ := FinishingStep(c, id, e.progress.transcript, e.progress.result, e.hint, e.queued);
    RouteEndedAdds(c, e, c.router, None, id, ReasonOf(c.llm.deferredEnd, id));
  }

  lemma AnsweringAdds(c: Client, e: ClientLoop.Event)
    requires StatesAgree(c) && e.Answering?
    ensures Adds(c, e, ClientLoop.Step(c, e).router)
  {
    var id := e.progress.session;
    if ExtendsAnswer(c, e, id) {
      DeltaRouting(c, e, id);
      DeltaAdds(c, e, id, ClientLoop.Step(c, e).router);
    } else if FinishesAnswer(c, e, id) {
      FinishAdds(c, e, id);
    }
  }

  lemma StepAdds(c: Client, e: ClientLoop.Event)
    requires StatesAgree(c) && JobsAgree(c) && c.llm.inFlight != Some(NIL) && ClientLoop.Possible(c, e)
    ensures Adds(c, e, ClientLoop.Step(c, e).router)
  {
    match e
    case HotkeyDown(_, _, _, hint) => if c.llm.busy { BusyAdds(c, e); }
    case Daemon(_, _, _) =>
      DaemonRouting(c, e);
      DaemonAdds(c, e, ClientLoop.Step(c, e).router);
    case Answering(_, _, _) => AnsweringAdds(c, e);
    case _ =>
  }

  // ---------------------------------------------------------------- the router never holds an answer back

  // No answer has been started for `id` yet.
  predicate Unanswered(c: Client, id: Uuid) {
    id != NIL && (id !in c.started || c.session.Active() == Some(id))
  }

  predicate Awaited(c: Client, id: Uuid) {
    id != NIL && (Unanswered(c, id) || c.llm.inFlight == Some(id))
  }

  // The router's record for `id` is not ahead of number `n`.
  predicate NotAhead(r: Router, id: Uuid, n: nat) {
    r.active == Some(id) && LlmAnswerDelta in r.lastSeq ==> r.lastSeq[LlmAnswerDelta] <= n
  }

  ghost predicate RouterReady(c: Client) {
    forall id :: Awaited(c, id) ==> NotAhead(c.router, id, NumberOf(c.llm.numbers, id))
  }

  lemma RouteOtherKeepsNotAhead(r: Router, expected: Option<Uuid>, m: Message, hint: Option<string>, id: Uuid, n: nat)
    requires m.IsInterim() && NotAhead(r, id, n) && !m.IsAnswerOf(id)
    ensures NotAhead(RouteInterim(r, expected, m, hint), id, n)
  {
  }

  function HintMessages(hint: Option<string>): seq<Message> {
    if hint.None? then [] else [OutputHint(hint.value)]
  }

  // A newer answer event gets through, as the last message sent.
  lemma NewerAnswerGetsThrough(r: Router, m: Message, hint: Option<string>, n: nat)
    requires m.IsInterim() && m.producer == LlmAnswerDelta && NotAhead(r, m.session, n) && n < m.number
    ensures RouteInterim(r, None, m, hint).sent == r.sent + HintMessages(hint) + [m]
    ensures NotAhead(RouteInterim(r, None, m, hint), m.session, m.number)
  {
    assert r.sent + [] == r.sent;
  }

  lemma DaemonKeepsNotAhead(c: Client, e: ClientLoop.Event, r: Router, id: Uuid, n: nat)
    requires id != NIL && NotAhead(c.router, id, n) && e.Daemon? && !StartsAnswer(c, e, id) && DaemonRoutes(c, e, r)
    ensures NotAhead(r, id, n)
  {
    var m := e.message;
    if m.FinalResult? && StartsAnswer(c, e, m.session) {
      RouteOtherKeepsNotAhead(c.router, None, FirstAnswerEvent(c, m.session), e.hint, id, n);
    }
  }

  lemma AnsweringKeepsNotAhead(c: Client, e: ClientLoop.Event, id: Uuid, n: nat)
    requires id != NIL && NotAhead(c.router, id, n) && e.Answering? && !ExtendsAnswer(c, e, id)
    ensures NotAhead(ClientLoop.Step(c, e).router, id, n)
  {
    var other := e.progress.session;
    if c.llm.inFlight == Some(other) {
      match e.progress
      case Delta(_, delta) =>
        RouteOtherKeepsNotAhead(c.router, None, NextAnswerEvent(c, other, delta), e.hint, id, n);
      case Finished(_, transcript, result) =>
        var _ := FinishingStep(c, other, transcript, result, e.hint, e.queued);
    }
  }

  lemma OtherEventsKeepNotAhead(c: Client, e: ClientLoop.Event, id: Uuid, n: nat)
    requires id != NIL && NotAhead(c.router, id, n)
    requires !StartsAnswer(c, e, id) && !ExtendsAnswer(c, e, id)
    ensures NotAhead(ClientLoop.Step(c, e).router, id, n)
  {
    match e
    case HotkeyDown(_, _, _, hint) =>
      var m := InterimState(NIL, LlmAnswerDelta, c.llm.busyNumber + 1, BUSY_TEXT);
      RouteOtherKeepsNotAhead(c.router, None, m, hint, id, n);
    case Daemon(_, _, _) =>
      DaemonRouting(c, e);
      DaemonKeepsNotAhead(c, e, ClientLoop.Step(c, e).router, id, n);
    case Answering(_, _, _) => AnsweringKeepsNotAhead(c, e, id, n);
    case _ =>
  }

  // The event that starts or extends the answer to `id` sends exactly one answer event, numbered next.
  lemma AnswerEventIsSent(c: Client, e: ClientLoop.Event, id: Uuid)
    requires StatesAgree(c) && (StartsAnswer(c, e, id) || ExtendsAnswer(c, e, id))
    requires NotAhead(c.router, id, NumberOf(c.llm.numbers, id))
    ensures var d := ClientLoop.Step(c, e);
            var m := AnswerEvent(c, e, id);
            && d.router.sent == c.router.sent + HintMessages(e.hint) + [m]
            && d.llm.inFlight == Some(id) && NumberOf(d.llm.numbers, id) == m.number
            && NotAhead(d.router, id, m.number)
            && (e.Answering? ==> TextOf(d.llm.overlayText, id) == m.text)
            && (e.Daemon? ==> TextOf(d.llm.overlayText, id) == TextOf(c.llm.overlayText, id))
  {
    var m := AnswerEvent(c, e, id);
    NewerAnswerGetsThrough(c.router, m, e.hint, NumberOf(c.llm.numbers, id));
  }

  // Who is awaited after an event was awaited before it, and keeps number and text unless it is its turn.
  predicate StillAwaited(c: Client, e: ClientLoop.Event, d: Client, id: Uuid) {
    Awaited(d, id) ==>
      && Awaited(c, id)
      && (!StartsAnswer(c, e, id) && !ExtendsAnswer(c, e, id) ==>
            && NumberOf(d.llm.numbers, id) == NumberOf(c.llm.numbers, id)
            && TextOf(d.llm.overlayText, id) == TextOf(c.llm.overlayText, id)
            && (d.llm.inFlight == Some(id) ==> c.llm.inFlight == Some(id)))
  }

  lemma DaemonAwaits(c: Client, e: ClientLoop.Event, d: Client, id: Uuid)
    requires StatesAgree(c) && e.Daemon? && DaemonFrame(c, e.message, e.queued, d)
    ensures StillAwaited(c, e, d, id)
  {
  }

  lemma AnsweringAwaits(c: Client, e: ClientLoop.Event, id: Uuid)
    requires StatesAgree(c) && e.Answering?
    requires c.llm.inFlight.Some? ==> c.llm.inFlight.value in c.started
    ensures StillAwaited(c, e, ClientLoop.Step(c, e), id)
  {
    if e.progress.Finished? && c.llm.inFlight == Some(e.progress.session) {
      var _ := FinishingStep(c, e.progress.session, e.progress.transcript, e.progress.result, e.hint, e.queued);
    }
  }

  lemma AwaitedBefore(c: Client, e: ClientLoop.Event, id: Uuid)
    requires StatesAgree(c) && SessionsAgree(c) && ClientLoop.Possible(c, e)
    ensures StillAwaited(c, e, ClientLoop.Step(c, e), id)
  {
    assert forall a :: Current(c, a) ==> a in c.started;
    match e
    case Daemon(_, _, _) =>
      DaemonStep(c, e);
      DaemonAwaits(c, e, ClientLoop.Step(c, e), id);
    case Answering(_, _, _) => AnsweringAwaits(c, e, id);
    case _ =>
  }

  lemma StepKeepsRouterReady(c: Client, e: ClientLoop.Event)
    requires Inv(c) && RouterReady(c) && ClientLoop.Possible(c, e)
    ensures RouterReady(ClientLoop.Step(c, e))
  {
    var d := ClientLoop.Step(c, e);
    forall id | Awaited(d, id)
      ensures NotAhead(d.router, id, NumberOf(d.llm.numbers, id))
    {
      AwaitedBefore(c, e, id);
      if StartsAnswer(c, e, id) || ExtendsAnswer(c, e, id) {
        AnswerEventIsSent(c, e, id);
      } else {
        OtherEventsKeepNotAhead(c, e, id, NumberOf(c.llm.numbers, id));
      }
    }
  }

  // ---------------------------------------------------------------- what the pipe will show

  // How far the renderer has got with one answer.
  datatype Progressing = Waiting | Showing(number: nat, text: string)

  predicate OnScreen(s: Screen, id: Uuid, p: Progressing) {
    match p
    case Waiting =>
      && !(s.active == Some(id) && LlmAnswerDelta in s.lastSeq)
      && (s.Shows(id) ==> s.visible.value.answer == "")
    case Showing(number, text) =>
      && s.Shows(id) && s.active == Some(id)
      && s.visible.value.mode == OverlayState.Llm && s.visible.value.phase == OverlayState.Answering
      && s.visible.value.answer == text
      && s.hideDeadline.None?
      && LlmAnswerDelta in s.lastSeq && s.lastSeq[LlmAnswerDelta] == number
  }

  // A message that leaves another session's answer on the screen alone.
  predicate Harmless(m: Message, id: Uuid) {
    && (m.IsInterim() ==> m.session == NIL)
    && (m.SessionEnded? || m.InjectionComplete? ==> m.session != id)
  }

  predicate Accepts(p: Progressing, m: Message, id: Uuid) {
    if m.IsAnswerOf(id) then p.Waiting? || p.number < m.number
    else p.Waiting? || Harmless(m, id)
  }

  function After(p: Progressing, m: Message, id: Uuid): Progressing {
    if !m.IsAnswerOf(id) then p
    else Showing(m.number, if m.InterimText? then m.text else if p.Showing? then p.text else "")
  }

  // Consuming `pipe` takes the renderer from `p` to `q`, dropping none of the answer's events.
  predicate Leads(p: Progressing, pipe: seq<Message>, id: Uuid, q: Progressing)
    decreases |pipe|
  {
    if pipe == [] then p == q
    else Accepts(p, pipe[0], id) && Leads(After(p, pipe[0], id), pipe[1..], id, q)
  }

  lemma {:induction false} LeadsAppend(p: Progressing, pipe: seq<Message>, id: Uuid, q: Progressing, m: Message)
    requires Leads(p, pipe, id, q) && Accepts(q, m, id)
    ensures Leads(p, pipe + [m], id, After(q, m, id))
    decreases |pipe|
  {
    var longer := pipe + [m];
    if pipe == [] {
      assert longer[1..] == [];
    } else {
      assert longer[1..] == pipe[1..] + [m];
      LeadsAppend(After(p, pipe[0], id), pipe[1..], id, q, m);
    }
  }

  lemma {:induction false} LeadsThroughOthers(
    p: Progressing, pipe: seq<Message>, id: Uuid, q: Progressing, more: seq<Message>)
    requires Leads(p, pipe, id, q)
    requires forall k :: 0 <= k < |more| ==> !more[k].IsAnswerOf(id) && Accepts(q, more[k], id)
    ensures Leads(p, pipe + more, id, q)
    decreases |more|
  {
    if more == [] {
      assert pipe + more == pipe;
    } else {
      LeadsAppend(p, pipe, id, q, more[0]);
      assert pipe + more == (pipe + [more[0]]) + more[1..];
      LeadsThroughOthers(p, pipe + [more[0]], id, q, more[1..]);
    }
  }

  lemma InterimProgresses(s: Screen, id: Uuid, p: Progressing, m: Message, at: nat)
    requires id != NIL && m.IsInterim() && OnScreen(s, id, p) && Accepts(p, m, id)
    ensures OnScreen(OverlayState.ApplyInterim(s, m, at).0, id, After(p, m, id))
  {
  }

  lemma DeliveryProgresses(s: Screen, id: Uuid, p: Progressing, m: Message, at: nat)
    requires OverlayStateLaws.WellFormed(s) && id != NIL
    requires OnScreen(s, id, p) && Accepts(p, m, id)
    ensures OnScreen(OverlayState.Apply(s, m, at).0, id, After(p, m, id))
  {
    if m.IsInterim() {
      InterimProgresses(s, id, p, m, at);
    }
  }

  lemma TickChangesNothing(s: Screen, id: Uuid, p: Progressing, at: nat)
    requires OnScreen(s, id, p)
    ensures OnScreen(OverlayState.AdvanceTime(s, at).0, id, p)
  {
  }

  // ---------------------------------------------------------------- the system invariant

  // What the renderer will show of an answer once it has caught up.
  function Due(c: Client, id: Uuid): Progressing {
    if c.llm.inFlight == Some(id) then Showing(NumberOf(c.llm.numbers, id), TextOf(c.llm.overlayText, id))
    else Waiting
  }

  // From where the renderer is, the pipe leads to what is due for `id`.
  ghost predicate OnTrack(s: System, id: Uuid) {
    && s.delivered <= |s.client.router.sent|
    && exists p :: OnScreen(s.screen, id, p) && Leads(p, Pipe(s), id, Due(s.client, id))
  }

  // Once closed, a session gets no further interim events; a finished answer ends its session.
  ghost predicate ClosedIsQuiet(c: Client) {
    forall id :: id in c.closedAt && id in c.started ==>
      && c.closedAt[id] <= |c.router.sent|
      && (forall k :: c.closedAt[id] <= k < |c.router.sent| ==> !c.router.sent[k].IsInterimOf(id))
      && (c.started[id].intent == LlmQuery ==>
            && c.closedAt[id] < |c.router.sent|
            && c.router.sent[c.closedAt[id]].SessionEnded?
            && c.router.sent[c.closedAt[id]].session == id)
  }

  predicate Ends(m: Message, id: Uuid) {
    (m.SessionEnded? || m.InjectionComplete?) && m.session == id
  }

  predicate EndsBetween(sent: seq<Message>, id: Uuid, from: nat, to: nat)
    requires to <= |sent|
  {
    exists k :: from <= k < to && Ends(sent[k], id)
  }

  // The renderer has consumed an end or an outcome of `id` that was sent once `id` was closed.
  predicate EndSeen(s: System, id: Uuid)
    requires id in s.client.closedAt && s.delivered <= |s.client.router.sent|
  {
    EndsBetween(s.client.router.sent, id, s.client.closedAt[id], s.delivered)
  }

  // A closed session whose end the renderer has seen is off the screen or about to leave it.
  ghost predicate EndedLeaves(s: System)
    requires s.delivered <= |s.client.router.sent|
  {
    forall id :: id in s.client.closedAt && id in s.client.started && EndSeen(s, id) && s.screen.Shows(id) ==>
      s.screen.hideDeadline.Some?
  }

  ghost predicate SystemInv(s: System) {
    && Inv(s.client) && RouterReady(s.client)
    && OverlayStateLaws.WellFormed(s.screen)
    && s.delivered <= |s.client.router.sent|
    && (forall id :: Awaited(s.client, id) ==> OnTrack(s, id))
    && ClosedIsQuiet(s.client)
    && EndedLeaves(s)
  }

  // ---------------------------------------------------------------- every move keeps it

  lemma SentToOthers(c: Client, e: ClientLoop.Event, id: Uuid, m: Message)
    requires StatesAgree(c) && MaySend(c, e, m) && id !in c.closedAt && id != NIL
    requires !StartsAnswer(c, e, id) && !ExtendsAnswer(c, e, id) && !FinishesAnswer(c, e, id)
    ensures !m.IsAnswerOf(id) && Accepts(Due(c, id), m, id)
  {
  }

  lemma NotFinished(c: Client, e: ClientLoop.Event, id: Uuid)
    requires StatesAgree(c) && SessionsAgree(c) && FinishesAnswer(c, e, id)
    ensures !Awaited(ClientLoop.Step(c, e), id)
  {
    assert Current(c, id);
    var _ := FinishingStep(c, id, e.progress.transcript, e.progress.result, e.hint, e.queued);
  }

  lemma DueAfterAnswerEvent(c: Client, e: ClientLoop.Event, id: Uuid)
    requires StatesAgree(c) && NotAhead(c.router, id, NumberOf(c.llm.numbers, id))
    requires StartsAnswer(c, e, id) || ExtendsAnswer(c, e, id)
    ensures var m := AnswerEvent(c, e, id);
            && m.IsAnswerOf(id) && Accepts(Due(c, id), m, id)
            && After(Due(c, id), m, id) == Due(ClientLoop.Step(c, e), id)
  {
    AnswerEventIsSent(c, e, id);
    assert e.Daemon? ==> TextOf(c.llm.overlayText, id) == "";
  }

  // Sending hints and one event of the answer, and expecting it to show, stays on track.
  lemma AnswerEventStaysOnTrack(s: System, d: Client, hint: Option<string>, m: Message, id: Uuid)
    requires OnTrack(s, id)
    requires d.router.sent == s.client.router.sent + HintMessages(hint) + [m]
    requires Accepts(Due(s.client, id), m, id) && After(Due(s.client, id), m, id) == Due(d, id)
    ensures OnTrack(s.(client := d), id)
  {
    var pipe, hints, due := Pipe(s), HintMessages(hint), Due(s.client, id);
    var p :| OnScreen(s.screen, id, p) && Leads(p, pipe, id, due);
    assert d.router.sent[s.delivered..] == pipe + hints + [m];
    LeadsThroughOthers(p, pipe, id, due, hints);
    LeadsAppend(p, pipe + hints, id, due, m);
  }

  lemma PipeGrows(sent: seq<Message>, longer: seq<Message>, delivered: nat)
    requires delivered <= |sent| && sent <= longer
    ensures longer[delivered..] == sent[delivered..] + longer[|sent|..]
  {
  }

  lemma OtherEventStaysOnTrack(s: System, e: ClientLoop.Event, d: Client, id: Uuid)
    requires StatesAgree(s.client) && id !in s.client.closedAt && id != NIL
    requires !StartsAnswer(s.client, e, id) && !ExtendsAnswer(s.client, e, id) && !FinishesAnswer(s.client, e, id)
    requires Adds(s.client, e, d.router) && Due(d, id) == Due(s.client, id)
    requires OnTrack(s, id)
    ensures OnTrack(s.(client := d), id)
  {
    var c, pipe, added := s.client, Pipe(s), d.router.sent[|s.client.router.sent|..];
    PipeGrows(c.router.sent, d.router.sent, s.delivered);
    var p :| OnScreen(s.screen, id, p) && Leads(p, pipe, id, Due(c, id));
    forall k | 0 <= k < |added|
      ensures !added[k].IsAnswerOf(id) && Accepts(Due(c, id), added[k], id)
    {
      assert added[k] == d.router.sent[|c.router.sent| + k];
      SentToOthers(c, e, id, added[k]);
    }
    LeadsThroughOthers(p, pipe, id, Due(c, id), added);
  }

  lemma LoopKeepsOnTrack(s: System, e: ClientLoop.Event, id: Uuid)
    requires Inv(s.client) && RouterReady(s.client) && ClientLoop.Possible(s.client, e)
    requires forall x :: Awaited(s.client, x) ==> OnTrack(s, x)
    requires Awaited(ClientLoop.Step(s.client, e), id)
    ensures OnTrack(s.(client := ClientLoop.Step(s.client, e)), id)
  {
    var c := s.client;
    AwaitedBefore(c, e, id);
    assert id !in c.closedAt;
    if StartsAnswer(c, e, id) || ExtendsAnswer(c, e, id) {
      AnswerEventIsSent(c, e, id);
      DueAfterAnswerEvent(c, e, id);
      AnswerEventStaysOnTrack(s, ClientLoop.Step(c, e), e.hint, AnswerEvent(c, e, id), id);
    } else {
      if FinishesAnswer(c, e, id) {
        NotFinished(c, e, id);
      }
      StepAdds(c, e);
      AwaitedStaysDue(c, e, id);
      OtherEventStaysOnTrack(s, e, ClientLoop.Step(c, e), id);
    }
  }

  lemma AwaitedStaysDue(c: Client, e: ClientLoop.Event, id: Uuid)
    requires Inv(c) && ClientLoop.Possible(c, e) && Awaited(ClientLoop.Step(c, e), id)
    requires !StartsAnswer(c, e, id) && !ExtendsAnswer(c, e, id)
    ensures Due(ClientLoop.Step(c, e), id) == Due(c, id)
  {
    AwaitedBefore(c, e, id);
    if c.llm.inFlight == Some(id) {
      assert Current(c, id);
      AnswerInFlightIsUndisturbed(c, e);
    }
  }

  // The user's dictation `id` gets its final result.
  predicate AcceptsDictation(c: Client, e: ClientLoop.Event, id: Uuid) {
    && e.Daemon? && e.message.FinalResult? && e.message.session == id
    && c.session.Active() == Some(id) && c.session.intent != Some(LlmQuery)
  }

  // How an event closes session `id`: its dictation's final result sends nothing, its answer's
  // completion sends its end.
  predicate Closes(c: Client, e: ClientLoop.Event, d: Client, id: Uuid) {
    && d.closedAt == c.closedAt[id := |c.router.sent|]
    && (|| (AcceptsDictation(c, e, id) && d.router.sent == c.router.sent)
        || (&& FinishesAnswer(c, e, id)
            && |d.router.sent| == |c.router.sent| + 1
            && d.router.sent[|c.router.sent|].SessionEnded?
            && d.router.sent[|c.router.sent|].session == id))
  }

  lemma DaemonCloses(c: Client, e: ClientLoop.Event, d: Client)
    requires e.Daemon? && DaemonFrame(c, e.message, e.queued, d)
    ensures d.closedAt == c.closedAt || (e.message.FinalResult? && Closes(c, e, d, e.message.session))
  {
  }

  lemma StepCloses(c: Client, e: ClientLoop.Event) returns (id: Uuid)
    requires StatesAgree(c)
    ensures ClientLoop.Step(c, e).closedAt == c.closedAt || Closes(c, e, ClientLoop.Step(c, e), id)
  {
    id := NIL;
    if e.Answering? {
      id := e.progress.session;
      if e.progress.Finished? && c.llm.inFlight == Some(id) {
        var _ := FinishingStep(c, id, e.progress.transcript, e.progress.result, e.hint, e.queued);
      }
    } else if e.Daemon? {
      id := if e.message.FinalResult? then e.message.session else NIL;
      DaemonStep(c, e);
      DaemonCloses(c, e, ClientLoop.Step(c, e));
    }
  }

  lemma ClosedGetsNoInterim(c: Client, e: ClientLoop.Event, id: Uuid, m: Message)
    requires SessionsAgree(c) && id in c.closedAt && MaySend(c, e, m)
    ensures !m.IsInterimOf(id)
  {
    assert !Current(c, id) && id != NIL;
  }

  lemma StartedStays(c: Client, e: ClientLoop.Event, id: Uuid)
    requires ClientLoop.Possible(c, e) && id in c.started
    ensures id in ClientLoop.Step(c, e).started && ClientLoop.Step(c, e).started[id] == c.started[id]
  {
    StepOnlyAdds(c, e);
  }

  lemma LoopKeepsQuiet(c: Client, e: ClientLoop.Event)
    requires Inv(c) && ClosedIsQuiet(c) && ClientLoop.Possible(c, e)
    ensures ClosedIsQuiet(ClientLoop.Step(c, e))
  {
    var d := ClientLoop.Step(c, e);
    StepAdds(c, e);
    var closing := StepCloses(c, e);
    forall id | id in d.closedAt && id in d.started
      ensures && d.closedAt[id] <= |d.router.sent|
              && (forall k :: d.closedAt[id] <= k < |d.router.sent| ==> !d.router.sent[k].IsInterimOf(id))
              && (d.started[id].intent == LlmQuery ==>
                    && d.closedAt[id] < |d.router.sent|
                    && d.router.sent[d.closedAt[id]].SessionEnded?
                    && d.router.sent[d.closedAt[id]].session == id)
    {
      if id in c.closedAt {
        assert !Current(c, id);
        StartedStays(c, e, id);
        forall k | |c.router.sent| <= k < |d.router.sent|
          ensures !d.router.sent[k].IsInterimOf(id)
        {
          ClosedGetsNoInterim(c, e, id, d.router.sent[k]);
        }
      } else {
        assert Current(c, id);
        StartedStays(c, e, id);
      }
    }
  }

  lemma LoopKeepsEndedLeaves(s: System, e: ClientLoop.Event)
    requires SystemInv(s) && ClientLoop.Possible(s.client, e)
    requires Adds(s.client, e, ClientLoop.Step(s.client, e).router)
    ensures EndedLeaves(s.(client := ClientLoop.Step(s.client, e)))
  {
    var c, d := s.client, ClientLoop.Step(s.client, e);
    var t := s.(client := d);
    var closing := StepCloses(c, e);
    forall id | id in d.closedAt && id in d.started && EndSeen(t, id) && s.screen.Shows(id)
      ensures s.screen.hideDeadline.Some?
    {
      var k :| d.closedAt[id] <= k < s.delivered && Ends(d.router.sent[k], id);
      assert d.closedAt[id] != |c.router.sent|;
      assert id in c.closedAt && c.closedAt[id] == d.closedAt[id];
      assert c.router.sent[k] == d.router.sent[k];
    }
  }

  lemma LoopKeepsSystemInv(s: System, e: ClientLoop.Event)
    requires SystemInv(s) && ClientLoop.Possible(s.client, e)
    ensures SystemInv(Step(s, Loop(e)))
  {
    var c, d := s.client, ClientLoop.Step(s.client, e);
    StepKeepsInv(c, e);
    StepKeepsRouterReady(c, e);
    StepAdds(c, e);
    forall id | Awaited(d, id)
      ensures OnTrack(Step(s, Loop(e)), id)
    {
      LoopKeepsOnTrack(s, e, id);
    }
    LoopKeepsQuiet(c, e);
    LoopKeepsEndedLeaves(s, e);
  }

  lemma DeliverKeepsOnTrack(s: System, at: nat, id: Uuid)
    requires OverlayStateLaws.WellFormed(s.screen) && id != NIL
    requires OnTrack(s, id) && s.delivered < |s.client.router.sent|
    ensures OnTrack(Step(s, Deliver(at)), id)
  {
    var pipe, t := Pipe(s), Step(s, Deliver(at));
    var p :| OnScreen(s.screen, id, p) && Leads(p, pipe, id, Due(s.client, id));
    DeliveryProgresses(s.screen, id, p, pipe[0], at);
    assert Pipe(t) == pipe[1..];
    assert OnScreen(t.screen, id, After(p, pipe[0], id));
  }

  lemma DeliverKeepsLeaving(s: System, at: nat, id: Uuid)
    requires SystemInv(s) && s.delivered < |s.client.router.sent|
    requires id in s.client.closedAt && EndSeen(s, id) && Step(s, Deliver(at)).screen.Shows(id)
    ensures Step(s, Deliver(at)).screen.hideDeadline.Some?
  {
    var input := OverlayStateLaws.Receive(s.client.router.sent[s.delivered], at);
    assert id in s.client.started;
    assert OverlayStateLaws.NoInterimOf(id, [input]);
    OverlayStateLaws.StepKeepsLeaving(s.screen, input, id, s.screen.hideDeadline.GetOr(0));
  }

  lemma DeliverKeepsEndedLeaves(s: System, at: nat)
    requires SystemInv(s) && s.delivered < |s.client.router.sent|
    ensures EndedLeaves(Step(s, Deliver(at)))
  {
    var c, t := s.client, Step(s, Deliver(at));
    forall id | id in c.closedAt && id in c.started && EndSeen(t, id) && t.screen.Shows(id)
      ensures t.screen.hideDeadline.Some?
    {
      if EndSeen(s, id) {
        DeliverKeepsLeaving(s, at, id);
      } else {
        assert Ends(c.router.sent[s.delivered], id);
      }
    }
  }

  lemma MoveKeepsSystemInv(s: System, move: Move)
    requires SystemInv(s) && Possible(s, move)
    ensures SystemInv(Step(s, move))
  {
    match move
    case Loop(e) => LoopKeepsSystemInv(s, e);
    case Deliver(at) =>
      OverlayStateLaws.StepKeepsWellFormed(s.screen, OverlayStateLaws.Receive(s.client.router.sent[s.delivered], at));
      forall id | Awaited(s.client, id)
        ensures OnTrack(Step(s, move), id)
      {
        DeliverKeepsOnTrack(s, at, id);
      }
      DeliverKeepsEndedLeaves(s, at);
    case Tick(at) =>
      OverlayStateLaws.StepKeepsWellFormed(s.screen, OverlayStateLaws.Tick(at));
      forall id | Awaited(s.client, id)
        ensures OnTrack(Step(s, move), id)
      {
        TickKeepsOnTrack(s, at, id);
      }
  }

  lemma TickKeepsOnTrack(s: System, at: nat, id: Uuid)
    requires OnTrack(s, id)
    ensures OnTrack(Step(s, Tick(at)), id)
  {
    var t := Step(s, Tick(at));
    var p :| OnScreen(s.screen, id, p) && Leads(p, Pipe(s), id, Due(s.client, id));
    TickChangesNothing(s.screen, id, p, at);
    assert Pipe(t) == Pipe(s);
    assert OnScreen(t.screen, id, p);
  }

  lemma {:induction false} RunKeepsSystemInv(s: System, moves: seq<Move>)
    requires SystemInv(s) && PossibleRun(s, moves)
    ensures SystemInv(Run(s, moves))
    decreases |moves|
  {
    if moves != [] {
      MoveKeepsSystemInv(s, moves[0]);
      RunKeepsSystemInv(Step(s, moves[0]), moves[1..]);
    }
  }

  lemma NewSystemIsGood(copyOnly: bool, autoHideMs: nat)
    ensures SystemInv(NewSystem(copyOnly, autoHideMs))
  {
    var s := NewSystem(copyOnly, autoHideMs);
    forall id | Awaited(s.client, id)
      ensures OnTrack(s, id)
    {
      assert OnScreen(s.screen, id, Waiting) && Leads(Waiting, Pipe(s), id, Due(s.client, id));
    }
  }
}
