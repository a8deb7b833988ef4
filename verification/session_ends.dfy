// What the renderer is told about the end of a session, over every run: which ends go out, which
// wait for an answer, and which wait for ever.
module SessionEnds {
  import opened Prelude
  import opened OverlayIpc
  import OverlayState
  import OverlayStateLaws
  import opened ClientSession
  import opened ClientLoop
  import opened ClientLoopLaws
  import Pipeline
  import PipelineLaws

  // ---------------------------------------------------------------- the ends sent

  // The reasons of all ends of session `id`, oldest first.
  function EndsOf(sent: seq<Message>, id: Uuid): seq<Option<string>> {
    if sent == [] then []
    else
      var last := sent[|sent| - 1];
      EndsOf(sent[..|sent| - 1], id) + if last.SessionEnded? && last.session == id then [last.reason] else []
  }

  lemma EndsOfOneMore(sent: seq<Message>, m: Message, id: Uuid)
    ensures EndsOf(sent + [m], id)
         == EndsOf(sent, id) + if m.SessionEnded? && m.session == id then [m.reason] else []
  {
    assert (sent + [m])[..|sent|] == sent;
  }

  function EndsNow(c: Client, e: Event, id: Uuid): seq<Option<string>> {
    if FinishesAnswer(c, e, id) then [ReasonOf(c.llm.deferredEnd, id)]
    else if PassesEnd(c, e, id) then [e.message.reason]
    else []
  }

  lemma {:induction false} NoEndAdded(sent: seq<Message>, longer: seq<Message>, id: Uuid)
    requires sent <= longer
    requires forall k :: |sent| <= k < |longer| ==> !(longer[k].SessionEnded? && longer[k].session == id)
    ensures EndsOf(longer, id) == EndsOf(sent, id)
    decreases |longer|
  {
    if |sent| < |longer| {
      NoEndAdded(sent, longer[..|longer| - 1], id);
    } else {
      assert sent == longer;
    }
  }

  lemma PassedEndIsSent(c: Client, e: Event, id: Uuid)
    requires PassesEnd(c, e, id)
    ensures Step(c, e).router.sent == c.router.sent + [SessionEnded(id, e.message.reason)]
  {
  }

  // An event sends an end of `id` exactly when it finishes its answer, with the reason stored for
  // it, or is the daemon's own end passed on.
  lemma StepEnds(c: Client, e: Event, id: Uuid)
    requires Inv(c) && Possible(c, e) && id != NIL
    ensures EndsOf(Step(c, e).router.sent, id) == EndsOf(c.router.sent, id) + EndsNow(c, e, id)
  {
    if FinishesAnswer(c, e, id) {
      var _ := FinishingStep(c, id, e.progress.transcript, e.progress.result, e.hint, e.queued);
      EndsOfOneMore(c.router.sent, SessionEnded(id, ReasonOf(c.llm.deferredEnd, id)), id);
    } else if PassesEnd(c, e, id) {
      PassedEndIsSent(c, e, id);
      EndsOfOneMore(c.router.sent, SessionEnded(id, e.message.reason), id);
    } else {
      NoEndSent(c, e, id);
    }
  }

  lemma NoEndSent(c: Client, e: Event, id: Uuid)
    requires Inv(c) && Possible(c, e) && id != NIL && !FinishesAnswer(c, e, id) && !PassesEnd(c, e, id)
    ensures EndsOf(Step(c, e).router.sent, id) == EndsOf(c.router.sent, id) + EndsNow(c, e, id)
  {
    assert c.llm.inFlight.Some? ==> Current(c, c.llm.inFlight.value);
    Pipeline.StepAdds(c, e);
    var longer := Step(c, e).router.sent;
    forall k | |c.router.sent| <= k < |longer|
      ensures !(longer[k].SessionEnded? && longer[k].session == id)
    {
      assert Pipeline.MaySend(c, e, longer[k]);
    }
    NoEndAdded(c.router.sent, longer, id);
  }

  function EndsAlong(c: Client, events: seq<Event>, id: Uuid): seq<Option<string>>
    decreases |events|
  {
    if events == [] then [] else EndsNow(c, events[0], id) + EndsAlong(Step(c, events[0]), events[1..], id)
  }

  // All ends of `id` that a run sends, and their reasons.
  lemma {:induction false} RunEnds(c: Client, events: seq<Event>, id: Uuid)
    requires Inv(c) && PossibleRun(c, events) && id != NIL
    ensures EndsOf(Run(c, events).router.sent, id) == EndsOf(c.router.sent, id) + EndsAlong(c, events, id)
    decreases |events|
  {
    var ends := EndsOf(c.router.sent, id);
    if events == [] {
      assert ends + [] == ends;
    } else {
      var e, rest := events[0], events[1..];
      StepEnds(c, e, id);
      StepKeepsInv(c, e);
      RunEnds(Step(c, e), rest, id);
      Joined(ends, EndsNow(c, e, id), EndsAlong(Step(c, e), rest, id));
    }
  }

  lemma Joined<T>(a: seq<T>, b: seq<T>, c: seq<T>)
    ensures (a + b) + c == a + (b + c)
  {
  }

  // ---------------------------------------------------------------- the ends that wait

  // Stored ends belong to queries of this connection.
  predicate EndsAgree(c: Client) {
    forall id :: id in c.llm.deferredEnd ==>
      id in c.started && c.started[id].intent == LlmQuery && c.started[id].epoch == c.drops
  }

  lemma DaemonKeepsEndsAgree(c: Client, m: ServerMessage, queued: bool, d: Client)
    requires Inv(c) && EndsAgree(c) && DaemonFrame(c, m, queued, d)
    ensures EndsAgree(d)
  {
    if m.DaemonSessionEnded? && DefersEnd(c.llm, c.session, m.session) {
      assert Current(c, m.session);
    }
  }

  lemma AnsweringKeepsEndsAgree(c: Client, e: Event)
    requires EndsAgree(c) && e.Answering?
    ensures EndsAgree(Step(c, e))
  {
    if FinishesAnswer(c, e, e.progress.session) {
      var _ := FinishingStep(c, e.progress.session, e.progress.transcript, e.progress.result, e.hint, e.queued);
    }
  }

  lemma StepKeepsEndsAgree(c: Client, e: Event)
    requires Inv(c) && EndsAgree(c) && Possible(c, e)
    ensures EndsAgree(Step(c, e))
  {
    match e
    case Daemon(m, _, queued) =>
      DaemonStep(c, e);
      DaemonKeepsEndsAgree(c, m, queued, Step(c, e));
    case Answering(_, _, _) => AnsweringKeepsEndsAgree(c, e);
    case _ =>
  }

  lemma {:induction false} RunKeepsEndsAgree(c: Client, events: seq<Event>)
    requires Inv(c) && EndsAgree(c) && PossibleRun(c, events)
    ensures EndsAgree(Run(c, events))
    decreases |events|
  {
    if events != [] {
      StepKeepsEndsAgree(c, events[0]);
      StepKeepsInv(c, events[0]);
      RunKeepsEndsAgree(Step(c, events[0]), events[1..]);
    }
  }

  // Somewhere along the run session `id` is in flight and its answer finishes.
  predicate Answered(c: Client, events: seq<Event>, id: Uuid)
    decreases |events|
  {
    events != [] && (FinishesAnswer(c, events[0], id) || Answered(Step(c, events[0]), events[1..], id))
  }

  predicate IsFinish(e: Event, id: Uuid) {
    e.Answering? && e.progress.Finished? && e.progress.session == id
  }

  // No task claims to have finished `id` before its answer was started.
  predicate NoEarlyFinish(c: Client, events: seq<Event>, id: Uuid)
    decreases |events|
  {
    || events == []
    || FinishesAnswer(c, events[0], id)
    || (!IsFinish(events[0], id) && NoEarlyFinish(Step(c, events[0]), events[1..], id))
  }

  predicate DaemonEndsIt(e: Event, id: Uuid) {
    e.Daemon? && e.message.DaemonSessionEnded? && e.message.session == id
  }

  predicate NoDaemonEnd(events: seq<Event>, id: Uuid) {
    forall k :: 0 <= k < |events| ==> !DaemonEndsIt(events[k], id)
  }

  // A session this client started that is neither dictated nor answered any more.
  predicate Gone(c: Client, id: Uuid) { id in c.started && !Current(c, id) }

  lemma GoneStays(c: Client, e: Event, id: Uuid)
    requires StatesAgree(c) && Possible(c, e) && Gone(c, id)
    ensures Gone(Step(c, e), id)
  {
    StepOnlyAdds(c, e);
    match e
    case Daemon(_, _, _) => DaemonStep(c, e);
    case Answering(_, _, _) => if c.llm.inFlight.Some? { AnswerInFlightIsUndisturbed(c, e); }
    case _ =>
  }

  // Such a session is never answered again, and no end of it is sent unless the daemon says so.
  lemma {:induction false} GoneIsNeverAnswered(c: Client, events: seq<Event>, id: Uuid)
    requires Inv(c) && PossibleRun(c, events) && Gone(c, id)
    ensures !Answered(c, events, id)
    ensures NoDaemonEnd(events, id) ==> EndsAlong(c, events, id) == []
    decreases |events|
  {
    if events != [] {
      GoneStays(c, events[0], id);
      StepKeepsInv(c, events[0]);
      GoneIsNeverAnswered(Step(c, events[0]), events[1..], id);
      assert !FinishesAnswer(c, events[0], id);
    }
  }

  lemma FinishedIsGone(c: Client, e: Event, id: Uuid)
    requires Inv(c) && FinishesAnswer(c, e, id)
    ensures Gone(Step(c, e), id)
  {
    assert Current(c, id);
    var _ := FinishingStep(c, id, e.progress.transcript, e.progress.result, e.hint, e.queued);
  }

  // Without another word from the daemon, exactly one end of a session goes out if its answer
  // finishes, and none if it does not.
  lemma {:induction false} EndIsSentExactlyWhenAnswered(c: Client, events: seq<Event>, id: Uuid)
    requires Inv(c) && PossibleRun(c, events) && NoDaemonEnd(events, id)
    ensures |EndsAlong(c, events, id)| == if Answered(c, events, id) then 1 else 0
    decreases |events|
  {
    if events != [] {
      var e, rest := events[0], events[1..];
      StepKeepsInv(c, e);
      assert NoDaemonEnd(rest, id);
      if FinishesAnswer(c, e, id) {
        FinishedIsGone(c, e, id);
        GoneIsNeverAnswered(Step(c, e), rest, id);
      } else {
        assert !DaemonEndsIt(e, id);
        EndIsSentExactlyWhenAnswered(Step(c, e), rest, id);
      }
    }
  }

  // And that end carries the reason that was stored.
  lemma {:induction false} StoredEndIsTheOneSent(c: Client, events: seq<Event>, id: Uuid, reason: Option<string>)
    requires Inv(c) && EndsAgree(c) && PossibleRun(c, events) && NoDaemonEnd(events, id)
    requires EndWaits(c, id, reason) && NoEarlyFinish(c, events, id)
    ensures EndsAlong(c, events, id) == if Answered(c, events, id) then [reason] else []
    decreases |events|
  {
    EndIsSentExactlyWhenAnswered(c, events, id);
    if events != [] {
      var e, rest := events[0], events[1..];
      StepKeepsInv(c, e);
      StepKeepsEndsAgree(c, e);
      assert !DaemonEndsIt(e, id) && NoDaemonEnd(rest, id);
      if FinishesAnswer(c, e, id) {
        FinishedIsGone(c, e, id);
        GoneIsNeverAnswered(Step(c, e), rest, id);
        assert [reason] + [] == [reason];
      } else if Step(c, e).drops == c.drops {
        StepKeepsEnd(c, e, id, reason);
        StoredEndIsTheOneSent(Step(c, e), rest, id, reason);
      } else {
        StepOnlyAdds(c, e);
        assert !Current(Step(c, e), id);
        GoneIsNeverAnswered(Step(c, e), rest, id);
      }
    }
  }

  // In every run from the start: an end that was stored and that the daemon does not repeat is sent
  // once, with its reason, if its session's answer finishes, and is never sent otherwise.
  lemma {:induction false} EveryStoredEnd(
    copyOnly: bool, before: seq<Event>, events: seq<Event>, id: Uuid, reason: Option<string>)
    requires PossibleRun(NewClient(copyOnly), before)
    requires var c := Run(NewClient(copyOnly), before);
             && EndWaits(c, id, reason) && PossibleRun(c, events)
             && NoDaemonEnd(events, id) && NoEarlyFinish(c, events, id)
    ensures var c := Run(NewClient(copyOnly), before);
            EndsOf(Run(c, events).router.sent, id)
            == EndsOf(c.router.sent, id) + if Answered(c, events, id) then [reason] else []
  {
    var c := Run(NewClient(copyOnly), before);
    RunKeepsInv(NewClient(copyOnly), before);
    RunKeepsEndsAgree(NewClient(copyOnly), before);
    assert id in c.started;
    RunEnds(c, events, id);
    StoredEndIsTheOneSent(c, events, id, reason);
  }

  // ---------------------------------------------------------------- the ends that wait for ever

  lemma CurrentCanBeAnswered(c: Client, id: Uuid) returns (events: seq<Event>)
    requires Inv(c) && Current(c, id) && c.started[id].intent == LlmQuery
    ensures PossibleRun(c, events) && Answered(c, events, id)
  {
    var accept, finish := Daemon(FinalResult(id, ""), None, true), Answering(Finished(id, "", Err), None, true);
    if c.llm.inFlight == Some(id) {
      events := [finish];
    } else {
      events := [accept, finish];
      var d := Step(c, accept);
      DaemonStep(c, accept);
      assert events[1..] == [finish] && FinishesAnswer(d, finish, id);
      assert Answered(d, [finish], id) && PossibleRun(d, [finish]);
    }
  }

  ghost predicate CanBeAnswered(c: Client, id: Uuid) {
    exists events :: PossibleRun(c, events) && Answered(c, events, id)
  }

  // A stored end can still be sent exactly while its session is dictated or answered.
  lemma StoredEndIsStrandedExactly(c: Client, id: Uuid, reason: Option<string>)
    requires Inv(c) && EndsAgree(c) && EndWaits(c, id, reason)
    ensures CanBeAnswered(c, id) <==> Current(c, id)
  {
    if Current(c, id) {
      var events := CurrentCanBeAnswered(c, id);
      assert PossibleRun(c, events) && Answered(c, events, id);
    } else {
      forall events | PossibleRun(c, events)
        ensures !Answered(c, events, id)
      {
        GoneIsNeverAnswered(c, events, id);
      }
    }
  }

  // And what strands it, without forgetting it, is a daemon error while it is dictated; nothing else.
  lemma OnlyErrorsStrandEnds(c: Client, e: Event, id: Uuid, reason: Option<string>)
    requires Inv(c) && EndsAgree(c) && Possible(c, e) && EndWaits(c, id, reason) && Current(c, id)
    ensures var d := Step(c, e);
            id in d.llm.deferredEnd && !Current(d, id) <==>
              e.Daemon? && e.message.Error? && c.session.Active() == Some(id)
  {
    match e
    case Daemon(_, _, _) => DaemonStep(c, e);
    case Answering(p, hint, queued) =>
      if FinishesAnswer(c, e, p.session) {
        var _ := FinishingStep(c, p.session, p.transcript, p.result, hint, queued);
      }
    case _ =>
  }

  // ---------------------------------------------------------------- such a run

  function Erring(id: Uuid): seq<Event> {
    [HotkeyDown(LlmQuery, id, true, None),
     Daemon(DaemonState(id, 1, OverlayState.DAEMON_STATE_LISTENING), None, true),
     Daemon(DaemonSessionEnded(id, None), None, true),
     Daemon(Error(Some(id)), None, true)]
  }

  function ErringMoves(id: Uuid): seq<Pipeline.Move> {
    [Pipeline.Loop(Erring(id)[0]), Pipeline.Loop(Erring(id)[1]), Pipeline.Loop(Erring(id)[2]),
     Pipeline.Loop(Erring(id)[3]), Pipeline.Deliver(0)]
  }

  // With the connection up, and after the daemon did end the session, the client is idle, the
  // renderer has caught up, and the sheet outlasts any number of ticks.
  lemma ErroredSheetStays(id: Uuid, ticks: seq<OverlayStateLaws.Input>)
    requires id != NIL && forall k :: 0 <= k < |ticks| ==> ticks[k].Tick?
    ensures var s := Pipeline.NewSystem(false, OverlayState.DEFAULT_AUTO_HIDE_AFTER_MS);
            && Pipeline.PossibleRun(s, ErringMoves(id))
            && var t := Pipeline.Run(s, ErringMoves(id));
               && t.client.drops == 0 && t.client.session == NoSession && EndWaits(t.client, id, None)
               && t.delivered == |t.client.router.sent|
               && OverlayStateLaws.Feed(t.screen, ticks).Shows(id)
  {
    var s, m := Pipeline.NewSystem(false, OverlayState.DEFAULT_AUTO_HIDE_AFTER_MS), ErringMoves(id);
    var s4 := ErringSteps(id);
    RunOfFive(s, m[0], m[1], m[2], m[3], m[4]);
    assert m == [m[0], m[1], m[2], m[3], m[4]];
    LastErringStep(s4, id);
    OverlayStateLaws.TimeHidesExactlyPastDeadline(Pipeline.Step(s4, m[4]).screen, ticks, id);
  }

  lemma LastErringStep(s: Pipeline.System, id: Uuid)
    requires id != NIL && s.delivered == 0
    requires s.screen == OverlayState.Fresh(OverlayState.DEFAULT_AUTO_HIDE_AFTER_MS)
    requires s.client.router.sent == [InterimState(id, DaemonSttInterim, 1, OverlayState.DAEMON_STATE_LISTENING)]
    ensures var t := Pipeline.Step(s, Pipeline.Deliver(0));
            t.client == s.client && t.delivered == 1 && t.screen.Shows(id) && t.screen.hideDeadline.None?
  {
  }

  lemma RunOfFive(
    s: Pipeline.System, a: Pipeline.Move, b: Pipeline.Move, c: Pipeline.Move, d: Pipeline.Move, e: Pipeline.Move)
    requires Pipeline.Possible(s, a)
    requires var s1 := Pipeline.Step(s, a);
             && Pipeline.Possible(s1, b) && Pipeline.Possible(Pipeline.Step(s1, b), c)
             && Pipeline.Possible(Pipeline.Step(Pipeline.Step(s1, b), c), d)
             && Pipeline.Possible(Pipeline.Step(Pipeline.Step(Pipeline.Step(s1, b), c), d), e)
    ensures Pipeline.PossibleRun(s, [a, b, c, d, e])
    ensures Pipeline.Run(s, [a, b, c, d, e])
         == Pipeline.Step(Pipeline.Step(Pipeline.Step(Pipeline.Step(Pipeline.Step(s, a), b), c), d), e)
  {
    PipelineLaws.RunOfFour(Pipeline.Step(s, a), b, c, d, e);
    PipelineLaws.RunFirst(s, a, [b, c, d, e]);
    assert [a] + [b, c, d, e] == [a, b, c, d, e];
  }

  lemma ErringSteps(id: Uuid) returns (s: Pipeline.System)
    requires id != NIL
    ensures var s0, m := Pipeline.NewSystem(false, OverlayState.DEFAULT_AUTO_HIDE_AFTER_MS), ErringMoves(id);
            && Pipeline.Possible(s0, m[0]) && Pipeline.Possible(Pipeline.Step(s0, m[0]), m[1])
            && Pipeline.Possible(Pipeline.Step(Pipeline.Step(s0, m[0]), m[1]), m[2])
            && Pipeline.Possible(Pipeline.Step(Pipeline.Step(Pipeline.Step(s0, m[0]), m[1]), m[2]), m[3])
            && s == Pipeline.Step(Pipeline.Step(Pipeline.Step(Pipeline.Step(s0, m[0]), m[1]), m[2]), m[3])
    ensures s.delivered == 0 && s.screen == OverlayState.Fresh(OverlayState.DEFAULT_AUTO_HIDE_AFTER_MS)
    ensures s.client.drops == 0 && s.client.session == NoSession && EndWaits(s.client, id, None)
    ensures s.client.router.sent == [InterimState(id, DaemonSttInterim, 1, OverlayState.DAEMON_STATE_LISTENING)]
  {
    var m := ErringMoves(id);
    var s1 := Pipeline.Step(Pipeline.NewSystem(false, OverlayState.DEFAULT_AUTO_HIDE_AFTER_MS), m[0]);
    var s2 := Pipeline.Step(s1, m[1]);
    var s3 := Pipeline.Step(s2, m[2]);
    s := Pipeline.Step(s3, m[3]);
  }
}
