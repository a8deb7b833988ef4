// What the client keeps over every run, whatever the daemon, the tasks and the user do.
module ClientLoopLaws {
  import opened Prelude
  import opened OverlayIpc
  import opened OverlayRouting
  import opened ClientSession
  import opened ClientLoop

  // ---------------------------------------------------------------- the invariant

  // Session `id` is the one the user is dictating into, or the one being answered.
  predicate Current(c: Client, id: Uuid) {
    c.session.Active() == Some(id) || c.llm.inFlight == Some(id)
  }

  predicate StatesAgree(c: Client) {
    && (c.session.ptt.Idle? <==> c.session.intent.None?)
    && (c.llm.busy <==> c.llm.inFlight.Some?)
    && (c.llm.busy ==> c.session.ptt.Idle?)
    && c.llm.numbers.Keys == c.llm.InFlightSet()
    && c.llm.overlayText.Keys <= c.llm.InFlightSet()
  }

  ghost predicate SessionsAgree(c: Client) {
    && (forall id :: Current(c, id) ==>
          id in c.started && c.started[id].epoch == c.drops && id !in c.closedAt)
    && (c.session.Active().Some? ==> Some(c.started[c.session.Active().value].intent) == c.session.intent)
    && (c.llm.inFlight.Some? ==> c.started[c.llm.inFlight.value].intent == LlmQuery)
    && (forall id :: id in c.started ==> id != NIL && c.started[id].epoch <= c.drops)
    && c.closedAt.Keys <= c.started.Keys
  }

  // Every job belongs to a session that was closed for it, in the connection that started it.
  predicate JobsAgree(c: Client) {
    && (forall k :: 0 <= k < |c.jobs| ==>
          var j := c.jobs[k];
          && j.session in c.started && j.session in c.closedAt
          && j.epoch == c.started[j.session].epoch
          && (j.origin == RawFinalResult <==> c.started[j.session].intent == Dictate))
    && (forall i, k :: 0 <= i < k < |c.jobs| ==> c.jobs[i].session != c.jobs[k].session)
  }

  // The wire carries (Start Stop?)*, each Stop for the Start right before it, no identifier twice.
  predicate WireIsStartStop(wire: seq<WireMessage>) {
    && (forall k :: 0 <= k < |wire| && wire[k].StopSession? ==> k > 0 && wire[k - 1] == StartSession(wire[k].session))
    && (forall i, k :: 0 <= i < k < |wire| && wire[i].StartSession? && wire[k].StartSession? ==>
          wire[i].session != wire[k].session)
  }

  predicate WireAgrees(c: Client) {
    && WireIsStartStop(c.wire)
    && (forall k :: 0 <= k < |c.wire| ==> c.wire[k].session in c.started)
    && (c.session.ptt.Listening? ==>
          c.wire != [] && c.wire[|c.wire| - 1] == StartSession(c.session.ptt.session))
  }

  ghost predicate Inv(c: Client) {
    StatesAgree(c) && SessionsAgree(c) && JobsAgree(c) && WireAgrees(c)
  }

  // ---------------------------------------------------------------- the life of an answer

  // The daemon's final result for the query `id` is accepted, and its answer starts.
  predicate StartsAnswer(c: Client, e: Event, id: Uuid) {
    && e.Daemon? && e.message.FinalResult? && e.message.session == id
    && c.session.Active() == Some(id) && c.session.intent == Some(LlmQuery)
  }

  predicate ExtendsAnswer(c: Client, e: Event, id: Uuid) {
    e.Answering? && e.progress.Delta? && e.progress.session == id && c.llm.inFlight == Some(id)
  }

  predicate FinishesAnswer(c: Client, e: Event, id: Uuid) {
    e.Answering? && e.progress.Finished? && e.progress.session == id && c.llm.inFlight == Some(id)
  }

  // The daemon's end of session `id` is not kept back, and not about another session than expected.
  predicate PassesEnd(c: Client, e: Event, id: Uuid) {
    && e.Daemon? && e.message.DaemonSessionEnded? && e.message.session == id
    && !DefersEnd(c.llm, c.session, id) && Allows(c.session.Active(), id)
  }

  // ---------------------------------------------------------------- every step keeps it

  lemma DropKeepsInv(c: Client)
    requires StatesAgree(c) && SessionsAgree(c) && JobsAgree(c) && WireIsStartStop(c.wire)
    requires forall k :: 0 <= k < |c.wire| ==> c.wire[k].session in c.started
    ensures Inv(Drop(c))
  {
  }

  lemma DownKeepsInv(c: Client, e: Event)
    requires Inv(c) && Possible(c, e) && e.HotkeyDown?
    ensures Inv(Step(c, e))
  {
    if !c.llm.busy && c.session.ptt.Idle? {
      var begun := Step(c, e.(delivered := true));
      assert Inv(begun);
      DropKeepsInv(begun);
    }
  }

  lemma UpKeepsInv(c: Client, e: Event)
    requires Inv(c) && e.HotkeyUp?
    ensures Inv(Step(c, e))
  {
    if c.session.ptt.Listening? {
      var stopped := Step(c, HotkeyUp(true));
      assert Inv(stopped);
      DropKeepsInv(stopped);
    }
  }

  lemma EnqueueKeepsJobs(c: Client, id: Uuid, text: string, origin: Origin, queued: bool)
    requires JobsAgree(c) && id in c.started && id !in c.closedAt
    requires c.started[id].epoch == c.drops && (origin == RawFinalResult <==> c.started[id].intent == Dictate)
    ensures JobsAgree(Enqueue(Close(c, id), id, text, origin, queued))
  {
  }

  lemma ClosingKeepsInv(c: Client, id: Uuid, text: string, origin: Origin, queued: bool, r: Router)
    requires Inv(c) && id in c.started && id !in c.closedAt && !Current(c, id)
    requires c.started[id].epoch == c.drops && (origin == RawFinalResult <==> c.started[id].intent == Dictate)
    ensures Inv(Enqueue(Close(c, id).(router := r), id, text, origin, queued))
  {
    EnqueueKeepsJobs(c, id, text, origin, queued);
  }

  lemma ResetKeepsInv(c: Client, r: Router)
    requires Inv(c)
    ensures Inv(c.(session := NoSession)) && Inv(c.(router := r))
  {
  }

  // All that a daemon message does, apart from what it routes.
  predicate DaemonFrame(c: Client, m: ServerMessage, queued: bool, d: Client) {
    if m.DaemonSessionEnded? && DefersEnd(c.llm, c.session, m.session) then
      d == c.(llm := DeferEnd(c.llm, m.session, m.reason))
    else if m.FinalResult? then
      if c.session.Active() != Some(m.session) then d == c
      else if c.session.intent == Some(LlmQuery) then
        d == c.(llm := StartAnswer(c.llm, m.session), session := NoSession, router := d.router)
      else d == Enqueue(Close(c.(session := NoSession), m.session), m.session, m.text, RawFinalResult, queued)
    else if m.Error? then d == c.(session := NoSession)
    else d == c.(router := d.router)
  }

  lemma DaemonStep(c: Client, e: Event)
    requires e.Daemon?
    ensures DaemonFrame(c, e.message, e.queued, Step(c, e))
  {
  }

  lemma StartAnswerKeepsInv(c: Client, id: Uuid, r: Router)
    requires Inv(c) && c.session.Active() == Some(id) && c.session.intent == Some(LlmQuery)
    ensures Inv(c.(llm := StartAnswer(c.llm, id), session := NoSession, router := r))
  {
  }

  lemma DaemonKeepsInv(c: Client, m: ServerMessage, queued: bool, d: Client)
    requires Inv(c) && DaemonFrame(c, m, queued, d)
    ensures Inv(d)
  {
    if m.FinalResult? && c.session.Active() == Some(m.session) {
      if c.session.intent == Some(LlmQuery) {
        StartAnswerKeepsInv(c, m.session, d.router);
      } else {
        ResetKeepsInv(c, c.router);
        ClosingKeepsInv(c.(session := NoSession), m.session, m.text, RawFinalResult, queued, c.router);
      }
    } else {
      ResetKeepsInv(c, d.router);
    }
  }

  // A finished answer closes its session and hands over one text.
  lemma FinishingStep(c: Client, id: Uuid, transcript: string, result: LlmResult, hint: Option<string>, queued: bool)
    returns (text: string)
    requires c.llm.inFlight == Some(id)
    ensures text == TextToInject(transcript, result)
    ensures var freed := Close(c.(llm := FinishAnswer(c.llm, id)), id);
            var router := RouteSessionEnded(c.router, None, id, ReasonOf(c.llm.deferredEnd, id));
            Progressed(c, Finished(id, transcript, result), hint, queued)
            == Enqueue(freed.(router := router), id, text, LlmAnswer, queued)
  {
    text := TextToInject(transcript, result);
  }

  lemma FinishAnswerKeepsInv(c: Client, id: Uuid)
    requires Inv(c)
    ensures Inv(c.(llm := FinishAnswer(c.llm, id)))
  {
  }

  lemma DeltaKeepsInv(c: Client, id: Uuid, delta: string, r: Router)
    requires Inv(c)
    ensures Inv(c.(llm := RecordDelta(c.llm, id, delta), router := r))
  {
  }

  lemma AnsweringKeepsInv(c: Client, e: Event)
    requires Inv(c) && e.Answering?
    ensures Inv(Step(c, e))
  {
    var id := e.progress.session;
    match e.progress {
      case Delta(_, delta) =>
        DeltaKeepsInv(c, id, delta, Step(c, e).router);
        ResetKeepsInv(c, Step(c, e).router);
      case Finished(_, transcript, result) =>
        FinishAnswerKeepsInv(c, id);
        if c.llm.inFlight == Some(id) {
          var text := FinishingStep(c, id, transcript, result, e.hint, e.queued);
          ClosingKeepsInv(c.(llm := FinishAnswer(c.llm, id)), id, text, LlmAnswer, e.queued, Step(c, e).router);
        }
    }
  }

  lemma StepKeepsInv(c: Client, e: Event)
    requires Inv(c) && Possible(c, e)
    ensures Inv(Step(c, e))
  {
    match e
    case HotkeyDown(_, _, _, _) => DownKeepsInv(c, e);
    case HotkeyUp(_) => UpKeepsInv(c, e);
    case Daemon(m, _, queued) =>
      DaemonStep(c, e);
      DaemonKeepsInv(c, m, queued, Step(c, e));
    case ConnectionLost => DropKeepsInv(c);
    case Report(_, _) =>
    case Answering(_, _, _) => AnsweringKeepsInv(c, e);
  }

  lemma {:induction false} RunKeepsInv(c: Client, events: seq<Event>)
    requires Inv(c) && PossibleRun(c, events)
    ensures Inv(Run(c, events))
    decreases |events|
  {
    if events != [] {
      StepKeepsInv(c, events[0]);
      RunKeepsInv(Step(c, events[0]), events[1..]);
    }
  }

  // ---------------------------------------------------------------- what follows for users

  // Each session yields at most one injection job, in the connection that started it, and its
  // origin tells the user's intent.
  lemma OneJobPerSession(copyOnly: bool, events: seq<Event>)
    requires PossibleRun(NewClient(copyOnly), events)
    ensures var c := Run(NewClient(copyOnly), events);
            && (forall i, k :: 0 <= i < k < |c.jobs| ==> c.jobs[i].session != c.jobs[k].session)
            && (forall k :: 0 <= k < |c.jobs| ==>
                  var j := c.jobs[k];
                  && j.session in c.started && j.epoch == c.started[j.session].epoch
                  && (j.origin == RawFinalResult <==> c.started[j.session].intent == Dictate)
                  && (j.origin == LlmAnswer <==> c.started[j.session].intent == LlmQuery))
  {
    RunKeepsInv(NewClient(copyOnly), events);
  }

  // A step adds at most jobs for a current session, and never forgets a start.
  predicate OnlyAdds(c: Client, d: Client) {
    && c.drops <= d.drops && c.jobs <= d.jobs
    && (forall k :: |c.jobs| <= k < |d.jobs| ==> c.drops <= d.jobs[k].epoch && Current(c, d.jobs[k].session))
    && (forall id :: id in c.started ==> id in d.started && d.started[id] == c.started[id])
  }

  lemma DaemonOnlyAdds(c: Client, m: ServerMessage, queued: bool, d: Client)
    requires DaemonFrame(c, m, queued, d)
    ensures OnlyAdds(c, d)
  {
  }

  lemma AnsweringOnlyAdds(c: Client, e: Event)
    requires e.Answering?
    ensures OnlyAdds(c, Step(c, e))
  {
    var id := e.progress.session;
    if e.progress.Finished? && c.llm.inFlight == Some(id) {
      var _ := FinishingStep(c, id, e.progress.transcript, e.progress.result, e.hint, e.queued);
    }
  }

  lemma StepOnlyAdds(c: Client, e: Event)
    requires Possible(c, e)
    ensures OnlyAdds(c, Step(c, e))
  {
    match e
    case Daemon(m, _, queued) =>
      DaemonStep(c, e);
      DaemonOnlyAdds(c, m, queued, Step(c, e));
    case Answering(_, _, _) => AnsweringOnlyAdds(c, e);
    case _ =>
  }

  lemma {:induction false} RunOnlyAddsNewJobs(c: Client, events: seq<Event>)
    requires PossibleRun(c, events)
    ensures var d := Run(c, events);
            && c.jobs <= d.jobs
            && (forall k :: |c.jobs| <= k < |d.jobs| ==> c.drops <= d.jobs[k].epoch)
            && (forall id :: id in c.started ==> id in d.started && d.started[id] == c.started[id])
    decreases |events|
  {
    if events != [] {
      StepOnlyAdds(c, events[0]);
      RunOnlyAddsNewJobs(Step(c, events[0]), events[1..]);
    }
  }

  // A session cut off by a connection drop injects nothing afterwards, however late its final
  // result or its answer arrives.
  lemma DroppedSessionsInjectNothing(c: Client, events: seq<Event>, id: Uuid)
    requires Inv(c) && PossibleRun(c, events)
    requires id in c.started && c.started[id].epoch < c.drops
    ensures var d := Run(c, events);
            && c.jobs <= d.jobs
            && forall k :: |c.jobs| <= k < |d.jobs| ==> d.jobs[k].session != id
  {
    RunKeepsInv(c, events);
    RunOnlyAddsNewJobs(c, events);
  }

  // The messages the client tries to send are (Start Stop?)* over distinct identifiers; the
  // client is idle exactly when no intent is active, and never listens while an answer is due.
  lemma WireAndStateDiscipline(copyOnly: bool, events: seq<Event>)
    requires PossibleRun(NewClient(copyOnly), events)
    ensures var c := Run(NewClient(copyOnly), events);
            && WireIsStartStop(c.wire)
            && (c.session.ptt.Idle? <==> c.session.intent.None?)
            && (c.llm.busy <==> c.llm.inFlight.Some?)
            && (c.llm.busy ==> c.session.ptt.Idle?)
  {
    RunKeepsInv(NewClient(copyOnly), events);
  }

  // While an answer is in flight no event sends anything or puts another answer in its place; the
  // answer leaves flight exactly by finishing or by a lost connection.
  predicate Undisturbed(c: Client, e: Event, d: Client) {
    && d.wire == c.wire
    && d.llm.inFlight in {c.llm.inFlight, None}
    && (d.llm.inFlight.None? <==>
          e.ConnectionLost? || (e.Answering? && e.progress.Finished? && Some(e.progress.session) == c.llm.inFlight))
  }

  lemma DaemonLeavesAnswer(c: Client, e: Event, d: Client)
    requires StatesAgree(c) && c.llm.inFlight.Some? && e.Daemon? && DaemonFrame(c, e.message, e.queued, d)
    ensures Undisturbed(c, e, d)
  {
  }

  lemma AnswerInFlightIsUndisturbed(c: Client, e: Event)
    requires StatesAgree(c) && c.llm.inFlight.Some?
    ensures Undisturbed(c, e, Step(c, e))
  {
    match e
    case Daemon(_, _, _) =>
      DaemonStep(c, e);
      DaemonLeavesAnswer(c, e, Step(c, e));
    case Answering(p, hint, queued) =>
      if p.Finished? && c.llm.inFlight == Some(p.session) {
        var _ := FinishingStep(c, p.session, p.transcript, p.result, hint, queued);
      }
    case _ =>
  }

  // ---------------------------------------------------------------- deferred ends

  // The daemon's end of session `id`, with `reason`, waits for the answer.
  predicate EndWaits(c: Client, id: Uuid, reason: Option<string>) {
    id in c.llm.deferredEnd && c.llm.deferredEnd[id] == reason
  }

  predicate TouchesEnd(e: Event, id: Uuid) {
    || (e.Daemon? && e.message.DaemonSessionEnded? && e.message.session == id)
    || (e.Answering? && e.progress.Finished? && e.progress.session == id)
  }

  lemma EndIsDeferred(c: Client, e: Event)
    requires e.Daemon? && e.message.DaemonSessionEnded? && DefersEnd(c.llm, c.session, e.message.session)
    ensures EndWaits(Step(c, e), e.message.session, e.message.reason)
    ensures Step(c, e).router == c.router
  {
  }

  lemma {:induction false} DeferredEndIsKept(c: Client, events: seq<Event>, id: Uuid, reason: Option<string>)
    requires EndWaits(c, id, reason)
    requires Run(c, events).drops == c.drops
    requires forall k :: 0 <= k < |events| ==> !TouchesEnd(events[k], id)
    ensures EndWaits(Run(c, events), id, reason)
    decreases |events|
  {
    if events != [] {
      var e, rest := events[0], events[1..];
      DropsOnlyGrow(Step(c, e), rest);
      StepKeepsEnd(c, e, id, reason);
      DeferredEndIsKept(Step(c, e), rest, id, reason);
    }
  }

  lemma {:induction false} DropsOnlyGrow(c: Client, events: seq<Event>)
    ensures c.drops <= Run(c, events).drops
    decreases |events|
  {
    if events != [] {
      StepDrops(c, events[0]);
      DropsOnlyGrow(Step(c, events[0]), events[1..]);
    }
  }

  lemma StepDrops(c: Client, e: Event)
    ensures c.drops <= Step(c, e).drops
  {
  }

  lemma DaemonKeepsEnd(c: Client, e: Event, id: Uuid, reason: Option<string>, d: Client)
    requires EndWaits(c, id, reason) && !TouchesEnd(e, id) && e.Daemon? && DaemonFrame(c, e.message, e.queued, d)
    ensures EndWaits(d, id, reason) && d.drops == c.drops
  {
  }

  lemma StepKeepsEnd(c: Client, e: Event, id: Uuid, reason: Option<string>)
    requires EndWaits(c, id, reason) && !TouchesEnd(e, id) && Step(c, e).drops <= c.drops
    ensures EndWaits(Step(c, e), id, reason) && Step(c, e).drops == c.drops
  {
    match e
    case Daemon(_, _, _) =>
      DaemonStep(c, e);
      DaemonKeepsEnd(c, e, id, reason, Step(c, e));
    case Answering(_, _, _) => AnsweringKeepsEnd(c, e, id, reason);
    case _ =>
  }

  lemma AnsweringKeepsEnd(c: Client, e: Event, id: Uuid, reason: Option<string>)
    requires EndWaits(c, id, reason) && !TouchesEnd(e, id) && e.Answering?
    ensures EndWaits(Step(c, e), id, reason) && Step(c, e).drops == c.drops
  {
    if FinishesAnswer(c, e, e.progress.session) {
      var _ := FinishingStep(c, e.progress.session, e.progress.transcript, e.progress.result, e.hint, e.queued);
    }
  }

  // A session end that came too early is sent on when the answer finishes, with its own reason.
  lemma FinishedAnswerSendsDeferredEnd(c: Client, e: Event, id: Uuid, reason: Option<string>)
    requires EndWaits(c, id, reason) && FinishesAnswer(c, e, id)
    ensures Step(c, e).router.sent == c.router.sent + [SessionEnded(id, reason)]
    ensures id !in Step(c, e).llm.deferredEnd
  {
    var _ := FinishingStep(c, id, e.progress.transcript, e.progress.result, e.hint, e.queued);
  }
}
