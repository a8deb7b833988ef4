// What the user sees, over every run of the client and a renderer that lags behind it.
module PipelineLaws {
  import opened Prelude
  import opened OverlayIpc
  import OverlayState
  import OverlayStateLaws
  import opened ClientSession
  import ClientLoop
  import opened ClientLoopLaws
  import opened AnswerText
  import opened Pipeline
  import SseStream
  import LlmAnswer
  import Text
  import Subsequences
  import ClientSteps
  import OverlayView

  // ---------------------------------------------------------------- an answer while it streams

  // What the client handles along the way.
  function Events(moves: seq<Move>): seq<ClientLoop.Event> {
    if moves == [] then []
    else (if moves[0].Loop? then [moves[0].event] else []) + Events(moves[1..])
  }

  lemma {:induction false} ClientRuns(s: System, moves: seq<Move>)
    requires PossibleRun(s, moves)
    ensures Run(s, moves).client == ClientLoop.Run(s.client, Events(moves))
    decreases |moves|
  {
    if moves != [] {
      ClientRuns(Step(s, moves[0]), moves[1..]);
      if moves[0].Loop? {
        assert Events(moves)[1..] == Events(moves[1..]);
      } else {
        assert Events(moves) == Events(moves[1..]);
      }
    }
  }

  // The screen shows session `id` answering, with `answer` as the text so far.
  predicate ShowsAnswering(s: Screen, id: Uuid, answer: string) {
    && s.Shows(id)
    && s.visible.value.mode == OverlayState.Llm
    && s.visible.value.phase == OverlayState.Answering
    && s.visible.value.answer == answer
    && s.hideDeadline.None?
  }

  // A renderer that has caught up shows the answer in flight, whole.
  lemma CaughtUpShowsTheAnswer(s: System, id: Uuid)
    requires SystemInv(s) && s.client.llm.inFlight == Some(id) && Pipe(s) == []
    ensures ShowsAnswering(s.screen, id, TextOf(s.client.llm.overlayText, id))
  {
    assert Current(s.client, id);
    assert Awaited(s.client, id);
    assert OnTrack(s, id);
  }

  lemma ReachableIsGood(copyOnly: bool, autoHideMs: nat, moves: seq<Move>)
    requires PossibleRun(NewSystem(copyOnly, autoHideMs), moves)
    ensures SystemInv(Run(NewSystem(copyOnly, autoHideMs), moves))
  {
    NewSystemIsGood(copyOnly, autoHideMs);
    RunKeepsSystemInv(NewSystem(copyOnly, autoHideMs), moves);
  }

  lemma AnswerIsShownFrom(s: System, accept: ClientLoop.Event, moves: seq<Move>, id: Uuid)
    requires SystemInv(s) && Possible(s, Loop(accept)) && StartsAnswer(s.client, accept, id)
    requires PossibleRun(Step(s, Loop(accept)), moves)
    requires StaysInFlight(Step(s, Loop(accept)).client, Events(moves), id)
    ensures var t := Run(Step(s, Loop(accept)), moves);
            t.delivered == |t.client.router.sent| ==>
              ShowsAnswering(t.screen, id, SseStream.Concat(Heard(Events(moves), id)))
  {
    var started := Step(s, Loop(accept));
    MoveKeepsSystemInv(s, Loop(accept));
    StartsBlank(s.client, accept, id);
    ClientRuns(started, moves);
    TextIsWhatWasHeard(started.client, Events(moves), id);
    RunKeepsSystemInv(started, moves);
    var t := Run(started, moves);
    if t.delivered == |t.client.router.sent| {
      CaughtUpShowsTheAnswer(t, id);
    }
  }

  // In every run: from the moment a query's final result is accepted until its answer finishes or
  // the connection drops, and whatever else happens in between, a renderer that has caught up
  // shows that session answering, with exactly the deltas handled so far.
  lemma AnswerIsShownInFull(
    copyOnly: bool, autoHideMs: nat, before: seq<Move>, accept: ClientLoop.Event, moves: seq<Move>, id: Uuid)
    requires PossibleRun(NewSystem(copyOnly, autoHideMs), before)
    requires var s := Run(NewSystem(copyOnly, autoHideMs), before);
             && Possible(s, Loop(accept)) && StartsAnswer(s.client, accept, id)
             && PossibleRun(Step(s, Loop(accept)), moves)
             && StaysInFlight(Step(s, Loop(accept)).client, Events(moves), id)
    ensures var t := Run(Step(Run(NewSystem(copyOnly, autoHideMs), before), Loop(accept)), moves);
            t.delivered == |t.client.router.sent| ==>
              ShowsAnswering(t.screen, id, SseStream.Concat(Heard(Events(moves), id)))
  {
    ReachableIsGood(copyOnly, autoHideMs, before);
    AnswerIsShownFrom(Run(NewSystem(copyOnly, autoHideMs), before), accept, moves, id);
  }

  // What a finished answer types: its cleaned form, or the transcript if that is blank or there is
  // no answer.
  lemma FinishInjectsTheText(c: Client, finish: ClientLoop.Event, id: Uuid) returns (job: ClientLoop.Job)
    requires FinishesAnswer(c, finish, id)
    ensures ClientLoop.Step(c, finish).jobs == c.jobs + [job]
    ensures job.session == id && job.origin == ClientLoop.LlmAnswer
    ensures job.queued == finish.queued && job.epoch == c.drops
    ensures match finish.progress.result
            case Ok(answer) =>
              var clean := LlmAnswer.Sanitize(answer);
              job.text == if Text.Blank(clean) then finish.progress.transcript else clean
            case Err => job.text == finish.progress.transcript
  {
    ClientSteps.StepInjects(c, finish);
    job := ClientSteps.InjectedNow(c, finish)[0];
  }

  // With overlay streaming on, and the task's progress handled in order, the text injected at the
  // end is the cleaned form of what the overlay has accumulated, or the transcript if that is
  // blank; so it is the transcript, or a part of what was accumulated without a thinking block. `r`
  // is what reading the response in any chunks gives.
  lemma InjectsWhatTheOverlayAccumulated(
    s: System, accept: ClientLoop.Event, moves: seq<Move>, finish: ClientLoop.Event, id: Uuid,
    d: SseStream.Decoder, chunks: seq<SseStream.Bytes>, r: SseStream.Reading)
    returns (job: ClientLoop.Job)
    requires SystemInv(s) && Possible(s, Loop(accept)) && StartsAnswer(s.client, accept, id)
    requires PossibleRun(Step(s, Loop(accept)), moves)
    requires StaysInFlight(Step(s, Loop(accept)).client, Events(moves), id)
    requires r == SseStream.ReadChunks(d, true, [], chunks, SseStream.Start) && r.Answer?
    requires Heard(Events(moves), id) == r.deltas
    requires finish.Answering? && finish.progress.Finished? && finish.progress.session == id
    requires finish.progress.result == Ok(r.assembled)
    ensures var c := Run(Step(s, Loop(accept)), moves).client;
            var jobs := ClientLoop.Step(c, finish).jobs;
            var shown, clean := TextOf(c.llm.overlayText, id), LlmAnswer.Sanitize(TextOf(c.llm.overlayText, id));
            && shown == r.assembled == SseStream.Concat(r.deltas)
            && jobs == c.jobs + [job] && job.session == id && job.origin == ClientLoop.LlmAnswer
            && job.text == (if Text.Blank(clean) then finish.progress.transcript else clean)
            && (|| job.text == finish.progress.transcript
                || (!LlmAnswer.Contains(job.text, "<think>") && Subsequences.Subsequence(job.text, shown)))
  {
    var started := Step(s, Loop(accept));
    StartsBlank(s.client, accept, id);
    ClientRuns(started, moves);
    TextIsWhatWasHeard(started.client, Events(moves), id);
    SseStream.DeltasAddUpToAnswer(d, [], chunks, SseStream.Start);
    job := FinishInjectsTheText(Run(started, moves).client, finish, id);
    LlmAnswer.SanitizedAnswer(r.assembled);
  }

  // ---------------------------------------------------------------- leaving the screen

  // What the renderer takes in along a run.
  function Inputs(s: System, moves: seq<Move>): seq<OverlayStateLaws.Input>
    requires PossibleRun(s, moves)
    decreases |moves|
  {
    if moves == [] then []
    else
      var rest := Inputs(Step(s, moves[0]), moves[1..]);
      match moves[0]
      case Loop(_) => rest
      case Deliver(at) => [OverlayStateLaws.Receive(s.client.router.sent[s.delivered], at)] + rest
      case Tick(at) => [OverlayStateLaws.Tick(at)] + rest
  }

  lemma {:induction false} ScreenIsFed(s: System, moves: seq<Move>)
    requires PossibleRun(s, moves)
    ensures Run(s, moves).screen == OverlayStateLaws.Feed(s.screen, Inputs(s, moves))
    decreases |moves|
  {
    if moves != [] {
      var next, rest := Step(s, moves[0]), moves[1..];
      ScreenIsFed(next, rest);
      assert !moves[0].Loop? ==> Inputs(s, moves)[1..] == Inputs(next, rest);
    }
  }

  // After a session is closed and the renderer has consumed what was sent before, no interim
  // event of that session reaches it again.
  lemma {:induction false} ClosedSessionIsSilent(s: System, moves: seq<Move>, id: Uuid)
    requires SystemInv(s) && PossibleRun(s, moves)
    requires id in s.client.closedAt && s.client.closedAt[id] <= s.delivered
    ensures OverlayStateLaws.NoInterimOf(id, Inputs(s, moves))
    decreases |moves|
  {
    if moves != [] {
      var next, rest := Step(s, moves[0]), moves[1..];
      MoveKeepsSystemInv(s, moves[0]);
      ClosedStays(s, moves[0], id);
      ClosedSessionIsSilent(next, rest, id);
      var inputs, later := Inputs(s, moves), Inputs(next, rest);
      if !moves[0].Loop? {
        assert inputs[1..] == later;
        assert forall k :: 0 < k < |inputs| ==> inputs[k] == later[k - 1];
      }
    }
  }

  lemma ClosedStays(s: System, move: Move, id: Uuid)
    requires SystemInv(s) && Possible(s, move) && id in s.client.closedAt
    ensures var t := Step(s, move);
            id in t.client.closedAt && t.client.closedAt[id] == s.client.closedAt[id] && s.delivered <= t.delivered
  {
    if move.Loop? {
      assert !Current(s.client, id);
      var closing := StepCloses(s.client, move.event);
    }
  }

  lemma ClosedIsReal(s: System, id: Uuid)
    requires SystemInv(s) && id in s.client.closedAt
    ensures id != NIL && OverlayStateLaws.WellFormed(s.screen)
  {
    assert id in s.client.started;
  }

  // A closed session with a hide deadline keeps one through everything that can happen, at the
  // latest `Linger` after the last message that ends it.
  lemma ClosedSheetLeaves(s: System, moves: seq<Move>, id: Uuid, deadline: nat)
    requires SystemInv(s) && PossibleRun(s, moves)
    requires id in s.client.closedAt && s.client.closedAt[id] <= s.delivered
    requires OverlayStateLaws.Leaving(s.screen, id, deadline)
    ensures LeavesInTime(s.screen, Inputs(s, moves), Run(s, moves).screen, id, deadline)
  {
    var inputs, t := Inputs(s, moves), Run(s, moves).screen;
    ClosedIsReal(s, id);
    ClosedSessionIsSilent(s, moves, id);
    ScreenIsFed(s, moves);
    OverlayStateLaws.LeavingIsFinal(s.screen, inputs, id, deadline);
    assert LeavesInTime(s.screen, inputs, t, id, deadline);
  }

  predicate LeavesInTime(s: Screen, inputs: seq<OverlayStateLaws.Input>, t: Screen, id: Uuid, deadline: nat) {
    OverlayStateLaws.Leaving(t, id, Max(deadline, OverlayStateLaws.LastEnding(inputs, id) + OverlayStateLaws.Linger(s)))
  }

  // In every run: a closed session of which the renderer has consumed an end, or the outcome of its
  // injection, is off the screen or has a deadline, and a tick past that deadline hides it.
  lemma EndedSheetLeaves(copyOnly: bool, autoHideMs: nat, moves: seq<Move>, id: Uuid, now: nat)
    requires PossibleRun(NewSystem(copyOnly, autoHideMs), moves)
    requires var s := Run(NewSystem(copyOnly, autoHideMs), moves);
             && id in s.client.closedAt && s.delivered <= |s.client.router.sent|
             && EndSeen(s, id) && s.screen.Shows(id)
    ensures var s := Run(NewSystem(copyOnly, autoHideMs), moves);
            && s.screen.hideDeadline.Some?
            && (s.screen.hideDeadline.value <= now ==> !OverlayState.AdvanceTime(s.screen, now).0.Shows(id))
  {
    ReachableIsGood(copyOnly, autoHideMs, moves);
  }

  // A finished answer always gets there: its end is the first thing sent once it is closed.
  lemma FinishedAnswerLeaves(copyOnly: bool, autoHideMs: nat, moves: seq<Move>, id: Uuid)
    requires PossibleRun(NewSystem(copyOnly, autoHideMs), moves)
    requires var s := Run(NewSystem(copyOnly, autoHideMs), moves);
             && id in s.client.closedAt && id in s.client.started && s.client.started[id].intent == LlmQuery
             && s.client.closedAt[id] < s.delivered
    ensures var s := Run(NewSystem(copyOnly, autoHideMs), moves);
            && s.delivered <= |s.client.router.sent| && EndSeen(s, id)
            && (s.screen.Shows(id) ==> s.screen.hideDeadline.Some?)
  {
    var s := Run(NewSystem(copyOnly, autoHideMs), moves);
    ReachableIsGood(copyOnly, autoHideMs, moves);
    assert Ends(s.client.router.sent[s.client.closedAt[id]], id);
  }

  // In every run: a sheet that stays for session `id` can be taken off the screen by time alone
  // exactly when the last thing the renderer applied about `id` was an end or an outcome.
  lemma SheetLeavesExactlyWhenArmed(s: System, moves: seq<Move>, id: Uuid)
    requires SystemInv(s) && PossibleRun(s, moves)
    requires id != NIL && OverlayStateLaws.Keeps(s.screen, id, Inputs(s, moves))
    ensures Run(s, moves).screen.Shows(id)
    ensures (exists now: nat :: !OverlayState.AdvanceTime(Run(s, moves).screen, now).0.Shows(id)) <==>
            OverlayStateLaws.Armed(s.screen, Inputs(s, moves), id, s.screen.hideDeadline.Some?)
  {
    ScreenIsFed(s, moves);
    OverlayStateLaws.DeadlineIsArmedExactly(s.screen, Inputs(s, moves), id);
    var t := Run(s, moves).screen;
    if t.hideDeadline.Some? {
      OverlayStateLaws.TickPastDeadlineHides(t, id, t.hideDeadline.value, t.hideDeadline.value);
    }
  }

  lemma StaysShown(s: System, moves: seq<Move>, id: Uuid)
    requires PossibleRun(s, moves) && moves != [] && OverlayStateLaws.Keeps(s.screen, id, Inputs(s, moves))
    ensures var next, rest := Step(s, moves[0]), moves[1..];
            s.screen.Shows(id) && OverlayStateLaws.Keeps(next.screen, id, Inputs(next, rest))
  {
    assert !moves[0].Loop? ==> Inputs(s, moves)[1..] == Inputs(Step(s, moves[0]), moves[1..]);
  }

  // One move of a closed session's sheet.
  lemma MoveArmsClosed(s: System, move: Move, id: Uuid)
    requires SystemInv(s) && Possible(s, move) && s.screen.Shows(id) && Step(s, move).screen.Shows(id)
    requires id in s.client.closedAt && s.client.closedAt[id] <= s.delivered
    ensures var t := Step(s, move);
            && s.client.router.sent <= t.client.router.sent
            && (t.screen.hideDeadline.Some? <==>
                  || s.screen.hideDeadline.Some?
                  || (move.Deliver? && Ends(s.client.router.sent[s.delivered], id)))
  {
    ClosedIsReal(s, id);
    match move
    case Loop(e) => StepAdds(s.client, e);
    case Deliver(at) =>
      assert !s.client.router.sent[s.delivered].IsInterimOf(id);
      OverlayStateLaws.StepArms(s.screen, OverlayStateLaws.Receive(s.client.router.sent[s.delivered], at), id);
    case Tick(at) =>
      OverlayStateLaws.StepArms(s.screen, OverlayStateLaws.Tick(at), id);
  }

  // For a closed session that is exactly when it had a deadline before, or an end or an outcome of
  // it has been delivered since.
  lemma {:induction false} ClosedSheetIsArmedExactly(s: System, moves: seq<Move>, id: Uuid)
    requires SystemInv(s) && PossibleRun(s, moves)
    requires id in s.client.closedAt && s.client.closedAt[id] <= s.delivered
    requires OverlayStateLaws.Keeps(s.screen, id, Inputs(s, moves))
    ensures var t := Run(s, moves);
            && s.client.router.sent <= t.client.router.sent && s.delivered <= t.delivered <= |t.client.router.sent|
            && (t.screen.hideDeadline.Some? <==>
                  s.screen.hideDeadline.Some? || EndsBetween(t.client.router.sent, id, s.delivered, t.delivered))
    decreases |moves|
  {
    if moves != [] {
      var next, rest := Step(s, moves[0]), moves[1..];
      StaysShown(s, moves, id);
      MoveKeepsSystemInv(s, moves[0]);
      ClosedStays(s, moves[0], id);
      ClosedSheetIsArmedExactly(next, rest, id);
      MoveArmsClosed(s, moves[0], id);
      var t := Run(next, rest);
      BetweenSplits(t.client.router.sent, id, s.delivered, next.delivered, t.delivered);
      assert moves[0].Deliver? ==> t.client.router.sent[s.delivered] == s.client.router.sent[s.delivered];
    }
  }

  lemma BetweenSplits(sent: seq<Message>, id: Uuid, from: nat, mid: nat, to: nat)
    requires from <= mid <= from + 1 && mid <= to <= |sent|
    ensures EndsBetween(sent, id, from, to) <==>
            (from < mid && Ends(sent[from], id)) || EndsBetween(sent, id, mid, to)
  {
  }

  // ---------------------------------------------------------------- the outcome on the sheet

  lemma {:induction false} SentGrows(s: System, moves: seq<Move>)
    requires SystemInv(s) && PossibleRun(s, moves)
    ensures s.client.router.sent <= Run(s, moves).client.router.sent
    decreases |moves|
  {
    if moves != [] {
      MoveKeepsSystemInv(s, moves[0]);
      SentGrows(Step(s, moves[0]), moves[1..]);
      if moves[0].Loop? {
        assert s.client.llm.inFlight.Some? ==> Current(s.client, s.client.llm.inFlight.value);
        StepAdds(s.client, moves[0].event);
      }
    }
  }

  lemma ReportSends(c: Client, id: Uuid, success: bool)
    requires Inv(c) && RouterReady(c) && ClientSteps.NoticeReady(c.router)
    ensures ClientLoop.Step(c, ClientLoop.Report(id, success)).router.sent
         == c.router.sent + [InjectionComplete(id, success, c.copyOnly)]
  {
    ClientSteps.StepSends(c, ClientLoop.Report(id, success));
  }

  // End to end: the report of an injection, however long it takes to get there and whatever happens
  // meanwhile, puts its own outcome on the sheet of its session, if that is shown then.
  lemma {:induction false} ReportIsShown(
    s: System, id: Uuid, success: bool, moves: seq<Move>, t: System, at: nat)
    requires SystemInv(s) && ClientSteps.NoticeReady(s.client.router)
    requires Possible(s, Loop(ClientLoop.Report(id, success)))
    requires var reported := Step(s, Loop(ClientLoop.Report(id, success)));
             PossibleRun(reported, moves) && t == Run(reported, moves)
    requires t.delivered == |s.client.router.sent| && t.screen.Shows(id)
    ensures Possible(t, Deliver(at))
    ensures var u := Step(t, Deliver(at)).screen;
            && u.Shows(id) && u.visible.value.phase == OverlayState.Done(success)
            && u.visible.value.copyOnly == s.client.copyOnly && u.hideDeadline == Some(at + 900)
  {
    var reported := Step(s, Loop(ClientLoop.Report(id, success)));
    ReportSends(s.client, id, success);
    MoveKeepsSystemInv(s, Loop(ClientLoop.Report(id, success)));
    RunKeepsSystemInv(reported, moves);
    SentGrows(reported, moves);
    assert t.client.router.sent[t.delivered] == InjectionComplete(id, success, s.client.copyOnly);
    assert id in s.client.started;
    OverlayView.OutcomeIsShown(t.screen, id, success, s.client.copyOnly, at);
  }

  // And there it stays, as long as the sheet does and no other report of that session is delivered.
  lemma {:induction false} OutcomeStaysShown(s: System, moves: seq<Move>, id: Uuid, success: bool)
    requires SystemInv(s) && PossibleRun(s, moves)
    requires id in s.client.closedAt && s.client.closedAt[id] <= s.delivered
    requires s.screen.Shows(id) && s.screen.visible.value.phase == OverlayState.Done(success)
    requires s.screen.visible.value.endedMs.Some? && OverlayView.Stays(s.screen, Inputs(s, moves), id)
    requires forall k :: 0 <= k < |Inputs(s, moves)| && Inputs(s, moves)[k].Receive? ==>
               !(Inputs(s, moves)[k].message.InjectionComplete? && Inputs(s, moves)[k].message.session == id)
    ensures var t := Run(s, moves).screen; t.Shows(id) && t.visible.value.phase == OverlayState.Done(success)
  {
    ClosedIsReal(s, id);
    ClosedSessionIsSilent(s, moves, id);
    ScreenIsFed(s, moves);
    OverlayView.OutcomeStays(s.screen, Inputs(s, moves), id, success, s.screen.visible.value.copyOnly);
  }

  // No end is sent for a session that a lost connection cut off unless the daemon ends it later:
  // until then its sheet stays.
  lemma AbandonedSheetStays(id: Uuid, ticks: seq<OverlayStateLaws.Input>)
    requires id != NIL && forall k :: 0 <= k < |ticks| ==> ticks[k].Tick?
    ensures var s := NewSystem(false, OverlayState.DEFAULT_AUTO_HIDE_AFTER_MS);
            && PossibleRun(s, Abandoning(id))
            && var t := Run(s, Abandoning(id));
               && t.client.session == NoSession && t.delivered == |t.client.router.sent|
               && OverlayStateLaws.Feed(t.screen, ticks).Shows(id)
  {
    var s := NewSystem(false, OverlayState.DEFAULT_AUTO_HIDE_AFTER_MS);
    var m := Abandoning(id);
    var t := AbandonedSteps(id);
    var s1 := Step(s, m[0]);
    var s2 := Step(s1, m[1]);
    RunOfFour(s, m[0], m[1], m[2], m[3]);
    assert m == [m[0], m[1], m[2], m[3]];
    OverlayStateLaws.TimeHidesExactlyPastDeadline(t.screen, ticks, id);
  }

  lemma AbandonedSteps(id: Uuid) returns (t: System)
    requires id != NIL
    ensures var s, m := NewSystem(false, OverlayState.DEFAULT_AUTO_HIDE_AFTER_MS), Abandoning(id);
            && Possible(s, m[0]) && Possible(Step(s, m[0]), m[1]) && Possible(Step(Step(s, m[0]), m[1]), m[2])
            && Possible(Step(Step(Step(s, m[0]), m[1]), m[2]), m[3])
            && t == Step(Step(Step(Step(s, m[0]), m[1]), m[2]), m[3])
    ensures t.client.session == NoSession && t.delivered == |t.client.router.sent|
    ensures t.screen.Shows(id) && t.screen.hideDeadline.None?
  {
    var s1 := Step(NewSystem(false, OverlayState.DEFAULT_AUTO_HIDE_AFTER_MS), Abandoning(id)[0]);
    var s2 := Step(s1, Abandoning(id)[1]);
    var s3 := Step(s2, Abandoning(id)[2]);
    assert s3.client.router.sent == [InterimState(id, DaemonSttInterim, 1, OverlayState.DAEMON_STATE_LISTENING)];
    t := Step(s3, Abandoning(id)[3]);
  }

  lemma RunOfFour(s: System, a: Move, b: Move, c: Move, d: Move)
    requires Possible(s, a) && Possible(Step(s, a), b) && Possible(Step(Step(s, a), b), c)
    requires Possible(Step(Step(Step(s, a), b), c), d)
    ensures PossibleRun(s, [a, b, c, d])
    ensures Run(s, [a, b, c, d]) == Step(Step(Step(Step(s, a), b), c), d)
  {
    RunFirst(Step(Step(Step(s, a), b), c), d, []);
    RunFirst(Step(Step(s, a), b), c, [d]);
    RunFirst(Step(s, a), b, [c, d]);
    RunFirst(s, a, [b, c, d]);
    assert [d] + [] == [d] && [c] + [d] == [c, d] && [b] + [c, d] == [b, c, d] && [a] + [b, c, d] == [a, b, c, d];
  }

  function Abandoning(id: Uuid): seq<Move> {
    [Loop(ClientLoop.HotkeyDown(Dictate, id, true, None)),
     Loop(ClientLoop.Daemon(DaemonState(id, 1, OverlayState.DAEMON_STATE_LISTENING), None, true)),
     Loop(ClientLoop.ConnectionLost), Deliver(0)]
  }

  lemma RunFirst(s: System, move: Move, rest: seq<Move>)
    requires Possible(s, move) && PossibleRun(Step(s, move), rest)
    ensures PossibleRun(s, [move] + rest)
    ensures Run(s, [move] + rest) == Run(Step(s, move), rest)
  {
    assert ([move] + rest)[1..] == rest;
  }
}
