// Sheets over runs of the client, the manager and crashing renderers: a sheet that was told to leave
// leaves, whatever crashes; and a warning that a move to another output loses.
module SheetRecovery {
  import opened Prelude
  import opened OverlayIpc
  import OverlayState
  import OverlayStateLaws
  import opened ClientSession
  import ClientLoop
  import opened ClientLoopLaws
  import opened OverlayProcess
  import OverlayProcessLaws
  import Pipeline
  import opened CrashRecovery

  // ---------------------------------------------------------------- a sheet told to leave

  predicate ScreenLeaves(s: OverlayState.Screen, id: Uuid) {
    s.Shows(id) ==> s.hideDeadline.Some?
  }

  // What is stored about session `id`, if anything, is its end.
  predicate StoresOnlyEnd(g: Manager, id: Uuid) {
    SessionOf(g.latestMessage) == Some(id) ==> g.latestMessage.value.SessionEnded?
  }

  // And the living process shows `id` only on its way off the screen.
  predicate Leaves(g: Manager, id: Uuid) {
    StoresOnlyEnd(g, id) && (g.sink.Some? ==> ScreenLeaves(g.sink.value.screen, id))
  }

  lemma ApplyKeepsLeaves(s: OverlayState.Screen, m: Message, at: nat, id: Uuid)
    requires OverlayStateLaws.WellFormed(s) && id != NIL && ScreenLeaves(s, id) && !m.IsInterimOf(id)
    ensures ScreenLeaves(OverlayState.Apply(s, m, at).0, id)
  {
    var input := OverlayStateLaws.Receive(m, at);
    assert OverlayStateLaws.NoInterimOf(id, [input]);
    OverlayStateLaws.StepKeepsLeaving(s, input, id, s.hideDeadline.GetOr(0));
  }

  lemma EndApplied(s: OverlayState.Screen, m: Message, at: nat, id: Uuid)
    requires OverlayStateLaws.WellFormed(s) && id != NIL && Pipeline.Ends(m, id)
    ensures ScreenLeaves(OverlayState.Apply(s, m, at).0, id)
  {
  }

  lemma {:induction false} TakeAllKeepsLeaves(s: Sink, ms: seq<Message>, now: nat, id: Uuid)
    requires OverlayStateLaws.WellFormed(s.screen) && id != NIL && ScreenLeaves(s.screen, id)
    requires forall k :: 0 <= k < |ms| ==> !ms[k].IsInterimOf(id)
    ensures TakeAll(s, ms, now).Some? ==> ScreenLeaves(TakeAll(s, ms, now).value.screen, id)
    decreases |ms|
  {
    if ms != [] {
      ApplyKeepsLeaves(s.screen, ms[0], Monus(now, s.epoch), id);
      OverlayProcessLaws.TakeKeepsWellFormed(s, ms[0], now);
      if Take(s, ms[0], now).Some? { TakeAllKeepsLeaves(Take(s, ms[0], now).value, ms[1..], now, id); }
    }
  }

  lemma SpawnLeaves(g: Manager, m: Message, now: nat, focus: Option<string>, launcher: Launcher, id: Uuid)
    requires OverlayProcessLaws.Inv(g) && id != NIL && g.sink.None? && StoresOnlyEnd(g, id) && !m.IsInterimOf(id)
    ensures Leaves(SpawnAndSync(g, m, now, focus, launcher), id)
  {
    var h := TrySpawn(g, now, focus, launcher);
    OverlayProcessLaws.SpawnFrame(g, now, focus, launcher);
    if h.sink.Some? {
      BatchHasNoInterim(h, m, now, id);
      TakeAllKeepsLeaves(h.sink.value, Batch(h, m, now), now, id);
    }
  }

  lemma BatchHasNoInterim(g: Manager, m: Message, now: nat, id: Uuid)
    requires g.latestWarning.Some? ==> g.latestWarning.value.SessionWarning?
    requires StoresOnlyEnd(g, id) && !m.IsInterimOf(id)
    ensures forall k :: 0 <= k < |Batch(g, m, now)| ==> !Batch(g, m, now)[k].IsInterimOf(id)
  {
  }

  lemma DeliverLeaves(g: Manager, m: Message, now: nat, focus: Option<string>, launcher: Launcher, id: Uuid)
    requires OverlayProcessLaws.Inv(g) && id != NIL && StoresOnlyEnd(g, id) && !m.IsInterimOf(id)
    requires g.sink.Some? ==>
               ScreenLeaves(OverlayState.Apply(g.sink.value.screen, m, Monus(now, g.sink.value.epoch)).0, id)
    ensures Leaves(Deliver(g, m, now, focus, launcher), id)
  {
    SpawnLeaves(if g.sink.None? then g else WithoutSink(g), m, now, focus, launcher, id);
  }

  lemma PrepareStores(g: Manager, m: Message, now: nat, launcher: Launcher, id: Uuid)
    requires (StoresOnlyEnd(g, id) && !m.IsInterimOf(id)) || Pipeline.Ends(m, id)
    ensures StoresOnlyEnd(Prepare(g, m, now, launcher), id)
  {
  }

  lemma SendKeepsLeaves(g: Manager, m: Message, now: nat, focus: Option<string>, launcher: Launcher, id: Uuid)
    requires OverlayProcessLaws.Inv(g) && id != NIL && Leaves(g, id) && !m.IsInterimOf(id)
    ensures Leaves(Send(g, m, now, focus, launcher), id)
  {
    var p := Prepare(g, m, now, launcher);
    PrepareStores(g, m, now, launcher, id);
    OverlayProcessLaws.PrepareKeepsInv(g, m, now, launcher);
    OverlayProcessLaws.PrepareKeepsOrMovesSink(g, m, now, launcher);
    if p.sink.Some? {
      ApplyKeepsLeaves(p.sink.value.screen, m, Monus(now, p.sink.value.epoch), id);
    }
    DeliverLeaves(p, m, now, focus, launcher, id);
  }

  // Sending an end or an outcome of `id` puts it on its way off every screen there is or will be.
  lemma EndMakesLeave(g: Manager, m: Message, now: nat, focus: Option<string>, launcher: Launcher, id: Uuid)
    requires OverlayProcessLaws.Inv(g) && id != NIL && Pipeline.Ends(m, id)
    ensures Leaves(Send(g, m, now, focus, launcher), id)
  {
    var p := Prepare(g, m, now, launcher);
    PrepareStores(g, m, now, launcher, id);
    OverlayProcessLaws.PrepareKeepsInv(g, m, now, launcher);
    if p.sink.Some? {
      EndApplied(p.sink.value.screen, m, Monus(now, p.sink.value.epoch), id);
    }
    DeliverLeaves(p, m, now, focus, launcher, id);
  }

  // So does a row of messages without interim events of `id` that leaves already or ends on the way.
  lemma {:induction false} SendAllLeaves(
    g: Manager, ms: seq<Message>, at: nat, focus: Option<string>, launcher: Launcher, id: Uuid)
    requires OverlayProcessLaws.Inv(g) && id != NIL && forall k :: 0 <= k < |ms| ==> !ms[k].IsInterimOf(id)
    requires Leaves(g, id) || exists k :: 0 <= k < |ms| && Pipeline.Ends(ms[k], id)
    ensures Leaves(OverlayProcessLaws.DoAll(g, OpsOf(ms, at, focus), launcher), id)
    decreases |ms|
  {
    if ms != [] {
      var m, rest := ms[0], ms[1..];
      OverlayProcessLaws.SendKeepsInv(g, m, at, focus, launcher);
      if Pipeline.Ends(m, id) {
        EndMakesLeave(g, m, at, focus, launcher, id);
      } else if Leaves(g, id) {
        SendKeepsLeaves(g, m, at, focus, launcher, id);
      } else {
        var k :| 0 <= k < |ms| && Pipeline.Ends(ms[k], id);
        assert rest[k - 1] == ms[k];
      }
      assert OpsOf(ms, at, focus)[1..] == OpsOf(rest, at, focus);
      SendAllLeaves(Send(g, m, at, focus, launcher), rest, at, focus, launcher, id);
    }
  }

  // ---------------------------------------------------------------- over runs

  lemma ClosedAddsNoInterim(c: Client, e: ClientLoop.Event, id: Uuid)
    requires Inv(c) && ClientLoop.Possible(c, e) && id in ClientLoop.Step(c, e).closedAt
    ensures id != NIL
    ensures forall k :: 0 <= k < |Added(c, e)| ==> !Added(c, e)[k].IsInterimOf(id)
  {
    AddedIsNew(c, e);
    StepKeepsInv(c, e);
    var closing := Pipeline.StepCloses(c, e);
    forall k | 0 <= k < |Added(c, e)|
      ensures !Added(c, e)[k].IsInterimOf(id)
    {
      if id in c.closedAt {
        Pipeline.ClosedGetsNoInterim(c, e, id, Added(c, e)[k]);
      } else {
        assert Added(c, e)[k] == ClientLoop.Step(c, e).router.sent[|c.router.sent| + k];
      }
    }
  }

  lemma TickKeepsLeaves(g: Manager, now: nat, id: Uuid)
    requires Leaves(g, id)
    ensures Leaves(OverlayProcessLaws.TickSink(g, now), id)
  {
  }

  lemma MoveKeepsLeaves(s: System, move: Move, launcher: Launcher, id: Uuid)
    requires SystemInv(s) && Possible(s, move) && id in s.client.closedAt && Leaves(s.manager, id)
    ensures id in Step(s, move, launcher).client.closedAt && Leaves(Step(s, move, launcher).manager, id)
  {
    match move
    case Loop(e, at, focus) =>
      var closing := Pipeline.StepCloses(s.client, e);
      ClosedAddsNoInterim(s.client, e, id);
      SendAllLeaves(s.manager, Added(s.client, e), at, focus, launcher, id);
    case Tick(at) => TickKeepsLeaves(s.manager, at, id);
  }

  lemma {:induction false} RunKeepsLeaves(s: System, moves: seq<Move>, launcher: Launcher, id: Uuid)
    requires SystemInv(s) && PossibleRun(s, moves, launcher) && id in s.client.closedAt && Leaves(s.manager, id)
    ensures Leaves(Run(s, moves, launcher).manager, id)
    decreases |moves|
  {
    if moves != [] {
      MoveKeepsSystemInv(s, moves[0], launcher);
      MoveKeepsLeaves(s, moves[0], launcher, id);
      RunKeepsLeaves(Step(s, moves[0], launcher), moves[1..], launcher, id);
    }
  }

  // In every run from the start: once an event has sent an end or an outcome of a closed session, no
  // crash and no respawn revives its sheet. A process that shows it has a deadline for it, and a tick
  // past that deadline hides it.
  lemma {:induction false} EndedSheetIsNotRevived(
    start: System, before: seq<Move>, ending: Move, k: nat, moves: seq<Move>, launcher: Launcher, id: Uuid,
    s: System, ended: System)
    requires Starting(start) && PossibleRun(start, before, launcher) && s == Run(start, before, launcher)
    requires ending.Loop? && Possible(s, ending) && ended == Step(s, ending, launcher)
    requires k < |Added(s.client, ending.event)| && Pipeline.Ends(Added(s.client, ending.event)[k], id)
    requires id in ended.client.closedAt && PossibleRun(ended, moves, launcher)
    ensures var g := Run(ended, moves, launcher).manager;
            && Leaves(g, id)
            && (g.sink.Some? && g.sink.value.screen.Shows(id) ==>
                  forall now :: g.sink.value.screen.hideDeadline.value <= now ==>
                    !OverlayState.AdvanceTime(g.sink.value.screen, now).0.Shows(id))
  {
    StartingIsGood(start);
    RunKeepsSystemInv(start, before, launcher);
    MoveKeepsSystemInv(s, ending, launcher);
    ClosedAddsNoInterim(s.client, ending.event, id);
    SendAllLeaves(s.manager, Added(s.client, ending.event), ending.at, ending.focus, launcher, id);
    RunKeepsLeaves(ended, moves, launcher, id);
  }

  // A finished answer is such a session.
  lemma FinishedAnswerIsEnded(c: Client, e: ClientLoop.Event, id: Uuid)
    requires Inv(c) && ClientLoop.Possible(c, e) && FinishesAnswer(c, e, id)
    ensures id in ClientLoop.Step(c, e).closedAt
    ensures |Added(c, e)| == 1 && Pipeline.Ends(Added(c, e)[0], id)
  {
    AddedIsNew(c, e);
    var _ := FinishingStep(c, id, e.progress.transcript, e.progress.result, e.hint, e.queued);
    assert ClientLoop.Step(c, e).router.sent[|c.router.sent|] == Added(c, e)[0];
  }

  // ---------------------------------------------------------------- a warning lost in a move

  // What a run hands to the manager.
  function OpsAlong(c: Client, moves: seq<Move>): seq<OverlayProcessLaws.Op>
    decreases |moves|
  {
    if moves == [] then []
    else
      match moves[0]
      case Loop(e, at, focus) => OpsOf(Added(c, e), at, focus) + OpsAlong(ClientLoop.Step(c, e), moves[1..])
      case Tick(at) => [OverlayProcessLaws.TickOp(at)] + OpsAlong(c, moves[1..])
  }

  lemma {:induction false} ManagerRuns(s: System, moves: seq<Move>, launcher: Launcher)
    ensures Run(s, moves, launcher).manager
         == OverlayProcessLaws.DoAll(s.manager, OpsAlong(s.client, moves), launcher)
    decreases |moves|
  {
    if moves != [] {
      var next, rest := Step(s, moves[0], launcher), moves[1..];
      ManagerRuns(next, rest, launcher);
      match moves[0]
      case Loop(e, at, focus) =>
        OverlayProcessLaws.DoAllConcat(
          s.manager, OpsOf(Added(s.client, e), at, focus), OpsAlong(next.client, rest), launcher);
      case Tick(at) =>
        OverlayProcessLaws.OneOpMore(
          s.manager, OverlayProcessLaws.TickOp(at), OpsAlong(next.client, rest), launcher);
    }
  }

  // The daemon ends the session while it is dictated, acknowledges it again, warns of its cap, and
  // goes on with it after the focus moved to another output.
  function Reopening(id: Uuid, a: string, b: string): seq<Move> {
    [Loop(ClientLoop.HotkeyDown(Dictate, id, true, None), 0, None),
     Loop(ClientLoop.Daemon(DaemonText(id, 1, a), None, true), 0, Some(a)),
     Loop(ClientLoop.Daemon(DaemonSessionEnded(id, None), None, true), 0, None),
     Loop(ClientLoop.Daemon(SessionStarted(id), None, true), 0, None),
     Loop(ClientLoop.Daemon(DaemonSessionWarning(id, 5000, 60000), None, true), 0, None),
     Loop(ClientLoop.Daemon(DaemonText(id, 2, b), Some(b), true), 0, None)]
  }

  function NewSystem(): System { System(ClientLoop.NewClient(false), NewManager(true, false, 0, 0, 0)) }

  // In that run of the client the move loses the warning: the session is shown without it, although
  // a respawn would replay it.
  lemma ClientLosesWarning(id: Uuid, a: string, b: string, launcher: Launcher)
    requires id != NIL && a != b && forall n :: launcher(n) == Some(9)
    ensures PossibleRun(NewSystem(), Reopening(id, a, b), launcher)
    ensures var h := Run(NewSystem(), Reopening(id, a, b), launcher).manager;
            && h.sink.Some? && |Replay(h, 0)| == 2
            && h.sink.value.screen.Shows(id) && h.sink.value.screen.visible.value.warning.None?
  {
    ReopeningIsPossible(id, a, b, launcher);
    ReopeningHandsOver(id, a, b);
    ManagerRuns(NewSystem(), Reopening(id, a, b), launcher);
    OverlayProcessLaws.MoveLosesWarning(id, a, b, launcher);
  }

  lemma ReopeningIsPossible(id: Uuid, a: string, b: string, launcher: Launcher)
    requires id != NIL
    ensures PossibleRun(NewSystem(), Reopening(id, a, b), launcher)
  {
    OnlyFirstMatters(Step(NewSystem(), Reopening(id, a, b)[0], launcher), Reopening(id, a, b)[1..], launcher);
  }

  lemma {:induction false} OnlyFirstMatters(s: System, moves: seq<Move>, launcher: Launcher)
    requires forall k :: 0 <= k < |moves| ==> moves[k].Loop? && moves[k].event.Daemon?
    ensures PossibleRun(s, moves, launcher)
    decreases |moves|
  {
    if moves != [] { OnlyFirstMatters(Step(s, moves[0], launcher), moves[1..], launcher); }
  }

  lemma AddedIs(c: Client, e: ClientLoop.Event, ms: seq<Message>)
    requires ClientLoop.Step(c, e).router.sent == c.router.sent + ms
    ensures Added(c, e) == ms
  {
    assert (c.router.sent + ms)[|c.router.sent|..] == ms;
  }

  lemma OpsOneMore(c: Client, move: Move, rest: seq<Move>, d: Client, ms: seq<Message>)
    requires move.Loop? && d == ClientLoop.Step(c, move.event) && d.router.sent == c.router.sent + ms
    ensures OpsAlong(c, [move] + rest) == OpsOf(ms, move.at, move.focus) + OpsAlong(d, rest)
  {
    AddedIs(c, move.event, ms);
    assert ([move] + rest)[1..] == rest;
  }

  lemma OneOp(m: Message, at: nat, focus: Option<string>)
    ensures OpsOf([m], at, focus) == [OverlayProcessLaws.SendOp(m, at, focus)]
  {
  }

  // The client dictates `id`, and its router has no number of the daemon's for it.
  predicate Unnumbered(c: Client, id: Uuid) {
    && c.session.Active() == Some(id) && c.session.intent == Some(Dictate) && c.llm.inFlight.None?
    && (c.router.active == Some(id) ==> DaemonSttInterim !in c.router.lastSeq)
  }

  lemma TextStep(c: Client, id: Uuid, number: nat, text: string, hint: Option<string>) returns (d: Client)
    requires Unnumbered(c, id)
    ensures d == ClientLoop.Step(c, ClientLoop.Daemon(DaemonText(id, number, text), hint, true))
    ensures d.router.sent
         == c.router.sent + (Pipeline.HintMessages(hint) + [InterimText(id, DaemonSttInterim, number, text)])
    ensures d.session == c.session && d.llm == c.llm
  {
    d := ClientLoop.Step(c, ClientLoop.Daemon(DaemonText(id, number, text), hint, true));
  }

  lemma EndStep(c: Client, id: Uuid) returns (d: Client)
    requires c.session.Active() == Some(id) && c.session.intent == Some(Dictate) && c.llm.inFlight.None?
    ensures d == ClientLoop.Step(c, ClientLoop.Daemon(DaemonSessionEnded(id, None), None, true))
    ensures d.router.sent == c.router.sent + [SessionEnded(id, None)] && Unnumbered(d, id)
    ensures d.router.active != Some(id)
  {
    d := ClientLoop.Step(c, ClientLoop.Daemon(DaemonSessionEnded(id, None), None, true));
  }

  lemma StartedStep(c: Client, id: Uuid) returns (d: Client)
    requires Unnumbered(c, id)
    ensures d == ClientLoop.Step(c, ClientLoop.Daemon(SessionStarted(id), None, true))
    ensures d.router.sent == c.router.sent + [] && d.router.active == Some(id) && Unnumbered(d, id)
  {
    d := ClientLoop.Step(c, ClientLoop.Daemon(SessionStarted(id), None, true));
  }

  lemma WarningStep(c: Client, id: Uuid, left: int, limit: int) returns (d: Client)
    requires Unnumbered(c, id) && c.router.active == Some(id)
    ensures d == ClientLoop.Step(c, ClientLoop.Daemon(DaemonSessionWarning(id, left, limit), None, true))
    ensures d.router.sent == c.router.sent + [SessionWarning(id, Some(left), Some(limit))] && Unnumbered(d, id)
  {
    d := ClientLoop.Step(c, ClientLoop.Daemon(DaemonSessionWarning(id, left, limit), None, true));
  }

  // The first half, up to the end of the session.
  lemma EndedHandsOver(c: Client, id: Uuid, a: string, m: seq<Move>, rest: seq<Move>) returns (d: Client)
    requires Unnumbered(c, id) && |m| == 2
    requires m[0] == Loop(ClientLoop.Daemon(DaemonText(id, 1, a), None, true), 0, Some(a))
    requires m[1] == Loop(ClientLoop.Daemon(DaemonSessionEnded(id, None), None, true), 0, None)
    ensures Unnumbered(d, id)
    ensures OpsAlong(c, [m[0]] + ([m[1]] + rest))
         == [OverlayProcessLaws.SendOp(InterimText(id, DaemonSttInterim, 1, a), 0, Some(a))]
            + ([OverlayProcessLaws.SendOp(SessionEnded(id, None), 0, None)] + OpsAlong(d, rest))
  {
    var text := InterimText(id, DaemonSttInterim, 1, a);
    var heard := TextStep(c, id, 1, a, None);
    assert Pipeline.HintMessages(None) + [text] == [text];
    d := EndStep(heard, id);
    OpsOneMore(c, m[0], [m[1]] + rest, heard, [text]);
    OpsOneMore(heard, m[1], rest, d, [SessionEnded(id, None)]);
    OneOp(text, 0, Some(a));
    OneOp(SessionEnded(id, None), 0, None);
  }

  // The second half: acknowledged again, and warned.
  lemma WarnedHandsOver(c: Client, id: Uuid, m: seq<Move>, rest: seq<Move>) returns (d: Client)
    requires Unnumbered(c, id) && |m| == 2
    requires m[0] == Loop(ClientLoop.Daemon(SessionStarted(id), None, true), 0, None)
    requires m[1] == Loop(ClientLoop.Daemon(DaemonSessionWarning(id, 5000, 60000), None, true), 0, None)
    ensures Unnumbered(d, id)
    ensures OpsAlong(c, [m[0]] + ([m[1]] + rest))
         == [OverlayProcessLaws.SendOp(SessionWarning(id, Some(5000), Some(60000)), 0, None)] + OpsAlong(d, rest)
  {
    var started := StartedStep(c, id);
    d := WarningStep(started, id, 5000, 60000);
    OpsOneMore(c, m[0], [m[1]] + rest, started, []);
    OpsOneMore(started, m[1], rest, d, [SessionWarning(id, Some(5000), Some(60000))]);
    OneOp(SessionWarning(id, Some(5000), Some(60000)), 0, None);
    assert OpsOf([], 0, None) == [];
    assert [] + OpsAlong(started, [m[1]] + rest) == OpsAlong(started, [m[1]] + rest);
  }

  lemma MovedHandsOver(c: Client, id: Uuid, b: string, move: Move)
    requires Unnumbered(c, id)
    requires move == Loop(ClientLoop.Daemon(DaemonText(id, 2, b), Some(b), true), 0, None)
    ensures OpsAlong(c, [move] + [])
         == [OverlayProcessLaws.SendOp(OutputHint(b), 0, None),
             OverlayProcessLaws.SendOp(InterimText(id, DaemonSttInterim, 2, b), 0, None)]
  {
    var d := TextStep(c, id, 2, b, Some(b));
    var sent := Pipeline.HintMessages(Some(b)) + [InterimText(id, DaemonSttInterim, 2, b)];
    OpsOneMore(c, move, [], d, sent);
    assert sent == [OutputHint(b), InterimText(id, DaemonSttInterim, 2, b)];
    assert OpsAlong(d, []) == [] && OpsOf(sent, 0, None) + [] == OpsOf(sent, 0, None);
  }

  lemma ReopeningHandsOver(id: Uuid, a: string, b: string)
    requires id != NIL
    ensures OpsAlong(NewSystem().client, Reopening(id, a, b))
         == OverlayProcessLaws.BeforeMove(id, a, b)
            + [OverlayProcessLaws.SendOp(InterimText(id, DaemonSttInterim, 2, b), 0, None)]
  {
    var m, c := Reopening(id, a, b), NewSystem().client;
    var begun := ClientLoop.Step(c, m[0].event);
    var last := [m[5]] + [];
    OpsOneMore(c, m[0], m[1..], begun, []);
    var ended := EndedHandsOver(begun, id, a, m[1..3], [m[3]] + ([m[4]] + last));
    var warned := WarnedHandsOver(ended, id, m[3..5], last);
    MovedHandsOver(warned, id, b, m[5]);
    SplitMoves(m);
    var ops := OpsAlong(begun, m[1..]);
    assert OpsOf([], 0, None) == [] && [] + ops == ops;
    JoinOps(ops[0], ops[1], ops[2], ops[3], ops[4]);
  }

  lemma SplitMoves(m: seq<Move>)
    requires |m| == 6
    ensures m == [m[0]] + m[1..]
    ensures m[1..] == [m[1]] + ([m[2]] + ([m[3]] + ([m[4]] + ([m[5]] + []))))
  {
  }

  lemma JoinOps<T>(a: T, b: T, c: T, d: T, e: T)
    ensures [a] + ([b] + ([c] + [d, e])) == [a, b, c, d] + [e]
  {
  }
}
