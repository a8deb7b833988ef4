// What respawning the renderer keeps: what a new process is told, when one is launched, and what
// the user sees through any number of crashes.
module OverlayProcessLaws {
  import opened Prelude
  import opened OverlayIpc
  import opened OverlayState
  import OverlayStateLaws
  import opened OverlayProcess

  // ---------------------------------------------------------------- the stored messages

  predicate Inv(g: Manager) {
    && (g.latestMessage.Some? ==> g.latestMessage.value.IsInterim() || g.latestMessage.value.SessionEnded?)
    && (g.latestWarning.Some? ==>
          g.latestWarning.value.SessionWarning? && SessionOf(g.latestWarning) == SessionOf(g.latestMessage))
    && (g.nextSpawnAllowedAt.Some? ==> g.sink.None?)
    && (g.sink.Some? ==> g.enabled && OverlayStateLaws.WellFormed(g.sink.value.screen))
  }

  lemma TakeKeepsWellFormed(s: Sink, m: Message, now: nat)
    requires OverlayStateLaws.WellFormed(s.screen)
    ensures Take(s, m, now).Some? ==> OverlayStateLaws.WellFormed(Take(s, m, now).value.screen)
  {
    OverlayStateLaws.StepKeepsWellFormed(s.screen, OverlayStateLaws.Receive(m, Monus(now, s.epoch)));
  }

  lemma {:induction false} TakeAllKeepsWellFormed(s: Sink, ms: seq<Message>, now: nat)
    requires OverlayStateLaws.WellFormed(s.screen)
    ensures TakeAll(s, ms, now).Some? ==> OverlayStateLaws.WellFormed(TakeAll(s, ms, now).value.screen)
    decreases |ms|
  {
    if ms != [] {
      TakeKeepsWellFormed(s, ms[0], now);
      if Take(s, ms[0], now).Some? { TakeAllKeepsWellFormed(Take(s, ms[0], now).value, ms[1..], now); }
    }
  }

  lemma RememberKeepsInv(g: Manager, m: Message, now: nat)
    requires Inv(g)
    ensures Inv(Remember(g, m, now))
  {
  }

  lemma RetargetKeepsInv(g: Manager, now: nat, launcher: Launcher)
    requires Inv(g)
    ensures Inv(Retarget(g, now, launcher))
  {
  }

  lemma PrepareKeepsInv(g: Manager, m: Message, now: nat, launcher: Launcher)
    requires Inv(g)
    ensures Inv(Prepare(g, m, now, launcher))
  {
    RememberKeepsInv(g, m, now);
    RetargetKeepsInv(Remember(g, m, now), now, launcher);
  }

  lemma SpawnKeepsInv(g: Manager, now: nat, focus: Option<string>, launcher: Launcher)
    requires Inv(g)
    ensures Inv(TrySpawn(g, now, focus, launcher))
  {
  }

  lemma SyncKeepsInv(g: Manager, m: Message, now: nat, focus: Option<string>, launcher: Launcher)
    requires Inv(g)
    ensures Inv(SpawnAndSync(g, m, now, focus, launcher))
  {
    SpawnKeepsInv(g, now, focus, launcher);
    var h := TrySpawn(g, now, focus, launcher);
    if h.sink.Some? {
      TakeAllKeepsWellFormed(h.sink.value, Batch(h, m, now), now);
    }
  }

  lemma DeliverKeepsInv(g: Manager, m: Message, now: nat, focus: Option<string>, launcher: Launcher)
    requires Inv(g)
    ensures Inv(Deliver(g, m, now, focus, launcher))
  {
    SyncKeepsInv(g, m, now, focus, launcher);
    SyncKeepsInv(WithoutSink(g), m, now, focus, launcher);
    if g.sink.Some? {
      TakeKeepsWellFormed(g.sink.value, m, now);
    }
  }

  // A stored warning always belongs to the stored message's session, and a pending backoff means
  // there is no process.
  lemma SendKeepsInv(g: Manager, m: Message, now: nat, focus: Option<string>, launcher: Launcher)
    requires Inv(g)
    ensures Inv(Send(g, m, now, focus, launcher))
  {
    PrepareKeepsInv(g, m, now, launcher);
    DeliverKeepsInv(Prepare(g, m, now, launcher), m, now, focus, launcher);
  }

  // ---------------------------------------------------------------- what a new process is told

  lemma {:induction false} TakeAllTakesAll(s: Sink, ms: seq<Message>, now: nat)
    ensures var t := TakeAll(s, ms, now);
            && (t.Some? <==> ms == [] || |s.received| + |ms| <= s.lifetime)
            && (t.Some? ==>
                  && t.value.received == s.received + ms
                  && t.value.epoch == s.epoch && t.value.lifetime == s.lifetime)
    decreases |ms|
  {
    if ms == [] {
      assert s.received + ms == s.received;
    } else if Take(s, ms[0], now).Some? {
      TakeAllTakesAll(Take(s, ms[0], now).value, ms[1..], now);
      assert s.received + [ms[0]] + ms[1..] == s.received + ms;
    }
  }

  // The replay is at most two messages of one session, the second an aged warning.
  lemma ReplayIsOneSession(g: Manager, now: nat)
    requires Inv(g)
    ensures var replay := Replay(g, now);
            && |replay| <= 2
            && (forall k :: 0 <= k < |replay| ==> replay[k].SessionId() == SessionOf(g.latestMessage))
            && (|replay| == 2 ==> g.latestWarning.Some? && replay[1] == AgedWarning(g, g.latestWarning.value, now))
  {
  }

  // Spawning touches nothing that is stored for replay.
  predicate SameStored(g: Manager, h: Manager) {
    && h.latestMessage == g.latestMessage && h.latestWarning == g.latestWarning
    && h.latestWarningAt == g.latestWarningAt && h.utteranceStarted == g.utteranceStarted
    && h.utteranceActive == g.utteranceActive && h.autoHideMs == g.autoHideMs && h.enabled == g.enabled
  }

  lemma SpawnFrame(g: Manager, now: nat, focus: Option<string>, launcher: Launcher)
    ensures var h := TrySpawn(g, now, focus, launcher);
            && SameStored(g, h)
            && (g.sink.None? && h.sink.Some? ==>
                  && h.enabled && h.launches == g.launches + 1
                  && h.sink.value == NewSink(h.sink.value.lifetime, now, g.autoHideMs))
  {
  }

  lemma SameStoredSameBatch(g: Manager, h: Manager, m: Message, now: nat)
    requires SameStored(g, h)
    ensures Batch(h, m, now) == Batch(g, m, now)
  {
  }

  lemma SpawnTells(g: Manager, m: Message, now: nat, focus: Option<string>, launcher: Launcher)
    requires g.sink.None? && SpawnAndSync(g, m, now, focus, launcher).sink.Some?
    ensures var h := SpawnAndSync(g, m, now, focus, launcher);
            h.sink.value.received == Batch(g, m, now) && h.launches == g.launches + 1
  {
    var h := TrySpawn(g, now, focus, launcher);
    SpawnFrame(g, now, focus, launcher);
    SameStoredSameBatch(g, h, m, now);
    TakeAllTakesAll(h.sink.value, Batch(h, m, now), now);
    assert [] + Batch(g, m, now) == Batch(g, m, now);
  }

  // A process survives the preparation of a message, or the utterance moved it to another output.
  lemma PrepareKeepsOrMovesSink(g: Manager, m: Message, now: nat, launcher: Launcher)
    ensures var p := Prepare(g, m, now, launcher);
            && p.enabled == g.enabled && (p.sink.Some? <==> g.sink.Some?)
            && (p.sink == g.sink
                || (WantsRetarget(Remember(g, m, now)) && !g.utteranceActive && m.IsInterim()
                    && p.launches > g.launches && p.sink.value == NewSink(p.sink.value.lifetime, now, g.autoHideMs)))
            && p.launches >= g.launches
  {
  }

  // After a send that leaves a process, either it was there before and took the message last; or
  // the utterance moved to another output and the new process was told the message only; or it was
  // spawned for this send and was told exactly the batch.
  lemma SpawnedProcessIsTold(g: Manager, m: Message, now: nat, focus: Option<string>, launcher: Launcher)
    requires g.enabled && Send(g, m, now, focus, launcher).sink.Some?
    ensures var h, p := Send(g, m, now, focus, launcher), Prepare(g, m, now, launcher);
            var told := h.sink.value.received;
            if p.sink.Some? && Take(p.sink.value, m, now).Some? then
              if p.sink == g.sink then told == g.sink.value.received + [m]
              else WantsRetarget(Remember(g, m, now)) && !g.utteranceActive && m.IsInterim() && told == [m]
            else told == Batch(p, m, now) && h.launches == p.launches + 1
  {
    var p := Prepare(g, m, now, launcher);
    PrepareKeepsOrMovesSink(g, m, now, launcher);
    DeliveryTells(p, m, now, focus, launcher);
    assert [] + [m] == [m];
  }

  lemma DeliveryTells(p: Manager, m: Message, now: nat, focus: Option<string>, launcher: Launcher)
    requires p.enabled && Deliver(p, m, now, focus, launcher).sink.Some?
    ensures var h := Deliver(p, m, now, focus, launcher);
            var told := h.sink.value.received;
            if p.sink.Some? && Take(p.sink.value, m, now).Some? then told == p.sink.value.received + [m]
            else told == Batch(p, m, now) && h.launches == p.launches + 1
  {
    if p.sink.None? {
      SpawnTells(p, m, now, focus, launcher);
    } else if Take(p.sink.value, m, now).None? {
      SpawnTells(WithoutSink(p), m, now, focus, launcher);
      SameStoredSameBatch(p, WithoutSink(p), m, now);
    }
  }

  // A process that is new to the replayed session applies all of it.
  lemma FreshRendererAppliesReplay(g: Manager, now: nat, at: nat, autoHideMs: nat)
    requires Inv(g) && g.latestMessage.Some? && SessionOf(g.latestMessage) != Some(NIL)
    ensures var replay := Replay(g, now);
            var (s, first) := Apply(Fresh(autoHideMs), replay[0], at);
            && first == Applied && s.active == SessionOf(g.latestMessage)
            && (|replay| == 2 ==> Apply(s, replay[1], at).1 == Applied)
  {
  }

  // Sending `m` starts an utterance that moves the renderer to another output.
  predicate Moves(g: Manager, m: Message, now: nat) {
    m.IsInterim() && !g.utteranceActive && WantsRetarget(Remember(g, m, now))
  }

  // A move that works tells the new process the message alone. That is what a respawn would have
  // told it exactly when no warning of the same session is stored.
  lemma RetargetForgetsWarning(g: Manager, m: Message, now: nat, focus: Option<string>, launcher: Launcher)
    requires Inv(g) && Moves(g, m, now) && launcher(g.launches).Some? && launcher(g.launches).value > 0
    ensures var h, p := Send(g, m, now, focus, launcher), Prepare(g, m, now, launcher);
            && h.sink.Some? && h.sink.value.received == [m]
            && (h.sink.value.received == Batch(p, m, now) <==> SessionOf(g.latestWarning) != m.SessionId())
  {
    PrepareKeepsOrMovesSink(g, m, now, launcher);
    SpawnedProcessIsTold(g, m, now, focus, launcher);
  }

  // Such a move, from the first launch on: the warning comes between the end of an utterance and
  // the start of the next one, and the new renderer does not show it.
  lemma MoveLosesWarning(id: Uuid, a: string, b: string, launcher: Launcher)
    requires id != NIL && a != b && forall n :: launcher(n) == Some(9)
    ensures var m := InterimText(id, DaemonSttInterim, 2, b);
            var h := DoAll(NewManager(true, false, 0, 0, 0), BeforeMove(id, a, b) + [SendOp(m, 0, None)], launcher);
            && h.sink.Some? && h.sink.value.received == [m] && |Replay(h, 0)| == 2
            && h.sink.value.screen.Shows(id) && h.sink.value.screen.visible.value.warning.None?
  {
    var ops, last := BeforeMove(id, a, b), SendOp(InterimText(id, DaemonSttInterim, 2, b), 0, None);
    var g := NewManager(true, false, 0, 0, 0);
    var ready := ReadyToMove(id, a, b, launcher);
    DoAllConcat(g, ops, [last], launcher);
    assert DoAll(ready, [last], launcher) == Do(ready, last, launcher) by { assert [last][1..] == []; }
    RetargetForgetsWarning(ready, last.message, 0, None, launcher);
    MovedScreen(ready, last.message, id, launcher);
  }

  function BeforeMove(id: Uuid, a: string, b: string): seq<Op> {
    [SendOp(InterimText(id, DaemonSttInterim, 1, a), 0, Some(a)), SendOp(SessionEnded(id, None), 0, None),
     SendOp(SessionWarning(id, Some(5000), Some(60000)), 0, None), SendOp(OutputHint(b), 0, None)]
  }

  predicate Ready(g: Manager, id: Uuid, a: string, b: string) {
    && Inv(g) && g.sink.Some? && !g.utteranceActive && g.launches == 1
    && g.latestWarning == Some(SessionWarning(id, Some(5000), Some(60000)))
    && g.activeOutput == Some(a) && g.pendingOutput == Some(b)
  }

  lemma ReadyToMove(id: Uuid, a: string, b: string, launcher: Launcher) returns (g: Manager)
    requires id != NIL && forall n :: launcher(n) == Some(9)
    ensures g == DoAll(NewManager(true, false, 0, 0, 0), BeforeMove(id, a, b), launcher)
    ensures Ready(g, id, a, b)
  {
    var ops, g0 := BeforeMove(id, a, b), NewManager(true, false, 0, 0, 0);
    var g1 := FirstLaunch(g0, ops[0].message, id, a, launcher);
    var g2 := Do(g1, ops[1], launcher);
    SendKeepsInv(g1, ops[1].message, 0, None, launcher);
    var g3 := Do(g2, ops[2], launcher);
    SendKeepsInv(g2, ops[2].message, 0, None, launcher);
    g := Do(g3, ops[3], launcher);
    SendKeepsInv(g3, ops[3].message, 0, None, launcher);
    FourOps(g0, ops[0], ops[1], ops[2], ops[3], launcher);
  }

  lemma FirstLaunch(g: Manager, m: Message, id: Uuid, a: string, launcher: Launcher) returns (h: Manager)
    requires g == NewManager(true, false, 0, 0, 0) && m.InterimText? && m.session == id
    requires launcher(0) == Some(9)
    ensures h == Send(g, m, 0, Some(a), launcher) && Inv(h)
    ensures h.sink.Some? && h.sink.value.received == [m] && h.sink.value.lifetime == 9
    ensures h.launches == 1 && h.latestMessage == Some(m) && h.latestWarning.None?
    ensures h.activeOutput == Some(a)
  {
    h := Send(g, m, 0, Some(a), launcher);
    var p := Prepare(g, m, 0, launcher);
    SendKeepsInv(g, m, 0, Some(a), launcher);
    var t := TrySpawn(p, 0, Some(a), launcher);
    assert Batch(t, m, 0) == [m];
    TakeAllOne(t.sink.value, m, 0);
  }

  lemma MovedScreen(g: Manager, m: Message, id: Uuid, launcher: Launcher)
    requires Inv(g) && Moves(g, m, 0) && m.InterimText? && m.session == id && id != NIL
    requires launcher(g.launches) == Some(9) && SessionOf(g.latestWarning) == Some(id)
    ensures var h := Send(g, m, 0, None, launcher);
            && h.sink.Some? && |Replay(h, 0)| == 2
            && h.sink.value.screen.Shows(id) && h.sink.value.screen.visible.value.warning.None?
  {
    var p := Prepare(g, m, 0, launcher);
    assert p.sink == Some(NewSink(9, 0, g.autoHideMs));
    assert Send(g, m, 0, None, launcher).sink == Take(p.sink.value, m, 0);
  }

  lemma FourOps(g: Manager, a: Op, b: Op, c: Op, d: Op, launcher: Launcher)
    ensures DoAll(g, [a, b, c, d], launcher) == Do(Do(Do(Do(g, a, launcher), b, launcher), c, launcher), d, launcher)
  {
    OneOpMore(g, a, [b, c, d], launcher);
    OneOpMore(Do(g, a, launcher), b, [c, d], launcher);
    OneOpMore(Do(Do(g, a, launcher), b, launcher), c, [d], launcher);
    OneOpMore(Do(Do(Do(g, a, launcher), b, launcher), c, launcher), d, [], launcher);
    assert [a] + [b, c, d] == [a, b, c, d] && [b] + [c, d] == [b, c, d] && [c] + [d] == [c, d] && [d] + [] == [d];
  }

  lemma OneOpMore(g: Manager, op: Op, rest: seq<Op>, launcher: Launcher)
    ensures DoAll(g, [op] + rest, launcher) == DoAll(Do(g, op, launcher), rest, launcher)
  {
    assert ([op] + rest)[1..] == rest;
  }

  lemma {:induction false} DoAllConcat(g: Manager, a: seq<Op>, b: seq<Op>, launcher: Launcher)
    ensures DoAll(g, a + b, launcher) == DoAll(DoAll(g, a, launcher), b, launcher)
    decreases |a|
  {
    if a == [] {
      assert a + b == b;
    } else {
      assert (a + b)[1..] == a[1..] + b;
      DoAllConcat(Do(g, a[0], launcher), a[1..], b, launcher);
    }
  }

  // ---------------------------------------------------------------- backoff

  datatype Op = SendOp(message: Message, at: nat, focus: Option<string>) | TickOp(at: nat)

  function TickSink(g: Manager, now: nat): Manager {
    if g.sink.None? then g
    else
      var s := g.sink.value;
      g.(sink := Some(s.(screen := AdvanceTime(s.screen, Monus(now, s.epoch)).0)))
  }

  function Do(g: Manager, op: Op, launcher: Launcher): Manager {
    match op
    case SendOp(m, at, focus) => Send(g, m, at, focus, launcher)
    case TickOp(at) => TickSink(g, at)
  }

  function DoAll(g: Manager, ops: seq<Op>, launcher: Launcher): Manager
    decreases |ops|
  {
    if ops == [] then g else DoAll(Do(g, ops[0], launcher), ops[1..], launcher)
  }

  predicate InOrder(clock: nat, ops: seq<Op>)
    decreases |ops|
  {
    ops == [] || (clock <= ops[0].at && InOrder(ops[0].at, ops[1..]))
  }

  function LastAt(clock: nat, ops: seq<Op>): nat
    decreases |ops|
  {
    if ops == [] then clock else LastAt(ops[0].at, ops[1..])
  }

  lemma PrepareDuringBackoff(g: Manager, m: Message, now: nat, launcher: Launcher)
    requires g.sink.None?
    ensures var p := Prepare(g, m, now, launcher);
            p.launches == g.launches && p.nextSpawnAllowedAt == g.nextSpawnAllowedAt && p.sink.None?
  {
  }

  lemma SendDuringBackoff(g: Manager, m: Message, now: nat, focus: Option<string>, launcher: Launcher, allowedAt: nat)
    requires Inv(g) && g.nextSpawnAllowedAt == Some(allowedAt) && now < allowedAt
    ensures var h := Send(g, m, now, focus, launcher);
            h.launches == g.launches && h.nextSpawnAllowedAt == Some(allowedAt) && h.sink.None?
  {
    PrepareDuringBackoff(g, m, now, launcher);
  }

  // After a failed launch nothing is launched until the backoff ends, whatever is sent.
  lemma {:induction false} NoLaunchDuringBackoff(g: Manager, ops: seq<Op>, launcher: Launcher, allowedAt: nat)
    requires Inv(g) && g.nextSpawnAllowedAt == Some(allowedAt)
    requires forall k :: 0 <= k < |ops| ==> ops[k].at < allowedAt
    ensures DoAll(g, ops, launcher).launches == g.launches
    decreases |ops|
  {
    if ops != [] {
      match ops[0]
      case SendOp(m, at, focus) =>
        SendKeepsInv(g, m, at, focus, launcher);
        SendDuringBackoff(g, m, at, focus, launcher, allowedAt);
        NoLaunchDuringBackoff(Do(g, ops[0], launcher), ops[1..], launcher, allowedAt);
      case TickOp(_) =>
        assert Do(g, ops[0], launcher) == g;
        NoLaunchDuringBackoff(g, ops[1..], launcher, allowedAt);
    }
  }

  lemma FailedLaunchBacksOff(g: Manager, now: nat, focus: Option<string>, launcher: Launcher)
    requires TrySpawn(g, now, focus, launcher).launches > g.launches
    ensures var h := TrySpawn(g, now, focus, launcher);
            h.sink.None? <==> launcher(g.launches).None?
    ensures var h := TrySpawn(g, now, focus, launcher);
            h.sink.None? ==> h.nextSpawnAllowedAt == Some(now + g.backoffMs)
  {
  }

  // Whatever is done before `until` launches nothing.
  ghost predicate QuietUntil(h: Manager, until: nat, launcher: Launcher) {
    forall ops: seq<Op> :: (forall k :: 0 <= k < |ops| ==> ops[k].at < until) ==>
                             DoAll(h, ops, launcher).launches == h.launches
  }

  lemma BackoffIsQuiet(h: Manager, until: nat, launcher: Launcher)
    requires Inv(h) && h.nextSpawnAllowedAt == Some(until)
    ensures QuietUntil(h, until, launcher)
  {
    forall ops: seq<Op> | forall k :: 0 <= k < |ops| ==> ops[k].at < until
      ensures DoAll(h, ops, launcher).launches == h.launches
    {
      NoLaunchDuringBackoff(h, ops, launcher, until);
    }
  }

  lemma FailedDeliveryBacksOff(
    p: Manager, m: Message, now: nat, focus: Option<string>, launcher: Launcher, h: Manager)
    requires h == Deliver(p, m, now, focus, launcher)
    requires h.launches > p.launches && launcher(p.launches).None?
    ensures h.sink.None? && h.nextSpawnAllowedAt == Some(now + p.backoffMs)
  {
    FailedLaunchBacksOff(if p.sink.None? then p else WithoutSink(p), now, focus, launcher);
  }

  // A send that spawns and fails leaves no process and sets the full backoff ...
  lemma FailedSpawnBacksOff(
    g: Manager, m: Message, now: nat, focus: Option<string>, launcher: Launcher, p: Manager, h: Manager)
    requires p == Prepare(g, m, now, launcher) && h == Send(g, m, now, focus, launcher)
    requires h.launches > p.launches && launcher(p.launches).None?
    ensures h.sink.None? && h.nextSpawnAllowedAt == Some(now + g.backoffMs)
  {
    PrepareKeepsBackoff(g, m, now, launcher);
    FailedDeliveryBacksOff(p, m, now, focus, launcher, h);
  }

  // ... and after a send that leaves a backoff, nothing is launched before it is over.
  lemma SendThenQuiet(
    g: Manager, m: Message, now: nat, focus: Option<string>, launcher: Launcher, h: Manager, until: nat)
    requires Inv(g) && h.nextSpawnAllowedAt == Some(until) && h == Send(g, m, now, focus, launcher)
    ensures QuietUntil(h, until, launcher)
  {
    SendKeepsInv(g, m, now, focus, launcher);
    BackoffIsQuiet(h, until, launcher);
  }

  lemma PrepareKeepsBackoff(g: Manager, m: Message, now: nat, launcher: Launcher)
    ensures Prepare(g, m, now, launcher).backoffMs == g.backoffMs
  {
  }

  // A failed move backs nothing off: the old process stays, and if that one is found gone the same
  // send launches once more.
  lemma FailedMoveSetsNoBackoff(g: Manager, m: Message, now: nat, focus: Option<string>, launcher: Launcher)
    requires Inv(g) && Moves(g, m, now) && launcher(g.launches).None?
    ensures var p := Prepare(g, m, now, launcher);
            p.sink == g.sink && p.nextSpawnAllowedAt.None? && p.launches == g.launches + 1
    ensures Send(g, m, now, focus, launcher).launches
         == g.launches + if Take(g.sink.value, m, now).Some? then 1 else 2
  {
  }

  // ---------------------------------------------------------------- the cap countdown

  // An interim event of `id` that leaves the session running.
  predicate LiveInterim(m: Message, id: Uuid) {
    && id != NIL && m.IsInterimOf(id)
    && !(m.InterimState? && m.producer == DaemonSttInterim && m.state == DAEMON_STATE_FINALIZING)
  }

  // Messages during which session `id` runs on and keeps its warning.
  predicate RunsOn(m: Message, id: Uuid) {
    || LiveInterim(m, id)
    || m.AudioLevel? || m.OutputHint?
    || ((m.SessionWarning? || m.InjectionComplete?) && m.session != id)
  }

  predicate LiveView(s: Sink, id: Uuid, clock: nat) {
    && s.epoch <= clock
    && s.screen.Shows(id) && s.screen.active == Some(id)
    && s.screen.visible.value.endedMs.None? && s.screen.hideDeadline.None?
  }

  // Session `id` is running: it is what a respawn replays, and what the current renderer shows.
  predicate Live(g: Manager, id: Uuid, clock: nat) {
    && g.latestMessage.Some? && LiveInterim(g.latestMessage.value, id)
    && g.utteranceActive
    && (g.sink.Some? ==> g.enabled && LiveView(g.sink.value, id, clock))
  }

  // The renderer counts down from `remaining` at time `since`, on its own clock.
  predicate CountsDown(s: Sink, remaining: int, since: nat, clock: nat) {
    && s.screen.visible.Some? && s.screen.visible.value.warning.Some?
    && var w := s.screen.visible.value.warning.value;
    && since <= w.atMs + s.epoch <= clock
    && w.remainingMs == Some(Max(remaining - (w.atMs + s.epoch - since), 0))
  }

  predicate Counting(g: Manager, id: Uuid, remaining: int, since: nat, clock: nat) {
    && Live(g, id, clock) && since <= clock
    && g.latestWarning.Some? && g.latestWarning.value.SessionWarning? && g.latestWarning.value.session == id
    && g.latestWarning.value.remainingMs == Some(remaining) && g.latestWarningAt == Some(since)
    && (g.sink.Some? ==> CountsDown(g.sink.value, remaining, since, clock))
  }

  lemma OldRendererRunsOn(s: Sink, m: Message, id: Uuid, clock: nat, now: nat)
    requires LiveView(s, id, clock) && clock <= now && RunsOn(m, id) && id != NIL && Take(s, m, now).Some?
    ensures var t := Take(s, m, now).value;
            && LiveView(t, id, now)
            && t.epoch == s.epoch && t.screen.visible.value.warning == s.screen.visible.value.warning
  {
  }

  lemma PassiveMessagePreserves(s: Sink, m: Message, id: Uuid, now: nat)
    requires LiveView(s, id, now) && id != NIL && (m.AudioLevel? || m.OutputHint? || m.InjectionComplete?)
    requires m.InjectionComplete? ==> m.session != id
    requires Take(s, m, now).Some?
    ensures Take(s, m, now).value.screen == s.screen && Take(s, m, now).value.epoch == s.epoch
  {
  }

  lemma RunsOnKeepsStored(g: Manager, m: Message, id: Uuid, clock: nat, now: nat, launcher: Launcher)
    requires Live(g, id, clock) && clock <= now && RunsOn(m, id)
    ensures var p := Prepare(g, m, now, launcher);
            && p.sink == g.sink && p.enabled == g.enabled && p.autoHideMs == g.autoHideMs
            && p.utteranceActive && p.latestMessage.Some? && LiveInterim(p.latestMessage.value, id)
            && (m.IsInterim() ==> p.latestMessage == Some(m))
            && (SessionOf(g.latestWarning) == Some(id) ==>
                  p.latestWarning == g.latestWarning && p.latestWarningAt == g.latestWarningAt)
  {
  }

  // The stored warning is that `remaining` was left at `since`.
  predicate Stores(g: Manager, id: Uuid, remaining: int, since: nat) {
    && g.latestWarning.Some? && g.latestWarning.value.SessionWarning? && g.latestWarning.value.session == id
    && g.latestWarning.value.remainingMs == Some(remaining) && g.latestWarningAt == Some(since)
  }

  lemma {:induction false} TakeAllConcat(s: Sink, a: seq<Message>, b: seq<Message>, now: nat)
    ensures TakeAll(s, a + b, now)
         == match TakeAll(s, a, now) case None => None case Some(t) => TakeAll(t, b, now)
    decreases |a|
  {
    if a == [] {
      assert a + b == b;
    } else {
      assert (a + b)[1..] == a[1..] + b;
      if Take(s, a[0], now).Some? { TakeAllConcat(Take(s, a[0], now).value, a[1..], b, now); }
    }
  }

  lemma TakeAllOne(s: Sink, m: Message, now: nat)
    ensures TakeAll(s, [m], now) == Take(s, m, now)
  {
    assert [m][1..] == [];
  }

  lemma WarningCounts(s: Sink, warning: Message, id: Uuid, now: nat)
    requires LiveView(s, id, now) && warning.SessionWarning? && warning.session == id && Take(s, warning, now).Some?
    ensures var t := Take(s, warning, now).value;
            && LiveView(t, id, now) && t.epoch == s.epoch
            && (warning.remainingMs.Some? ==> CountsDown(t, warning.remainingMs.value, now, now))
  {
  }

  lemma AgedCountsTheSame(t: Sink, remaining: int, since: nat, now: nat)
    requires since <= now && CountsDown(t, Max(remaining - (now - since), 0), now, now)
    ensures CountsDown(t, remaining, since, now)
  {
  }

  lemma WarnedRendererCounts(g: Manager, id: Uuid, now: nat, live: Sink, t: Sink)
    requires g.latestWarning.Some? && g.latestWarning.value.SessionWarning? && g.latestWarning.value.session == id
    requires LiveView(live, id, now) && Take(live, AgedWarning(g, g.latestWarning.value, now), now) == Some(t)
    ensures LiveView(t, id, now)
    ensures forall remaining: int, since: nat :: Stores(g, id, remaining, since) && since <= now ==>
              CountsDown(t, remaining, since, now)
  {
    WarningCounts(live, AgedWarning(g, g.latestWarning.value, now), id, now);
    forall remaining: int, since: nat | Stores(g, id, remaining, since) && since <= now
      ensures CountsDown(t, remaining, since, now)
    {
      AgedCountsTheSame(t, remaining, since, now);
    }
  }

  // The replay of a running session leaves a fresh renderer showing it, and counting as before.
  lemma ReplayedRendererCounts(g: Manager, id: Uuid, now: nat, s: Sink)
    requires g.latestMessage.Some? && LiveInterim(g.latestMessage.value, id)
    requires g.latestWarning.Some? ==> g.latestWarning.value.SessionWarning?
    requires s.epoch == now && s.screen == Fresh(g.autoHideMs) && TakeAll(s, Replay(g, now), now).Some?
    ensures var t := TakeAll(s, Replay(g, now), now).value;
            && LiveView(t, id, now)
            && (forall remaining: int, since: nat :: Stores(g, id, remaining, since) && since <= now ==>
                  CountsDown(t, remaining, since, now))
  {
    var first := g.latestMessage.value;
    TakeAllOne(s, first, now);
    if g.latestWarning.Some? && SessionOf(g.latestWarning) == Some(id) {
      var warning := AgedWarning(g, g.latestWarning.value, now);
      TakeAllConcat(s, [first], [warning], now);
      assert [first] + [warning] == [first, warning];
      var live := Take(s, first, now).value;
      TakeAllOne(live, warning, now);
      WarnedRendererCounts(g, id, now, live, Take(live, warning, now).value);
    }
  }

  // So does the whole batch of a spawn on the way of any message the session runs on through.
  lemma SyncedRendererCounts(g: Manager, m: Message, id: Uuid, now: nat, s: Sink)
    requires g.latestMessage.Some? && LiveInterim(g.latestMessage.value, id) && RunsOn(m, id)
    requires g.latestWarning.Some? ==> g.latestWarning.value.SessionWarning?
    requires s.epoch == now && s.screen == Fresh(g.autoHideMs) && TakeAll(s, Batch(g, m, now), now).Some?
    ensures var t := TakeAll(s, Batch(g, m, now), now).value;
            && LiveView(t, id, now)
            && (forall remaining: int, since: nat :: Stores(g, id, remaining, since) && since <= now ==>
                  CountsDown(t, remaining, since, now))
  {
    var replay := Replay(g, now);
    match m
    case OutputHint(_) =>
      TakeAllConcat(s, [m], replay, now);
      TakeAllOne(s, m, now);
      ReplayedRendererCounts(g, id, now, Take(s, m, now).value);
    case InterimState(_, _, _, _) => ReplayedRendererCounts(g, id, now, s);
    case InterimText(_, _, _, _) => ReplayedRendererCounts(g, id, now, s);
    case SessionWarning(_, _, _) => ReplayedRendererCounts(g, id, now, s);
    case SessionEnded(_, _) => assert false;
    case AudioLevel(_) => ReplayThenPassive(g, m, id, now, s);
    case InjectionComplete(_, _, _) => ReplayThenPassive(g, m, id, now, s);
  }

  lemma ReplayThenPassive(g: Manager, m: Message, id: Uuid, now: nat, s: Sink)
    requires g.latestMessage.Some? && LiveInterim(g.latestMessage.value, id)
    requires m.AudioLevel? || (m.InjectionComplete? && m.session != id)
    requires g.latestWarning.Some? ==> g.latestWarning.value.SessionWarning?
    requires s.epoch == now && s.screen == Fresh(g.autoHideMs) && TakeAll(s, Replay(g, now) + [m], now).Some?
    ensures var t := TakeAll(s, Replay(g, now) + [m], now).value;
            && LiveView(t, id, now)
            && (forall remaining: int, since: nat :: Stores(g, id, remaining, since) && since <= now ==>
                  CountsDown(t, remaining, since, now))
  {
    TakeAllConcat(s, Replay(g, now), [m], now);
    ReplayedRendererCounts(g, id, now, s);
    var t := TakeAll(s, Replay(g, now), now).value;
    TakeAllOne(t, m, now);
    PassiveMessagePreserves(t, m, id, now);
  }

  lemma SpawnCounts(g: Manager, m: Message, id: Uuid, now: nat, focus: Option<string>, launcher: Launcher)
    requires g.latestMessage.Some? && LiveInterim(g.latestMessage.value, id) && RunsOn(m, id) && g.sink.None?
    requires g.latestWarning.Some? ==> g.latestWarning.value.SessionWarning?
    ensures var h := SpawnAndSync(g, m, now, focus, launcher);
            && h.latestMessage == g.latestMessage && h.utteranceActive == g.utteranceActive
            && h.latestWarning == g.latestWarning && h.latestWarningAt == g.latestWarningAt
            && (h.sink.Some? ==>
                  && h.enabled && LiveView(h.sink.value, id, now)
                  && (forall remaining: int, since: nat :: Stores(g, id, remaining, since) && since <= now ==>
                        CountsDown(h.sink.value, remaining, since, now)))
  {
    var h := TrySpawn(g, now, focus, launcher);
    SpawnFrame(g, now, focus, launcher);
    if h.sink.Some? && TakeAll(h.sink.value, Batch(h, m, now), now).Some? {
      SyncedRendererCounts(h, m, id, now, h.sink.value);
      assert forall remaining: int, since: nat :: Stores(g, id, remaining, since) ==> Stores(h, id, remaining, since);
    }
  }

  lemma DeliverCounts(g: Manager, m: Message, id: Uuid, clock: nat, now: nat, focus: Option<string>, launcher: Launcher)
    requires Live(g, id, clock) && clock <= now && RunsOn(m, id)
    requires g.latestWarning.Some? ==> g.latestWarning.value.SessionWarning?
    ensures var h := Deliver(g, m, now, focus, launcher);
            && Live(h, id, now)
            && h.latestWarning == g.latestWarning && h.latestWarningAt == g.latestWarningAt
            && (forall remaining: int, since: nat ::
                  Stores(g, id, remaining, since) && since <= clock
                  && (g.sink.Some? ==> CountsDown(g.sink.value, remaining, since, clock)) && h.sink.Some? ==>
                    CountsDown(h.sink.value, remaining, since, now))
  {
    if g.enabled {
      if g.sink.None? {
        SpawnCounts(g, m, id, now, focus, launcher);
      } else if Take(g.sink.value, m, now).Some? {
        OldRendererRunsOn(g.sink.value, m, id, clock, now);
      } else {
        SpawnCounts(WithoutSink(g), m, id, now, focus, launcher);
        assert forall remaining: int, since: nat ::
            Stores(g, id, remaining, since) ==> Stores(WithoutSink(g), id, remaining, since);
      }
    }
  }

  lemma SendKeepsLive(
    g: Manager, m: Message, id: Uuid, clock: nat, now: nat, focus: Option<string>, launcher: Launcher)
    requires Inv(g) && Live(g, id, clock) && clock <= now && RunsOn(m, id)
    ensures Live(Send(g, m, now, focus, launcher), id, now)
  {
    RunsOnKeepsStored(g, m, id, clock, now, launcher);
    PrepareKeepsInv(g, m, now, launcher);
    DeliverCounts(Prepare(g, m, now, launcher), m, id, clock, now, focus, launcher);
  }

  // However often the renderer crashes and is respawned on the way, a running session goes on
  // counting down as if nothing had happened.
  lemma SendKeepsCounting(
    g: Manager, m: Message, id: Uuid, remaining: int, since: nat, clock: nat, now: nat,
    focus: Option<string>, launcher: Launcher)
    requires Counting(g, id, remaining, since, clock) && clock <= now && RunsOn(m, id)
    ensures Counting(Send(g, m, now, focus, launcher), id, remaining, since, now)
  {
    var p := Prepare(g, m, now, launcher);
    RunsOnKeepsStored(g, m, id, clock, now, launcher);
    assert Stores(p, id, remaining, since);
    DeliverCounts(p, m, id, clock, now, focus, launcher);
  }

  lemma TickKeepsCounting(g: Manager, id: Uuid, remaining: int, since: nat, clock: nat, now: nat)
    requires Counting(g, id, remaining, since, clock) && clock <= now
    ensures Counting(TickSink(g, now), id, remaining, since, now)
  {
  }

  lemma {:induction false} CountdownSurvivesRespawns(
    g: Manager, ops: seq<Op>, launcher: Launcher, id: Uuid, remaining: int, since: nat, clock: nat)
    requires Counting(g, id, remaining, since, clock) && InOrder(clock, ops)
    requires forall k :: 0 <= k < |ops| ==> ops[k].SendOp? ==> RunsOn(ops[k].message, id)
    ensures Counting(DoAll(g, ops, launcher), id, remaining, since, LastAt(clock, ops))
    decreases |ops|
  {
    if ops != [] {
      match ops[0] {
        case SendOp(m, at, focus) => SendKeepsCounting(g, m, id, remaining, since, clock, at, focus, launcher);
        case TickOp(at) => TickKeepsCounting(g, id, remaining, since, clock, at);
      }
      CountdownSurvivesRespawns(Do(g, ops[0], launcher), ops[1..], launcher, id, remaining, since, ops[0].at);
    }
  }

  // What the user reads: at any time after the last operation the current renderer shows what was
  // left when the warning came, less the time since then, never below zero.
  lemma CountdownReadsTrue(g: Manager, id: Uuid, remaining: int, since: nat, clock: nat, t: nat)
    requires Counting(g, id, remaining, since, clock) && clock <= t && g.sink.Some?
    ensures g.sink.value.screen.Shows(id)
    ensures g.sink.value.screen.visible.value.RemainingMs(t - g.sink.value.epoch)
         == Some(Max(remaining - (t - since), 0))
  {
  }

  // The countdown starts with the warning, whether a renderer is there to see it or not.
  lemma WarningStartsCountdown(
    g: Manager, id: Uuid, remaining: int, limitMs: Option<int>, clock: nat, now: nat,
    focus: Option<string>, launcher: Launcher)
    requires Live(g, id, clock) && clock <= now
    ensures var warning := SessionWarning(id, Some(remaining), limitMs);
            Counting(Send(g, warning, now, focus, launcher), id, remaining, now, now)
  {
    var m := SessionWarning(id, Some(remaining), limitMs);
    var p := Prepare(g, m, now, launcher);
    assert Stores(p, id, remaining, now);
    if p.enabled {
      if p.sink.Some? && Take(p.sink.value, m, now).Some? {
        assert LiveView(p.sink.value, id, now);
        WarningCounts(p.sink.value, m, id, now);
      } else {
        SpawnedWarningCounts(if p.sink.None? then p else WithoutSink(p), m, id, remaining, now, focus, launcher);
      }
    }
  }

  lemma SpawnedWarningCounts(
    g: Manager, m: Message, id: Uuid, remaining: int, now: nat, focus: Option<string>, launcher: Launcher)
    requires g.latestMessage.Some? && LiveInterim(g.latestMessage.value, id) && g.sink.None?
    requires m.SessionWarning? && Stores(g, id, remaining, now)
    ensures var h := SpawnAndSync(g, m, now, focus, launcher);
            && h.latestMessage == g.latestMessage && h.utteranceActive == g.utteranceActive
            && Stores(h, id, remaining, now)
            && (h.sink.Some? ==>
                  h.enabled && LiveView(h.sink.value, id, now) && CountsDown(h.sink.value, remaining, now, now))
  {
    var h := TrySpawn(g, now, focus, launcher);
    SpawnFrame(g, now, focus, launcher);
    if h.sink.Some? && TakeAll(h.sink.value, Batch(h, m, now), now).Some? {
      ReplayedRendererCounts(h, id, now, h.sink.value);
      assert Stores(h, id, remaining, now);
    }
  }

  // A session is running from its first interim event on, provided the renderer, if there is one,
  // is not already tracking that session.
  lemma FirstInterimIsLive(
    g: Manager, m: Message, id: Uuid, clock: nat, now: nat, focus: Option<string>, launcher: Launcher)
    requires Inv(g) && LiveInterim(m, id)
    requires g.sink.Some? ==> g.sink.value.epoch <= now && g.sink.value.screen.active != Some(id)
    ensures Live(Send(g, m, now, focus, launcher), id, now)
  {
    var p := Prepare(g, m, now, launcher);
    PrepareKeepsInv(g, m, now, launcher);
    PrepareKeepsOrMovesSink(g, m, now, launcher);
    assert p.latestMessage == Some(m) && p.utteranceActive;
    if p.enabled {
      if p.sink.Some? && Take(p.sink.value, m, now).Some? {
        NewSessionIsLive(p.sink.value, m, id, now);
      } else {
        SpawnCounts(if p.sink.None? then p else WithoutSink(p), m, id, now, focus, launcher);
      }
    }
  }

  lemma NewSessionIsLive(s: Sink, m: Message, id: Uuid, now: nat)
    requires OverlayStateLaws.WellFormed(s.screen) && s.screen.active != Some(id) && s.epoch <= now
    requires LiveInterim(m, id) && Take(s, m, now).Some?
    ensures LiveView(Take(s, m, now).value, id, now)
  {
  }

  // ---------------------------------------------------------------- answers and crashes

  // Answer texts are cumulative, so a crash costs nothing that the next one does not bring back:
  // whatever process is alive after it was sent shows the whole text, unless it was stale.
  lemma AnswerSurvivesRespawn(g: Manager, m: Message, now: nat, focus: Option<string>, launcher: Launcher)
    requires Inv(g) && m.InterimText? && m.producer == LlmAnswerDelta && m.session != NIL
    requires g.sink.Some? ==> NotStale(g.sink.value.screen, m)
    requires Send(g, m, now, focus, launcher).sink.Some?
    ensures ShowsAnswer(Send(g, m, now, focus, launcher).sink.value.screen, m)
  {
    var p := Prepare(g, m, now, launcher);
    PrepareKeepsInv(g, m, now, launcher);
    PrepareKeepsOrMovesSink(g, m, now, launcher);
    assert p.latestMessage == Some(m);
    if p.sink.Some? && Take(p.sink.value, m, now).Some? {
      assert NotStale(p.sink.value.screen, m);
    } else {
      SpawnShowsAnswer(if p.sink.None? then p else WithoutSink(p), m, now, focus, launcher);
    }
  }

  predicate NotStale(s: Screen, m: Message)
    requires m.IsInterim()
  {
    s.active == Some(m.session) && m.producer in s.lastSeq ==> s.lastSeq[m.producer] < m.number
  }

  predicate ShowsAnswer(s: Screen, m: Message)
    requires m.InterimText?
  {
    && s.Shows(m.session) && s.active == Some(m.session)
    && s.visible.value.mode == Llm && s.visible.value.phase == Answering && s.visible.value.answer == m.text
  }

  lemma SpawnShowsAnswer(g: Manager, m: Message, now: nat, focus: Option<string>, launcher: Launcher)
    requires g.sink.None? && g.latestMessage == Some(m)
    requires m.InterimText? && m.producer == LlmAnswerDelta && m.session != NIL
    requires g.latestWarning.Some? ==> g.latestWarning.value.SessionWarning?
    requires SpawnAndSync(g, m, now, focus, launcher).sink.Some?
    ensures ShowsAnswer(SpawnAndSync(g, m, now, focus, launcher).sink.value.screen, m)
  {
    var h := TrySpawn(g, now, focus, launcher);
    SpawnFrame(g, now, focus, launcher);
    ReplayShowsAnswer(h, m, now, h.sink.value);
  }

  lemma ReplayShowsAnswer(h: Manager, m: Message, now: nat, s: Sink)
    requires h.latestMessage == Some(m) && m.InterimText? && m.producer == LlmAnswerDelta && m.session != NIL
    requires h.latestWarning.Some? ==> h.latestWarning.value.SessionWarning?
    requires s.screen == Fresh(h.autoHideMs) && TakeAll(s, Replay(h, now), now).Some?
    ensures ShowsAnswer(TakeAll(s, Replay(h, now), now).value.screen, m)
  {
    TakeAllOne(s, m, now);
    if h.latestWarning.Some? && SessionOf(h.latestWarning) == Some(m.session) {
      var warning := AgedWarning(h, h.latestWarning.value, now);
      TakeAllConcat(s, [m], [warning], now);
      assert [m] + [warning] == [m, warning];
      TakeAllOne(Take(s, m, now).value, warning, now);
    }
  }

  // ---------------------------------------------------------------- a process that never crashes

  function MessageOf(op: Op): seq<Message> { if op.SendOp? then [op.message] else [] }

  function Messages(ops: seq<Op>): seq<Message> {
    if ops == [] then [] else MessageOf(ops[0]) + Messages(ops[1..])
  }

  // The same process is there all along.
  predicate Uncrashed(g: Manager, ops: seq<Op>, launcher: Launcher)
    decreases |ops|
  {
    && g.enabled && g.sink.Some?
    && (ops == []
        || (&& Do(g, ops[0], launcher).launches == g.launches
            && Uncrashed(Do(g, ops[0], launcher), ops[1..], launcher)))
  }

  lemma UncrashedTakes(g: Manager, m: Message, now: nat, focus: Option<string>, launcher: Launcher)
    requires g.enabled && g.sink.Some? && Send(g, m, now, focus, launcher).sink.Some?
    requires Send(g, m, now, focus, launcher).launches == g.launches
    ensures Send(g, m, now, focus, launcher).sink == Take(g.sink.value, m, now)
  {
    var p := Prepare(g, m, now, launcher);
    PrepareKeepsOrMovesSink(g, m, now, launcher);
    DeliveryTells(p, m, now, focus, launcher);
  }

  // What a process started at `epoch` takes in, on its own clock.
  function InputsOf(ops: seq<Op>, epoch: nat): seq<OverlayStateLaws.Input> {
    if ops == [] then []
    else
      var at := Monus(ops[0].at, epoch);
      [if ops[0].SendOp? then OverlayStateLaws.Receive(ops[0].message, at) else OverlayStateLaws.Tick(at)]
      + InputsOf(ops[1..], epoch)
  }

  lemma UncrashedStep(g: Manager, op: Op, launcher: Launcher)
    requires g.enabled && g.sink.Some? && Do(g, op, launcher).sink.Some? && Do(g, op, launcher).launches == g.launches
    ensures var s, t := g.sink.value, Do(g, op, launcher).sink.value;
            && t.received == s.received + MessageOf(op)
            && t.epoch == s.epoch && t.screen == OverlayStateLaws.Step(s.screen, InputsOf([op], s.epoch)[0])
  {
    assert g.sink.value.received + [] == g.sink.value.received;
    if op.SendOp? {
      UncrashedTakes(g, op.message, op.at, op.focus, launcher);
    }
  }

  // A process that lasts is the plain pipe: it receives every message sent, once and in order, and
  // its screen is what the renderer makes of them and of the ticks.
  lemma {:induction false} UncrashedProcessIsThePipe(g: Manager, ops: seq<Op>, launcher: Launcher)
    requires Uncrashed(g, ops, launcher)
    ensures var h := DoAll(g, ops, launcher);
            && h.sink.Some? && h.sink.value.epoch == g.sink.value.epoch
            && h.sink.value.received == g.sink.value.received + Messages(ops)
            && h.sink.value.screen == OverlayStateLaws.Feed(g.sink.value.screen, InputsOf(ops, g.sink.value.epoch))
    decreases |ops|
  {
    var s := g.sink.value;
    if ops == [] {
      assert s.received + [] == s.received;
    } else {
      var h, rest := Do(g, ops[0], launcher), ops[1..];
      UncrashedStep(g, ops[0], launcher);
      UncrashedProcessIsThePipe(h, rest, launcher);
      Joined(s.received, MessageOf(ops[0]), Messages(rest));
      assert InputsOf(ops, s.epoch)[1..] == InputsOf(rest, s.epoch);
      assert InputsOf(ops, s.epoch)[0] == InputsOf([ops[0]], s.epoch)[0];
    }
  }

  lemma Joined(a: seq<Message>, b: seq<Message>, c: seq<Message>)
    ensures (a + b) + c == a + (b + c)
  {
  }
}
