// When the manager launches a renderer process and on which output; what it keeps for the next one;
// and that nothing sent on the way of a launch is lost.
module OverlayLaunches {
  import opened Prelude
  import opened OverlayIpc
  import opened OverlayProcess
  import opened OverlayProcessLaws

  // ---------------------------------------------------------------- when, and where

  // The output a launch would be for: the one hinted at last, or else the focused one.
  function WantedOutput(g: Manager, focus: Option<string>): Option<string> {
    match g.pendingOutput
    case Some(name) => Some(name)
    case None => focus
  }

  // How long a launch has been waiting for an output by now.
  function Waited(g: Manager, now: nat): nat {
    if g.outputWaitStartedAt.Some? && g.outputWaitStartedAt.value <= now then now - g.outputWaitStartedAt.value else 0
  }

  // A launch is attempted exactly if the overlay is enabled, no process runs, no backoff does, and an
  // output is known, not needed, or has been waited for long enough.
  predicate Attempts(g: Manager, now: nat, focus: Option<string>) {
    && g.enabled && g.sink.None?
    && (g.nextSpawnAllowedAt.None? || g.nextSpawnAllowedAt.value <= now)
    && (WantedOutput(g, focus).Some? || !g.requireOutput || g.watchdogMs <= Waited(g, now))
  }

  lemma LaunchesExactly(g: Manager, now: nat, focus: Option<string>, launcher: Launcher)
    ensures var h := TrySpawn(g, now, focus, launcher);
            && h.launches == g.launches + (if Attempts(g, now, focus) then 1 else 0)
            && (h.sink != g.sink <==> Attempts(g, now, focus) && launcher(g.launches).Some?)
            && (h.sink != g.sink ==>
                  && h.activeOutput == WantedOutput(g, focus)
                  && h.sink == Some(NewSink(launcher(g.launches).value, now, g.autoHideMs)))
  {
  }

  // While no output is known the wait goes on from when it began, and is over once one is.
  lemma WaitIsKept(g: Manager, now: nat, focus: Option<string>, launcher: Launcher)
    requires g.enabled && g.sink.None? && g.requireOutput
    requires g.nextSpawnAllowedAt.None? || g.nextSpawnAllowedAt.value <= now
    ensures var h := TrySpawn(g, now, focus, launcher);
            h.outputWaitStartedAt
            == if WantedOutput(g, focus).Some? || Attempts(g, now, focus) then None
               else if g.outputWaitStartedAt.Some? then g.outputWaitStartedAt
               else Some(now)
  {
  }

  // What is hinted is what is wanted next; and a launch for the focused output makes that the hint.
  lemma WantedIsKept(g: Manager, now: nat, focus: Option<string>, launcher: Launcher)
    ensures var h := TrySpawn(g, now, focus, launcher);
            h.pendingOutput
            == if g.enabled && g.sink.None? && (g.nextSpawnAllowedAt.None? || g.nextSpawnAllowedAt.value <= now) then
                 WantedOutput(g, focus)
               else g.pendingOutput
  {
  }

  // A running process is replaced before it gets a message exactly if the message starts an utterance,
  // the output hinted at is another than its own, and the launch works.
  lemma MovesExactly(g: Manager, m: Message, now: nat, launcher: Launcher)
    requires g.sink.Some?
    ensures var p := Prepare(g, m, now, launcher);
            var wanted := if m.OutputHint? then Some(m.outputName) else g.pendingOutput;
            var tries := m.IsInterim() && !g.utteranceActive && wanted.Some? && g.activeOutput != wanted;
            && p.pendingOutput == wanted
            && p.launches == g.launches + (if tries then 1 else 0)
            && (if tries && launcher(g.launches).Some? then
                  p.sink == Some(NewSink(launcher(g.launches).value, now, g.autoHideMs)) && p.activeOutput == wanted
                else p.sink == g.sink && p.activeOutput == g.activeOutput)
  {
  }

  // An utterance goes on from an interim event to the next end, whatever crashes.
  lemma UtteranceGoesOn(g: Manager, m: Message, now: nat, focus: Option<string>, launcher: Launcher)
    ensures Send(g, m, now, focus, launcher).utteranceActive
         == if m.IsInterim() then true else if m.SessionEnded? then false else g.utteranceActive
  {
    var p := Prepare(g, m, now, launcher);
    SpawnFrame(if p.sink.None? then p else WithoutSink(p), now, focus, launcher);
  }

  // ---------------------------------------------------------------- what is kept

  predicate IsKept(op: Op) { op.SendOp? && (op.message.IsInterim() || op.message.SessionEnded?) }

  predicate IsOutcomeOf(op: Op, id: Uuid) { op.SendOp? && op.message.InjectionComplete? && op.message.session == id }

  // Operation `k` sent the last interim event or end, and no outcome of its session came since.
  predicate KeptAt(ops: seq<Op>, k: int) {
    && 0 <= k < |ops| && IsKept(ops[k])
    && forall j :: k < j < |ops| ==> !IsKept(ops[j]) && !IsOutcomeOf(ops[j], ops[k].message.session)
  }

  lemma SendKeeps(g: Manager, m: Message, now: nat, focus: Option<string>, launcher: Launcher)
    ensures var h := Send(g, m, now, focus, launcher);
            h.latestMessage
            == if m.IsInterim() || m.SessionEnded? then Some(m)
               else if m.InjectionComplete? && SessionOf(g.latestMessage) == Some(m.session) then None
               else g.latestMessage
  {
    var p := Prepare(g, m, now, launcher);
    DeliverKeepsStored(p, m, now, focus, launcher);
  }

  predicate StoredAlike(g: Manager, h: Manager) {
    && h.latestMessage == g.latestMessage && h.latestWarning == g.latestWarning
    && h.latestWarningAt == g.latestWarningAt && h.utteranceStarted == g.utteranceStarted
  }

  lemma SyncKeepsStored(g: Manager, m: Message, now: nat, focus: Option<string>, launcher: Launcher)
    ensures StoredAlike(g, SpawnAndSync(g, m, now, focus, launcher))
  {
    SpawnFrame(g, now, focus, launcher);
    var h := TrySpawn(g, now, focus, launcher);
    assert StoredAlike(g, h) && StoredAlike(h, WithoutSink(h));
  }

  lemma DeliverKeepsStored(p: Manager, m: Message, now: nat, focus: Option<string>, launcher: Launcher)
    ensures StoredAlike(p, Deliver(p, m, now, focus, launcher))
  {
    SyncKeepsStored(if p.sink.None? then p else WithoutSink(p), m, now, focus, launcher);
  }

  // In every run of sends and ticks, what a respawn will replay first is the last interim event or end
  // that was sent, unless an outcome of its session came since.
  lemma {:induction false} KeptIsLast(g: Manager, ops: seq<Op>, launcher: Launcher)
    requires g.latestMessage.None?
    ensures var kept := DoAll(g, ops, launcher).latestMessage;
            && (kept.Some? <==> exists k :: KeptAt(ops, k))
            && (forall k :: KeptAt(ops, k) ==> kept == Some(ops[k].message))
    decreases |ops|
  {
    if ops != [] {
      var n := |ops| - 1;
      var before, op := ops[..n], ops[n];
      assert ops == before + [op];
      KeptIsLast(g, before, launcher);
      DoAllConcat(g, before, [op], launcher);
      assert [op] == [op] + [];
      OneOpMore(DoAll(g, before, launcher), op, [], launcher);
      var h := DoAll(g, before, launcher);
      if op.SendOp? { SendKeeps(h, op.message, op.at, op.focus, launcher); }
      KeptOneMore(before, op);
      if IsKept(op) {
        assert KeptAt(ops, n);
      } else if h.latestMessage.Some? {
        var k :| KeptAt(before, k);
        assert !IsOutcomeOf(op, before[k].message.session) ==> KeptAt(ops, k);
      }
    }
  }

  lemma KeptOneMore(before: seq<Op>, op: Op)
    ensures var ops := before + [op];
            forall k :: KeptAt(ops, k) <==>
              || (k == |before| && IsKept(op))
              || (KeptAt(before, k) && !IsKept(op) && !IsOutcomeOf(op, before[k].message.session))
  {
    var ops, n := before + [op], |before|;
    forall k
      ensures KeptAt(ops, k) <==>
                || (k == n && IsKept(op))
                || (KeptAt(before, k) && !IsKept(op) && !IsOutcomeOf(op, before[k].message.session))
    {
      assert forall j :: 0 <= j < n ==> ops[j] == before[j];
      assert ops[n] == op;
    }
  }

  // ---------------------------------------------------------------- nothing is lost on the way

  // The batch of a process spawned on the way of sending `m` tells it `m`: a hint first, an interim
  // event or an end in its place as the latest, a level or an outcome last, and a warning as aged by
  // no time; only a warning of a session other than the stored one is not told.
  lemma BatchTellsMessage(g: Manager, m: Message, now: nat, launcher: Launcher)
    requires Inv(g)
    ensures var batch := Batch(Prepare(g, m, now, launcher), m, now);
            && batch != []
            && (m.OutputHint? || m.IsInterim() || m.SessionEnded? ==> batch[0] == m)
            && (m.AudioLevel? || m.InjectionComplete? ==> batch[|batch| - 1] == m)
            && (m.SessionWarning? && SessionOf(g.latestMessage) == Some(m.session) ==>
                  && |batch| == 2 && batch[1].SessionWarning? && batch[1].session == m.session
                  && batch[1].limitMs == m.limitMs
                  && (m.remainingMs.Some? ==> batch[1].remainingMs == Some(Max(m.remainingMs.value, 0))))
            && (m.SessionWarning? && SessionOf(g.latestMessage) == None ==> batch == [m])
  {
  }

  // ---------------------------------------------------------------- a warning of the cap alone

  // Session `id` has been going since `since`.
  predicate GoingSince(g: Manager, id: Uuid, since: nat) { g.utteranceStarted == Some((id, since)) }

  predicate LeavesClock(op: Op, id: Uuid) {
    op.SendOp? && op.message.IsInterim() ==> op.message.session in {id, NIL}
  }

  lemma FirstInterimStartsClock(g: Manager, m: Message, now: nat, focus: Option<string>, launcher: Launcher)
    requires m.IsInterim() && m.session != NIL
    requires g.utteranceStarted.Some? ==> g.utteranceStarted.value.0 != m.session
    ensures GoingSince(Send(g, m, now, focus, launcher), m.session, now)
  {
    DeliverKeepsStored(Prepare(g, m, now, launcher), m, now, focus, launcher);
  }

  lemma SendKeepsClock(g: Manager, op: Op, launcher: Launcher, id: Uuid, since: nat)
    requires GoingSince(g, id, since) && LeavesClock(op, id)
    ensures GoingSince(Do(g, op, launcher), id, since)
  {
    if op.SendOp? {
      DeliverKeepsStored(Prepare(g, op.message, op.at, launcher), op.message, op.at, op.focus, launcher);
    }
  }

  // The session's clock is not touched by busy notices, crashes or anything but another session.
  lemma {:induction false} ClockKeepsGoing(g: Manager, ops: seq<Op>, launcher: Launcher, id: Uuid, since: nat)
    requires GoingSince(g, id, since) && forall k :: 0 <= k < |ops| ==> LeavesClock(ops[k], id)
    ensures GoingSince(DoAll(g, ops, launcher), id, since)
    decreases |ops|
  {
    if ops != [] {
      SendKeepsClock(g, ops[0], launcher, id, since);
      ClockKeepsGoing(Do(g, ops[0], launcher), ops[1..], launcher, id, since);
    }
  }

  // So a stored warning of the cap alone is replayed with what is left of the cap since the session's
  // first interim event, never below zero.
  lemma CapIsCountedFromStart(g: Manager, id: Uuid, limit: int, since: nat, now: nat)
    requires GoingSince(g, id, since) && since <= now
    requires g.latestWarning == Some(SessionWarning(id, None, Some(limit))) && SessionOf(g.latestMessage) == Some(id)
    ensures var replay := Replay(g, now);
            |replay| == 2 && replay[1] == SessionWarning(id, Some(Max(limit - (now - since), 0)), Some(limit))
  {
  }
}
