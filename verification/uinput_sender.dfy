// The life of the virtual keyboard behind paste injection: created on demand, warmed up, reused,
// dropped after a backend failure, and not recreated too soon after a failed creation.
module UinputSender {
  import opened Prelude

  datatype Settings = Settings(copyOnly: bool, warmupMs: nat, retryBackoffMs: nat)

  datatype SenderState =
    | Uninitialized
    | Healthy(generation: nat, createdAt: nat, useCount: nat, freshPending: bool, recovered: bool)
    | CreateFailed(retryAfter: nat)

  // An attempt to create a device: when it began, and its generation, or until when its failure
  // keeps further attempts off.
  datatype Creation = Created(at: nat, generation: nat) | NotCreated(at: nat, retryAfter: nat)

  datatype Handed =
    | Device(generation: nat, at: nat, createdAt: nat, freshDevice: bool, useCountBefore: nat)
    | Disabled
    | Refused

  datatype Outcome = Injected | BackendFailed | OtherFailed

  datatype JobRecord = JobRecord(handed: Handed, outcome: Outcome)

  // The manager, the clock it reads, and the attempts to create a device so far.
  datatype Manager = Manager(state: SenderState, nextGeneration: nat, now: nat, ticks: nat, creations: seq<Creation>)

  // How far the clock moves before its n-th reading, and whether the n-th creation succeeds.
  datatype Oracle = Oracle(drift: nat -> nat, creates: nat -> bool)

  const NewManager := Manager(Uninitialized, 1, 0, 0, [])

  // ---------------------------------------------------------------- one job

  function Read(o: Oracle, m: Manager): Manager {
    m.(now := m.now + o.drift(m.ticks), ticks := m.ticks + 1)
  }

  function Create(s: Settings, o: Oracle, m: Manager, recovered: bool): Manager {
    var after := Read(o, m);
    if o.creates(|m.creations|) then
      after.(state := Healthy(m.nextGeneration, after.now, 0, true, recovered),
             nextGeneration := m.nextGeneration + 1,
             creations := m.creations + [Created(m.now, m.nextGeneration)])
    else
      after.(state := CreateFailed(after.now + s.retryBackoffMs),
             creations := m.creations + [NotCreated(m.now, after.now + s.retryBackoffMs)])
  }

  // What the preparation loop has left to do: create a device, then wait out its warm-up.
  function Missing(m: Manager): nat { if m.state.Healthy? then 0 else 1 }

  function WarmupLeft(s: Settings, m: Manager): nat {
    if m.state.Healthy? && m.state.freshPending then Monus(m.state.createdAt + s.warmupMs, m.now) else 0
  }

  // A loop: wait out the warm-up, create a device, or hand out what there is. Sleeping moves the
  // clock by at least the time asked for.
  function Prepare(s: Settings, o: Oracle, m: Manager, recovered: bool): (Manager, Handed)
    decreases Missing(m), WarmupLeft(s, m), 0
  {
    if s.copyOnly then (m, Disabled)
    else
      match m.state
      case Healthy(generation, createdAt, useCount, freshPending, _) =>
        var r := Read(o, m);
        var age := Monus(r.now, createdAt);
        if freshPending && age < s.warmupMs then Prepare(s, o, r.(now := r.now + (s.warmupMs - age)), recovered)
        else (r, Device(generation, r.now, createdAt, freshPending, useCount))
      case Uninitialized => AfterCreate(s, o, Create(s, o, m, recovered), recovered)
      case CreateFailed(retryAfter) =>
        var r := Read(o, m);
        if r.now < retryAfter then (r, Refused) else AfterCreate(s, o, Create(s, o, r, true), true)
  }

  function AfterCreate(s: Settings, o: Oracle, m: Manager, recovered: bool): (Manager, Handed)
    requires !m.state.Uninitialized?
    decreases 0, WarmupLeft(s, m), 1
  {
    if m.state.Healthy? then Prepare(s, o, m, recovered) else (m, Refused)
  }

  function Commit(m: Manager, h: Handed): Manager {
    if h.Device? && m.state.Healthy? && m.state.generation == h.generation && m.state.useCount == h.useCountBefore then
      m.(state := m.state.(freshPending := false, useCount := m.state.useCount + 1))
    else m
  }

  // What a finished job leaves behind.
  function Finish(s: Settings, m: Manager, h: Handed, outcome: Outcome): Manager {
    match outcome
    case Injected => Commit(m, h)
    case BackendFailed => if !s.copyOnly && m.state.Healthy? then m.(state := Uninitialized) else m
    case OtherFailed => m
  }

  function RunJob(s: Settings, o: Oracle, m: Manager, outcome: Outcome): (Manager, JobRecord) {
    var (prepared, handed) := Prepare(s, o, m, false);
    (Finish(s, prepared, handed, outcome), JobRecord(handed, outcome))
  }

  class InProcessInjectorRunner {
    const settings: Settings
    const oracle: Oracle
    var state: SenderState
    var nextGeneration: nat
    var now: nat
    var ticks: nat
    var creations: seq<Creation>

    function State(): Manager
      reads this
    {
      Manager(state, nextGeneration, now, ticks, creations)
    }

    constructor (settings: Settings, oracle: Oracle)
      ensures State() == NewManager && this.settings == settings && this.oracle == oracle
    {
      this.settings, this.oracle := settings, oracle;
      state, nextGeneration, now, ticks, creations := Uninitialized, 1, 0, 0, [];
    }

    method ReadClock()
      modifies this`now, this`ticks
      ensures State() == Read(oracle, old(State()))
    {
      now := now + oracle.drift(ticks);
      ticks := ticks + 1;
    }

    method CreateSender(recovered: bool)
      modifies this
      ensures State() == Create(settings, oracle, old(State()), recovered)
    {
      var began := now;
      var created := oracle.creates(|creations|);
      ReadClock();
      if created {
        var generation := nextGeneration;
        nextGeneration := nextGeneration + 1;
        state := Healthy(generation, now, 0, true, recovered);
        creations := creations + [Created(began, generation)];
      } else {
        state := CreateFailed(now + settings.retryBackoffMs);
        creations := creations + [NotCreated(began, now + settings.retryBackoffMs)];
      }
    }

    method PreparePasteKeySender() returns (handed: Handed)
      modifies this
      ensures (State(), handed) == Prepare(settings, oracle, old(State()), false)
    {
      if settings.copyOnly {
        return Disabled;
      }
      var recovered := false;
      ghost var whole := Prepare(settings, oracle, State(), recovered);
      while true
        invariant !settings.copyOnly && whole == Prepare(settings, oracle, State(), recovered)
        decreases Missing(State()), WarmupLeft(settings, State())
      {
        match state {
          case Healthy(generation, createdAt, useCount, freshPending, _) =>
            ReadClock();
            var age := Monus(now, createdAt);
            if freshPending && age < settings.warmupMs {
              now := now + (settings.warmupMs - age);
            } else {
              return Device(generation, now, createdAt, freshPending, useCount);
            }
          case Uninitialized =>
            CreateSender(recovered);
            if state.CreateFailed? {
              return Refused;
            }
          case CreateFailed(retryAfter) =>
            ReadClock();
            if now < retryAfter {
              return Refused;
            }
            recovered := true;
            CreateSender(recovered);
            if state.CreateFailed? {
              return Refused;
            }
        }
      }
    }

    method CommitSuccessfulPasteKeySender(handed: Handed)
      modifies this`state
      ensures State() == Commit(old(State()), handed)
    {
      if !handed.Device? {
        return;
      }
      match state
      case Healthy(generation, _, useCount, _, _) =>
        if generation == handed.generation && useCount == handed.useCountBefore {
          state := state.(freshPending := false, useCount := useCount + 1);
        }
      case _ =>
    }

    // `outcome` is how the injection itself went.
    method RunInjectionJob(outcome: Outcome) returns (record: JobRecord)
      modifies this
      ensures (State(), record) == RunJob(settings, oracle, old(State()), outcome)
    {
      var handed := PreparePasteKeySender();
      match outcome {
        case Injected =>
          CommitSuccessfulPasteKeySender(handed);
        case BackendFailed =>
          if !settings.copyOnly && state.Healthy? {
            state := Uninitialized;
          }
        case OtherFailed =>
      }
      record := JobRecord(handed, outcome);
    }
  }

  // ---------------------------------------------------------------- what every job history keeps

  predicate OnDevice(r: JobRecord, generation: nat) {
    r.handed.Device? && r.handed.generation == generation
  }

  function Successes(log: seq<JobRecord>, generation: nat): nat {
    if log == [] then 0
    else
      var last := log[|log| - 1];
      Successes(log[..|log| - 1], generation) + if OnDevice(last, generation) && last.outcome.Injected? then 1 else 0
  }

  // Generations strictly increase; a failure keeps further attempts off for the whole backoff, and
  // the next attempt waits that out.
  predicate CreationsInOrder(s: Settings, creations: seq<Creation>) {
    && (forall i, j :: 0 <= i < j < |creations| && creations[i].Created? && creations[j].Created? ==>
          creations[i].generation < creations[j].generation)
    && (forall i :: 0 <= i < |creations| && creations[i].NotCreated? ==>
          creations[i].at + s.retryBackoffMs <= creations[i].retryAfter)
    && (forall i :: 0 <= i < |creations| - 1 && creations[i].NotCreated? ==>
          creations[i].retryAfter <= creations[i + 1].at)
  }

  // The device in `state` is the last one created, stamped no earlier than its creation began, and
  // recovered exactly if the attempt before that had failed.
  predicate IsLastCreated(creations: seq<Creation>, state: SenderState)
    requires state.Healthy?
  {
    && creations != []
    && var last := creations[|creations| - 1];
       && last.Created? && last.generation == state.generation && last.at <= state.createdAt
       && (state.recovered <==> |creations| > 1 && creations[|creations| - 2].NotCreated?)
  }

  predicate ManagerGood(s: Settings, m: Manager) {
    && CreationsInOrder(s, m.creations)
    && (forall i :: 0 <= i < |m.creations| && m.creations[i].Created? ==> m.creations[i].generation < m.nextGeneration)
    && (m.state.Healthy? ==>
          && m.state.generation < m.nextGeneration
          && IsLastCreated(m.creations, m.state)
          && m.state.createdAt <= m.now
          && (m.state.freshPending <==> m.state.useCount == 0))
    && (m.state.CreateFailed? <==> m.creations != [] && m.creations[|m.creations| - 1].NotCreated?)
    && (m.state.CreateFailed? ==> m.state.retryAfter == m.creations[|m.creations| - 1].retryAfter)
  }

  predicate IsCreation(c: Creation, generation: nat, at: int) {
    c.Created? && c.at == at && c.generation == generation
  }

  // The record of the creation of `generation`.
  predicate CreatedAt(creations: seq<Creation>, generation: nat, at: int) {
    exists i :: 0 <= i < |creations| && IsCreation(creations[i], generation, at)
  }

  // A device that failed in the backend is never handed out again, and no fresh one before the
  // warm-up is over, counted from the creation on record.
  ghost predicate LogGood(s: Settings, creations: seq<Creation>, log: seq<JobRecord>) {
    && (forall i, j :: 0 <= i < j < |log| && log[i].outcome.BackendFailed? && log[i].handed.Device? ==>
          !OnDevice(log[j], log[i].handed.generation))
    && (forall i :: 0 <= i < |log| && log[i].handed.Device? && log[i].handed.freshDevice ==>
          exists at :: CreatedAt(creations, log[i].handed.generation, at) && at + s.warmupMs <= log[i].handed.at)
  }

  ghost predicate HistoryGood(s: Settings, m: Manager, log: seq<JobRecord>) {
    && ManagerGood(s, m) && LogGood(s, m.creations, log)
    && (forall i :: 0 <= i < |log| && log[i].handed.Device? ==> log[i].handed.generation < m.nextGeneration)
    && (m.state.Healthy? ==>
          && m.state.useCount == Successes(log, m.state.generation)
          && (forall i :: 0 <= i < |log| && log[i].outcome.BackendFailed? ==> !OnDevice(log[i], m.state.generation)))
  }

  // What an attempt leaves: a device of the next generation, stamped with the clock after it, or a
  // backoff from that clock on.
  lemma CreationIsStamped(s: Settings, o: Oracle, m: Manager, recovered: bool)
    ensures var t := Create(s, o, m, recovered);
            && t.now == m.now + o.drift(m.ticks) && |t.creations| == |m.creations| + 1
            && (if o.creates(|m.creations|) then
                  && t.state == Healthy(m.nextGeneration, t.now, 0, true, recovered)
                  && t.creations == m.creations + [Created(m.now, m.nextGeneration)]
                else
                  && t.state == CreateFailed(t.now + s.retryBackoffMs)
                  && t.creations == m.creations + [NotCreated(m.now, t.now + s.retryBackoffMs)])
  {
  }

  // Recovery is what the attempt before says.
  predicate RecoversRightly(m: Manager, recovered: bool) {
    recovered <==> m.creations != [] && m.creations[|m.creations| - 1].NotCreated?
  }

  lemma CreateKeepsGood(s: Settings, o: Oracle, m: Manager, recovered: bool)
    requires ManagerGood(s, m) && !m.state.Healthy? && RecoversRightly(m, recovered)
    requires m.state.CreateFailed? ==> m.state.retryAfter <= m.now
    ensures var t := Create(s, o, m, recovered);
            && ManagerGood(s, t) && m.nextGeneration <= t.nextGeneration && m.creations <= t.creations
            && (t.state.Healthy? ==> t.state.generation == m.nextGeneration && t.state.useCount == 0)
  {
    var t := Create(s, o, m, recovered);
    CreationIsStamped(s, o, m, recovered);
    assert forall i :: 0 <= i < |m.creations| ==> t.creations[i] == m.creations[i];
  }

  // Preparing either keeps the healthy device or makes one of a new generation, and hands out
  // exactly the device the manager then holds.
  predicate WellPrepared(s: Settings, m: Manager, t: Manager, h: Handed) {
    && ManagerGood(s, t) && m.nextGeneration <= t.nextGeneration && m.creations <= t.creations
    && (if m.state.Healthy? then t.state == m.state && t.creations == m.creations
        else t.state.Healthy? ==>
          && t.state.generation >= m.nextGeneration && t.state.useCount == 0
          && m.now <= t.creations[|t.creations| - 1].at)
    && (h.Device? ==>
          && t.state.Healthy? && h.generation == t.state.generation && h.useCountBefore == t.state.useCount
          && h.freshDevice == t.state.freshPending && h.createdAt == t.state.createdAt
          && (h.freshDevice ==> h.createdAt + s.warmupMs <= h.at))
    && (if s.copyOnly then h == Disabled else h.Device? <==> t.state.Healthy?)
  }

  lemma {:induction false} PrepareHealthy(s: Settings, o: Oracle, m: Manager, recovered: bool)
    requires ManagerGood(s, m) && m.state.Healthy?
    ensures WellPrepared(s, m, Prepare(s, o, m, recovered).0, Prepare(s, o, m, recovered).1)
    decreases WarmupLeft(s, m)
  {
    var r := Read(o, m);
    var age := Monus(r.now, m.state.createdAt);
    if !s.copyOnly && m.state.freshPending && age < s.warmupMs {
      PrepareHealthy(s, o, r.(now := r.now + (s.warmupMs - age)), recovered);
    }
  }

  lemma PrepareAfterCreate(s: Settings, o: Oracle, m: Manager, recovered: bool)
    requires ManagerGood(s, m) && !m.state.Healthy? && !s.copyOnly && RecoversRightly(m, recovered)
    requires m.state.CreateFailed? ==> m.state.retryAfter <= m.now
    ensures var t := Create(s, o, m, recovered);
            WellPrepared(s, m, AfterCreate(s, o, t, recovered).0, AfterCreate(s, o, t, recovered).1)
  {
    CreateKeepsGood(s, o, m, recovered);
    var t := Create(s, o, m, recovered);
    if t.state.Healthy? {
      PrepareHealthy(s, o, t, recovered);
    }
  }

  lemma PrepareKeepsGood(s: Settings, o: Oracle, m: Manager)
    requires ManagerGood(s, m)
    ensures WellPrepared(s, m, Prepare(s, o, m, false).0, Prepare(s, o, m, false).1)
  {
    if m.state.Healthy? {
      PrepareHealthy(s, o, m, false);
    } else if !s.copyOnly {
      match m.state
      case Uninitialized => PrepareAfterCreate(s, o, m, false);
      case CreateFailed(retryAfter) =>
        var r := Read(o, m);
        if retryAfter <= r.now { PrepareAfterCreate(s, o, r, true); }
    }
  }

  // A device made for this job is handed out a whole warm-up after the job began, at the earliest.
  lemma FreshWaitsOutWarmup(s: Settings, o: Oracle, m: Manager)
    requires ManagerGood(s, m) && !m.state.Healthy?
    ensures var h := Prepare(s, o, m, false).1;
            h.Device? && h.freshDevice ==> m.now + s.warmupMs <= h.at
  {
    PrepareKeepsGood(s, o, m);
  }

  // The wait is no longer than the warm-up asks for, and there is none for a device in use.
  lemma WaitsOnlyForWarmup(s: Settings, o: Oracle, m: Manager)
    requires ManagerGood(s, m) && m.state.Healthy? && !s.copyOnly
    ensures var (t, h) := Prepare(s, o, m, false);
            var asked, warm := m.now + o.drift(m.ticks), m.state.createdAt + s.warmupMs;
            && h.Device? && h.at == t.now
            && h.at == if m.state.freshPending && asked < warm then warm + o.drift(m.ticks + 1) else asked
  {
    var r := Read(o, m);
    var age := Monus(r.now, m.state.createdAt);
    if m.state.freshPending && age < s.warmupMs {
      var slept := r.(now := r.now + (s.warmupMs - age));
      assert Prepare(s, o, m, false) == Prepare(s, o, slept, false);
      assert Monus(Read(o, slept).now, m.state.createdAt) >= s.warmupMs;
    }
  }

  // A job makes at most one attempt to create a device: exactly when there is none and no backoff
  // is running; and it is handed a device exactly if there is one or the attempt succeeds.
  lemma AttemptsExactly(s: Settings, o: Oracle, m: Manager)
    requires ManagerGood(s, m)
    ensures var (t, h) := Prepare(s, o, m, false);
            var backsOff := m.state.CreateFailed? && m.now + o.drift(m.ticks) < m.state.retryAfter;
            if s.copyOnly then (t, h) == (m, Disabled)
            else if m.state.Healthy? then h.Device? && t.creations == m.creations
            else if backsOff then h == Refused && t.creations == m.creations && t.state == m.state
            else
              && |t.creations| == |m.creations| + 1
              && (if o.creates(|m.creations|) then h.Device? && h.generation == m.nextGeneration else h == Refused)
  {
    PrepareKeepsGood(s, o, m);
    if !s.copyOnly && !m.state.Healthy? {
      var r, recovered := if m.state.CreateFailed? then Read(o, m) else m, m.state.CreateFailed?;
      if m.state.Uninitialized? || m.state.retryAfter <= r.now {
        var t := Create(s, o, r, recovered);
        CreationIsStamped(s, o, r, recovered);
        CreateKeepsGood(s, o, r, recovered);
        if t.state.Healthy? { PrepareHealthy(s, o, t, recovered); }
      }
    }
  }

  lemma {:induction false} NewGenerationIsUnused(log: seq<JobRecord>, generation: nat)
    requires forall i :: 0 <= i < |log| && log[i].handed.Device? ==> log[i].handed.generation < generation
    ensures Successes(log, generation) == 0
    decreases |log|
  {
    if log != [] { NewGenerationIsUnused(log[..|log| - 1], generation); }
  }

  // What a job leaves of the manager it prepared.
  lemma JobLeaves(s: Settings, o: Oracle, m: Manager, outcome: Outcome)
    requires ManagerGood(s, m)
    ensures var (p, h) := Prepare(s, o, m, false);
            var (t, record) := RunJob(s, o, m, outcome);
            && record == JobRecord(h, outcome)
            && (if outcome.Injected? && h.Device? then
                  && p.state.Healthy?
                  && t == p.(state := p.state.(freshPending := false, useCount := p.state.useCount + 1))
                else if outcome.BackendFailed? && p.state.Healthy? && !s.copyOnly then t == p.(state := Uninitialized)
                else t == p)
  {
    PrepareKeepsGood(s, o, m);
  }

  lemma StillCreated(creations: seq<Creation>, longer: seq<Creation>, generation: nat, at: int)
    requires creations <= longer && CreatedAt(creations, generation, at)
    ensures CreatedAt(longer, generation, at)
  {
    var i :| 0 <= i < |creations| && IsCreation(creations[i], generation, at);
    assert longer[i] == creations[i];
  }

  lemma PrepareKeepsLogGood(
    s: Settings, m: Manager, p: Manager, handed: Handed, log: seq<JobRecord>, record: JobRecord)
    requires HistoryGood(s, m, log) && WellPrepared(s, m, p, handed) && record.handed == handed
    ensures LogGood(s, p.creations, log + [record])
  {
    var longer := log + [record];
    forall i | 0 <= i < |longer| && longer[i].handed.Device? && longer[i].handed.freshDevice
      ensures exists at :: CreatedAt(p.creations, longer[i].handed.generation, at)
                           && at + s.warmupMs <= longer[i].handed.at
    {
      if i < |log| {
        var at :| CreatedAt(m.creations, log[i].handed.generation, at) && at + s.warmupMs <= log[i].handed.at;
        StillCreated(m.creations, p.creations, log[i].handed.generation, at);
      } else {
        var last := p.creations[|p.creations| - 1];
        assert CreatedAt(p.creations, last.generation, last.at);
      }
    }
  }

  lemma JobKeepsHistoryGood(s: Settings, o: Oracle, m: Manager, log: seq<JobRecord>, outcome: Outcome)
    requires HistoryGood(s, m, log)
    ensures var (t, record) := RunJob(s, o, m, outcome);
            HistoryGood(s, t, log + [record])
  {
    PrepareKeepsGood(s, o, m);
    JobLeaves(s, o, m, outcome);
    var (p, handed) := Prepare(s, o, m, false);
    var (t, record) := RunJob(s, o, m, outcome);
    PrepareKeepsLogGood(s, m, p, handed, log, record);
    HistoryGrows(s, m, p, t, handed, log, record);
  }

  lemma HistoryGrows(
    s: Settings, m: Manager, p: Manager, t: Manager, handed: Handed, log: seq<JobRecord>, record: JobRecord)
    requires HistoryGood(s, m, log) && WellPrepared(s, m, p, handed) && LogGood(s, p.creations, log + [record])
    requires record.handed == handed
    requires if record.outcome.Injected? && handed.Device? then
               t == p.(state := p.state.(freshPending := false, useCount := p.state.useCount + 1))
             else if record.outcome.BackendFailed? && p.state.Healthy? && !s.copyOnly then
               t == p.(state := Uninitialized)
             else t == p
    ensures HistoryGood(s, t, log + [record])
  {
    assert (log + [record])[..|log|] == log;
    if p.state.Healthy? && !m.state.Healthy? {
      NewGenerationIsUnused(log, p.state.generation);
    }
  }

  function RunAll(s: Settings, o: Oracle, outcomes: seq<Outcome>): (Manager, seq<JobRecord>)
  {
    if outcomes == [] then (NewManager, [])
    else
      var (m, log) := RunAll(s, o, outcomes[..|outcomes| - 1]);
      var (t, record) := RunJob(s, o, m, outcomes[|outcomes| - 1]);
      (t, log + [record])
  }

  // All of it, over every history of jobs, clocks and creation failures.
  lemma {:induction false} EveryHistoryIsGood(s: Settings, o: Oracle, outcomes: seq<Outcome>)
    ensures var (m, log) := RunAll(s, o, outcomes);
            HistoryGood(s, m, log)
    decreases |outcomes|
  {
    if outcomes != [] {
      EveryHistoryIsGood(s, o, outcomes[..|outcomes| - 1]);
      var (m, log) := RunAll(s, o, outcomes[..|outcomes| - 1]);
      JobKeepsHistoryGood(s, o, m, log, outcomes[|outcomes| - 1]);
    }
  }

  // A use committed twice counts once.
  lemma CommitTwiceCountsOnce(m: Manager, h: Handed)
    ensures Commit(Commit(m, h), h) == Commit(m, h)
  {
  }
}
