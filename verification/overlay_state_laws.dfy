// What the renderer keeps over whole runs of messages and clock ticks.
module OverlayStateLaws {
  import opened Prelude
  import opened Text
  import opened OverlayIpc
  import opened OverlayState

  datatype Input = Receive(message: Message, at: nat) | Tick(at: nat)

  function Step(s: Screen, i: Input): Screen {
    match i
    case Receive(m, at) => Apply(s, m, at).0
    case Tick(at) => AdvanceTime(s, at).0
  }

  function Feed(s: Screen, inputs: seq<Input>): Screen
    decreases |inputs|
  {
    if inputs == [] then s else Feed(Step(s, inputs[0]), inputs[1..])
  }

  // Inputs arrive under a clock that never runs backwards from `clock`.
  predicate Chronological(clock: nat, inputs: seq<Input>)
    decreases |inputs|
  {
    inputs == [] || (clock <= inputs[0].at && Chronological(inputs[0].at, inputs[1..]))
  }

  function LastTime(clock: nat, inputs: seq<Input>): nat
    decreases |inputs|
  {
    if inputs == [] then clock else LastTime(inputs[0].at, inputs[1..])
  }

  // ---------------------------------------------------------------- reachable states

  predicate WellFormed(s: Screen) {
    && s.active == (if s.visible.Some? then Some(s.visible.value.session) else None)
    && s.active != Some(NIL)
    && (s.hideDeadline.Some? ==> s.visible.Some?)
  }

  lemma InterimKeepsWellFormed(s: Screen, m: Message, at: nat)
    requires WellFormed(s) && m.IsInterim()
    ensures var t := ApplyInterim(s, m, at).0; WellFormed(t) && t.autoHideMs == s.autoHideMs
  {
  }

  lemma StepKeepsWellFormed(s: Screen, i: Input)
    requires WellFormed(s)
    ensures WellFormed(Step(s, i)) && Step(s, i).autoHideMs == s.autoHideMs
  {
    if i.Receive? && i.message.IsInterim() {
      InterimKeepsWellFormed(s, i.message, i.at);
    }
  }

  // Every reachable renderer tracks exactly the visible session, never the nil one, and plans
  // to hide only what is visible.
  lemma {:induction false} ReachableIsWellFormed(s: Screen, inputs: seq<Input>)
    requires WellFormed(s)
    ensures WellFormed(Feed(s, inputs))
    decreases |inputs|
  {
    if inputs != [] {
      StepKeepsWellFormed(s, inputs[0]);
      ReachableIsWellFormed(Step(s, inputs[0]), inputs[1..]);
    }
  }

  // ---------------------------------------------------------------- the timer

  // Session `id` stays on the screen from the first state to the last.
  predicate Keeps(s: Screen, id: Uuid, inputs: seq<Input>)
    decreases |inputs|
  {
    s.Shows(id) && (inputs == [] || Keeps(Step(s, inputs[0]), id, inputs[1..]))
  }

  // The view of one session keeps its start, and its end once it has one.
  predicate KeepsClock(v: View, w: View, at: nat) {
    && w.startedMs == v.startedMs
    && w.endedMs in {v.endedMs, Some(v.endedMs.GetOr(at))}
  }

  lemma InterimKeepsClock(s: Screen, m: Message, at: nat, id: Uuid)
    requires m.IsInterim() && s.Shows(id) && ApplyInterim(s, m, at).0.Shows(id)
    ensures KeepsClock(s.visible.value, ApplyInterim(s, m, at).0.visible.value, at)
  {
  }

  lemma StepKeepsClock(s: Screen, i: Input, id: Uuid)
    requires WellFormed(s) && s.Shows(id) && Step(s, i).Shows(id)
    ensures KeepsClock(s.visible.value, Step(s, i).visible.value, i.at)
  {
    if i.Receive? && i.message.IsInterim() {
      InterimKeepsClock(s, i.message, i.at, id);
    }
  }

  // While one session stays on the screen its timer never runs backwards, and once the session
  // ended the timer shows the same value for ever.
  lemma {:induction false} TimerNeverRunsBackwards(s: Screen, inputs: seq<Input>, id: Uuid, t: nat, u: nat)
    requires WellFormed(s) && Keeps(s, id, inputs)
    requires Chronological(t, inputs) && LastTime(t, inputs) <= u
    ensures Feed(s, inputs).Shows(id)
    ensures s.visible.value.ElapsedMs(t) <= Feed(s, inputs).visible.value.ElapsedMs(u)
    ensures s.visible.value.endedMs.Some? ==>
              s.visible.value.ElapsedMs(t) == Feed(s, inputs).visible.value.ElapsedMs(u)
    decreases |inputs|
  {
    if inputs != [] {
      var next := Step(s, inputs[0]);
      StepKeepsClock(s, inputs[0], id);
      StepKeepsWellFormed(s, inputs[0]);
      TimerNeverRunsBackwards(next, inputs[1..], id, inputs[0].at, u);
    }
  }

  // ---------------------------------------------------------------- the question

  // The question of an answered session is its trimmed transcript at the first answer event, and
  // stays as it is from then on, as does the transcript.
  predicate KeepsQuestion(v: View, w: View, producer: Producer) {
    && (v.question.Some? ==> w.question == v.question)
    && (v.question.None? && w.question.Some? ==> producer.LlmAnswerDelta? && w.question == Some(Trim(v.transcript)))
    && (v.mode.Llm? ==> w.mode.Llm? && w.transcript == v.transcript)
  }

  lemma EventKeepsQuestion(v: View, producer: Producer, text: string, now: nat)
    ensures KeepsQuestion(v, StateOnView(v, producer, text, now), producer)
    ensures KeepsQuestion(v, TextOnView(v, producer, text), producer)
  {
  }

  lemma InterimKeepsQuestion(s: Screen, m: Message, at: nat, id: Uuid)
    requires m.IsInterim() && s.Shows(id) && ApplyInterim(s, m, at).0.Shows(id)
    ensures KeepsQuestion(s.visible.value, ApplyInterim(s, m, at).0.visible.value, m.producer)
  {
    if m.session == id {
      EventKeepsQuestion(s.visible.value, m.producer, if m.InterimState? then m.state else m.text, at);
    }
  }

  lemma {:induction false} QuestionStays(s: Screen, inputs: seq<Input>, id: Uuid)
    requires WellFormed(s) && Keeps(s, id, inputs) && s.visible.value.question.Some?
    ensures Feed(s, inputs).Shows(id) && Feed(s, inputs).visible.value.question == s.visible.value.question
    decreases |inputs|
  {
    if inputs != [] {
      var i := inputs[0];
      StepKeepsWellFormed(s, i);
      if i.Receive? && i.message.IsInterim() { InterimKeepsQuestion(s, i.message, i.at, id); }
      QuestionStays(Step(s, i), inputs[1..], id);
    }
  }

  // ---------------------------------------------------------------- leaving the screen

  predicate IsEnding(i: Input, id: Uuid) {
    i.Receive? && (i.message.SessionEnded? || i.message.InjectionComplete?) && i.message.session == id
  }

  predicate NoInterimOf(id: Uuid, inputs: seq<Input>) {
    forall k :: 0 <= k < |inputs| ==> inputs[k].Receive? ==> !inputs[k].message.IsInterimOf(id)
  }

  // Session `id` is off the screen, or leaves it by `deadline`.
  predicate Leaving(s: Screen, id: Uuid, deadline: nat) {
    s.Shows(id) ==> s.hideDeadline.Some? && s.hideDeadline.value <= deadline
  }

  // The time of the last message that ends `id`, which may postpone the deadline but not cancel it.
  function LastEnding(inputs: seq<Input>, id: Uuid): nat {
    if inputs == [] then 0
    else Max(LastEnding(inputs[1..], id), if IsEnding(inputs[0], id) then inputs[0].at else 0)
  }

  function Linger(s: Screen): nat { Max(s.autoHideMs, DONE_LINGER_MS) }

  lemma StepKeepsLeaving(s: Screen, i: Input, id: Uuid, deadline: nat)
    requires WellFormed(s) && id != NIL && Leaving(s, id, deadline)
    requires NoInterimOf(id, [i])
    ensures Leaving(Step(s, i), id,
                    if IsEnding(i, id) then Max(deadline, i.at + Linger(s)) else deadline)
  {
    assert i == [i][0];
  }

  // Without interim events of its own a session that has a hide deadline keeps one, whatever
  // else arrives, and no later than `Linger` after the last message that ended it.
  lemma {:induction false} LeavingIsFinal(s: Screen, inputs: seq<Input>, id: Uuid, deadline: nat)
    requires WellFormed(s) && id != NIL && Leaving(s, id, deadline)
    requires NoInterimOf(id, inputs)
    ensures Leaving(Feed(s, inputs), id, Max(deadline, LastEnding(inputs, id) + Linger(s)))
    decreases |inputs|
  {
    if inputs != [] {
      var i := inputs[0];
      var d := if IsEnding(i, id) then Max(deadline, i.at + Linger(s)) else deadline;
      StepKeepsLeaving(s, i, id, deadline);
      StepKeepsWellFormed(s, i);
      LeavingIsFinal(Step(s, i), inputs[1..], id, d);
    }
  }

  // The first tick past the deadline takes the session off the screen.
  lemma TickPastDeadlineHides(s: Screen, id: Uuid, deadline: nat, now: nat)
    requires Leaving(s, id, deadline) && deadline <= now
    ensures !AdvanceTime(s, now).0.Shows(id)
  {
  }

  // An input sets the deadline of session `id`, clears it, or leaves it as it is.
  function ArmedBy(s: Screen, i: Input, id: Uuid, armed: bool): bool {
    if IsEnding(i, id) then true
    else if i.Receive? && i.message.IsInterimOf(id) && Apply(s, i.message, i.at).1 == Applied then false
    else armed
  }

  function Armed(s: Screen, inputs: seq<Input>, id: Uuid, armed: bool): bool
    decreases |inputs|
  {
    if inputs == [] then armed else Armed(Step(s, inputs[0]), inputs[1..], id, ArmedBy(s, inputs[0], id, armed))
  }

  lemma StepArms(s: Screen, i: Input, id: Uuid)
    requires WellFormed(s) && id != NIL && s.Shows(id) && Step(s, i).Shows(id)
    ensures Step(s, i).hideDeadline.Some? <==> ArmedBy(s, i, id, s.hideDeadline.Some?)
  {
  }

  // A session that stays on the screen has a deadline exactly when the last message about it that
  // counts is an end or an outcome, not an interim event; with neither it is as it was.
  lemma {:induction false} DeadlineIsArmedExactly(s: Screen, inputs: seq<Input>, id: Uuid)
    requires WellFormed(s) && id != NIL && Keeps(s, id, inputs)
    ensures Feed(s, inputs).Shows(id)
    ensures Feed(s, inputs).hideDeadline.Some? <==> Armed(s, inputs, id, s.hideDeadline.Some?)
    decreases |inputs|
  {
    if inputs != [] {
      StepArms(s, inputs[0], id);
      StepKeepsWellFormed(s, inputs[0]);
      DeadlineIsArmedExactly(Step(s, inputs[0]), inputs[1..], id);
    }
  }

  // Time alone takes a session off the screen exactly when it has a deadline and some tick reaches
  // it; without one the sheet waits for a message for ever.
  lemma {:induction false} TimeHidesExactlyPastDeadline(s: Screen, inputs: seq<Input>, id: Uuid)
    requires s.Shows(id)
    requires forall k :: 0 <= k < |inputs| ==> inputs[k].Tick?
    ensures Feed(s, inputs).Shows(id) <==>
            s.hideDeadline.None? || forall k :: 0 <= k < |inputs| ==> inputs[k].at < s.hideDeadline.value
    decreases |inputs|
  {
    if inputs != [] {
      var next, rest := Step(s, inputs[0]), inputs[1..];
      if next.Shows(id) {
        TimeHidesExactlyPastDeadline(next, rest, id);
        assert forall k :: 0 < k < |inputs| ==> inputs[k] == rest[k - 1];
      } else {
        TimeShowsNothing(next, rest);
      }
    }
  }

  lemma {:induction false} TimeShowsNothing(s: Screen, inputs: seq<Input>)
    requires s.visible.None? && forall k :: 0 <= k < |inputs| ==> inputs[k].Tick?
    ensures Feed(s, inputs).visible.None?
    decreases |inputs|
  {
    if inputs != [] { TimeShowsNothing(Step(s, inputs[0]), inputs[1..]); }
  }

  // ---------------------------------------------------------------- out-of-order interim texts

  datatype Arrival = Arrival(number: nat, text: string, at: nat)

  predicate OneTextPerNumber(arrivals: seq<Arrival>) {
    forall i, j :: 0 <= i < |arrivals| && 0 <= j < |arrivals| && arrivals[i].number == arrivals[j].number ==>
                     arrivals[i].text == arrivals[j].text
  }

  predicate IsNewest(arrivals: seq<Arrival>, k: nat) {
    k < |arrivals| && forall i :: 0 <= i < |arrivals| ==> arrivals[i].number <= arrivals[k].number
  }

  function Texts(id: Uuid, producer: Producer, arrivals: seq<Arrival>): seq<Input>
    ensures |Texts(id, producer, arrivals)| == |arrivals|
  {
    if arrivals == [] then []
    else [Receive(InterimText(id, producer, arrivals[0].number, arrivals[0].text), arrivals[0].at)]
         + Texts(id, producer, arrivals[1..])
  }

  function ShownText(v: View, producer: Producer): string {
    if producer.LlmAnswerDelta? then v.answer else v.transcript
  }

  // The screen shows `text`, accepted under `number`, for the producer's session.
  predicate ShowsText(s: Screen, id: Uuid, producer: Producer, number: nat, text: string) {
    && s.active == Some(id) && s.Shows(id)
    && producer in s.lastSeq && s.lastSeq[producer] == number
    && ShownText(s.visible.value, producer) == text
    && (producer.DaemonSttInterim? ==> s.visible.value.mode.Stt?)
  }

  // From a screen showing number `n`, more arrivals end at the newest of them and `n`.
  lemma {:induction false} ArrivalsEndAtNewest(
    s: Screen, id: Uuid, producer: Producer, shown: Arrival, arrivals: seq<Arrival>, k: nat)
    requires id != NIL && ShowsText(s, id, producer, shown.number, shown.text)
    requires IsNewest([shown] + arrivals, k) && OneTextPerNumber([shown] + arrivals)
    ensures ShowsText(Feed(s, Texts(id, producer, arrivals)), id, producer,
                      ([shown] + arrivals)[k].number, ([shown] + arrivals)[k].text)
    decreases |arrivals|
  {
    var all := [shown] + arrivals;
    if arrivals == [] {
      assert all[0] == shown && k == 0;
    } else {
      var a := arrivals[0];
      assert all[0] == shown && all[1] == a;
      var texts := Texts(id, producer, arrivals);
      var next := Step(s, texts[0]);
      var kept := if a.number <= shown.number then shown else a;
      assert ShowsText(next, id, producer, kept.number, kept.text);
      var rest := [kept] + arrivals[1..];
      assert forall i :: 0 < i < |rest| ==> rest[i] == all[i + 1];
      var j := if k < 2 then 0 else k - 1;
      assert all[k].number == rest[j].number && all[k].text == rest[j].text;
      ArrivalsEndAtNewest(next, id, producer, kept, arrivals[1..], j);
      assert texts[1..] == Texts(id, producer, arrivals[1..]);
    }
  }

  // The screen has no record of the producer for session `id`, and would show its text.
  predicate Unheard(s: Screen, id: Uuid, producer: Producer) {
    && !(s.active == Some(id) && producer in s.lastSeq)
    && (producer.DaemonSttInterim? && s.Shows(id) ==> s.visible.value.mode.Stt?)
  }

  // Any arrival order, with duplicates, of the interim texts of a producer not heard yet ends by
  // showing the text with the largest number.
  lemma ArrivalOrderDoesNotMatter(s: Screen, id: Uuid, producer: Producer, arrivals: seq<Arrival>, k: nat)
    requires id != NIL && Unheard(s, id, producer)
    requires IsNewest(arrivals, k) && OneTextPerNumber(arrivals)
    ensures ShowsText(Feed(s, Texts(id, producer, arrivals)), id, producer, arrivals[k].number, arrivals[k].text)
  {
    var texts := Texts(id, producer, arrivals);
    var next := Step(s, texts[0]);
    assert ShowsText(next, id, producer, arrivals[0].number, arrivals[0].text);
    assert [arrivals[0]] + arrivals[1..] == arrivals;
    assert texts[1..] == Texts(id, producer, arrivals[1..]);
    ArrivalsEndAtNewest(next, id, producer, arrivals[0], arrivals[1..], k);
  }

  // Between two clears of the record, the numbers a producer gets through strictly increase.
  lemma AcceptedNumbersIncrease(s: Screen, m: Message, now: nat)
    requires m.IsInterim() && m.session != NIL && s.active == Some(m.session)
    ensures var (t, outcome) := Apply(s, m, now);
            && (outcome == Applied <==> (m.producer in s.lastSeq ==> s.lastSeq[m.producer] < m.number))
            && (outcome == Applied ==> m.producer in t.lastSeq && t.lastSeq[m.producer] == m.number)
            && (outcome != Applied ==> t == s)
  {
  }
}
