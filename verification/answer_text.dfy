// The text of the answer in flight, over every run of the client.
module AnswerText {
  import opened Prelude
  import opened ClientSession
  import opened ClientLoop
  import opened ClientLoopLaws
  import SseStream

  predicate StaysInFlight(c: Client, events: seq<Event>, id: Uuid)
    decreases |events|
  {
    c.llm.inFlight == Some(id) && (events != [] ==> StaysInFlight(Step(c, events[0]), events[1..], id))
  }

  function HeardNow(e: Event, id: Uuid): seq<string> {
    if e.Answering? && e.progress.Delta? && e.progress.session == id then [e.progress.delta] else []
  }

  // The deltas of session `id` that the client handles along the way.
  function Heard(events: seq<Event>, id: Uuid): seq<string> {
    if events == [] then [] else HeardNow(events[0], id) + Heard(events[1..], id)
  }

  // While an answer stays in flight its text grows by the deltas handled for it, and by nothing else.
  predicate TextGrows(c: Client, e: Event, d: Client, id: Uuid) {
    c.llm.inFlight == Some(id) && d.llm.inFlight == Some(id) ==>
      TextOf(d.llm.overlayText, id) == TextOf(c.llm.overlayText, id) + SseStream.Concat(HeardNow(e, id))
  }

  lemma AnsweringText(c: Client, e: Event, id: Uuid)
    requires e.Answering?
    ensures TextGrows(c, e, Step(c, e), id)
  {
    if ExtendsAnswer(c, e, id) {
      var delta := e.progress.delta;
      assert [delta][..0] == [] && "" + delta == delta;
      assert SseStream.Concat([delta]) == delta;
    } else if FinishesAnswer(c, e, e.progress.session) {
      var _ := FinishingStep(c, e.progress.session, e.progress.transcript, e.progress.result, e.hint, e.queued);
    }
  }

  lemma DaemonText(c: Client, e: Event, d: Client, id: Uuid)
    requires e.Daemon? && DaemonFrame(c, e.message, e.queued, d)
    ensures TextGrows(c, e, d, id)
  {
  }

  lemma StepText(c: Client, e: Event, id: Uuid)
    ensures TextGrows(c, e, Step(c, e), id)
  {
    match e
    case Answering(_, _, _) => AnsweringText(c, e, id);
    case Daemon(_, _, _) =>
      DaemonStep(c, e);
      DaemonText(c, e, Step(c, e), id);
    case _ =>
  }

  lemma {:induction false} TextIsWhatWasHeard(c: Client, events: seq<Event>, id: Uuid)
    requires StaysInFlight(c, events, id)
    ensures Run(c, events).llm.inFlight == Some(id)
    ensures TextOf(Run(c, events).llm.overlayText, id)
         == TextOf(c.llm.overlayText, id) + SseStream.Concat(Heard(events, id))
    decreases |events|
  {
    if events == [] {
      assert SseStream.Concat([]) == "";
    } else {
      var next, rest := Step(c, events[0]), events[1..];
      TextIsWhatWasHeard(next, rest, id);
      StepText(c, events[0], id);
      SseStream.TextsJoin(TextOf(c.llm.overlayText, id), HeardNow(events[0], id), Heard(rest, id));
    }
  }

  lemma StartsBlank(c: Client, accept: Event, id: Uuid)
    requires StatesAgree(c) && StartsAnswer(c, accept, id)
    ensures TextOf(Step(c, accept).llm.overlayText, id) == ""
  {
  }
}
