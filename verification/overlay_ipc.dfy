// The messages the client writes to the overlay renderer, one line each.
module OverlayIpc {
  import opened Prelude

  datatype Producer = DaemonSttInterim | LlmAnswerDelta

  // Seconds on the wire are whole milliseconds here.
  datatype Message =
    | OutputHint(outputName: string)
    | InterimState(session: Uuid, producer: Producer, number: nat, state: string)
    | InterimText(session: Uuid, producer: Producer, number: nat, text: string)
    | AudioLevel(session: Uuid)
    | InjectionComplete(session: Uuid, success: bool, copyOnly: bool)
    | SessionEnded(session: Uuid, reason: Option<string>)
    | SessionWarning(session: Uuid, remainingMs: Option<int>, limitMs: Option<int>)
  {
    predicate IsInterim() { InterimState? || InterimText? }

    // An interim event that belongs to session `id`.
    predicate IsInterimOf(id: Uuid) { IsInterim() && session == id }

    // An interim event carrying the language model's answer for session `id`.
    predicate IsAnswerOf(id: Uuid) { IsInterimOf(id) && producer == LlmAnswerDelta }

    function SessionId(): Option<Uuid> {
      if OutputHint? then None else Some(session)
    }
  }
}
