/**
 * The panel's request lifecycle as a pure state machine: Idle, or
 * Requesting with the one request its worker thread was started for.
 * Starting the thread and the network round trip are the gap between a
 * `Submit` event and the `Complete` event that carries the response.
 */
module Lifecycle {
  import Transcript
  import Lines

  /** The entries of the model drop-down, in order; index 0 is selected at start. */
  const ModelChoices: seq<string> := ["gpt-3.5-turbo", "gpt-4"]

  /** The arguments the worker thread is started with. */
  datatype Request = Request(model: string, prompt: string)

  datatype Phase = Idle | Requesting(request: Request)

  /**
   * What the lifecycle depends on: the phase, the output editor's text and
   * the drop-down's selection. The input field is not part of it; writing it
   * (the sync prompt) is no event here.
   */
  datatype State = State(phase: Phase, transcript: string, selected: nat)

  datatype Event =
    | Select(index: nat)                          // the user picks a drop-down entry
    | Submit(prompt: string)                      // `send_prompt`
    | Complete(response: string)                  // `eval_prompt` after the API answered

  predicate Valid(s: State) {
    && s.selected < |ModelChoices|
    && (s.phase.Requesting? ==> s.phase.request.model in ModelChoices)
  }

  /** A fresh panel: idle, empty output, first model selected. */
  function Initial(): (s: State)
    ensures Valid(s)
  {
    State(Idle, "", 0)
  }

  /**
   * Which events can happen: the drop-down offers only its entries, and a
   * completion only comes from a worker that was started.
   */
  predicate Enabled(s: State, e: Event) {
    match e
    case Select(i) => i < |ModelChoices|
    case Complete(_) => s.phase.Requesting?
    case _ => true
  }

  function Step(s: State, e: Event): (r: State)
    requires Valid(s) && Enabled(s, e)
    ensures Valid(r)
    ensures s.transcript <= r.transcript
  {
    match e
    case Select(i) => s.(selected := i)
    case Submit(p) =>
      if s.phase.Idle? then s.(phase := Requesting(Request(ModelChoices[s.selected], p))) else s
    case Complete(x) =>
      var req := s.phase.request;
      s.(phase := Idle, transcript := Transcript.Append(s.transcript, Transcript.Exchange(req.model, req.prompt, x)))
  }

  /** Every event of `es` is enabled when it happens. */
  predicate Trace(s: State, es: seq<Event>)
    requires Valid(s)
    decreases |es|
  {
    es == [] || (Enabled(s, es[0]) && Trace(Step(s, es[0]), es[1..]))
  }

  function Run(s: State, es: seq<Event>): (r: State)
    requires Valid(s) && Trace(s, es)
    ensures Valid(r)
    decreases |es|
  {
    if es == [] then s else Run(Step(s, es[0]), es[1..])
  }

  /** The exchanges that the `Complete` events of a run finish, in order. */
  function Completed(s: State, es: seq<Event>): seq<Transcript.Exchange>
    requires Valid(s) && Trace(s, es)
    decreases |es|
  {
    if es == [] then []
    else Finished(s, es[0]) + Completed(Step(s, es[0]), es[1..])
  }

  /** A submit while idle is accepted and records the selected model and the prompt. */
  lemma SubmitWhenIdle(s: State, p: string)
    requires Valid(s) && s.phase.Idle?
    ensures Step(s, Submit(p)) == s.(phase := Requesting(Request(ModelChoices[s.selected], p)))
  {
  }

  /** A submit while a request is in flight changes nothing. */
  lemma SubmitWhenBusy(s: State, p: string)
    requires Valid(s) && s.phase.Requesting?
    ensures Step(s, Submit(p)) == s
  {
  }

  /** After a completion the panel is idle again, so the next submit is accepted. */
  lemma CompleteReopens(s: State, x: string, p: string)
    requires Valid(s) && s.phase.Requesting?
    ensures Step(s, Complete(x)).phase == Idle
    ensures Step(Step(s, Complete(x)), Submit(p)).phase == Requesting(Request(ModelChoices[s.selected], p))
  {
  }

  /** Over any run the transcript only grows: the old text stays a prefix. */
  lemma {:induction false} RunAppendOnly(s: State, es: seq<Event>)
    requires Valid(s) && Trace(s, es)
    ensures s.transcript <= Run(s, es).transcript
    decreases |es|
  {
    if es != [] {
      RunAppendOnly(Step(s, es[0]), es[1..]);
    }
  }

  /** The exchange a `Complete` event finishes, if `e` is one. */
  function Finished(s: State, e: Event): seq<Transcript.Exchange>
    requires Valid(s) && Enabled(s, e)
  {
    if e.Complete? then [Transcript.Exchange(s.phase.request.model, s.phase.request.prompt, e.response)] else []
  }

  /** One step appends the records of what it finishes, and nothing else. */
  lemma StepTranscript(s: State, e: Event)
    requires Valid(s) && Enabled(s, e)
    ensures Step(s, e).transcript == s.transcript + Transcript.Render(Finished(s, e))
  {
  }

  /**
   * The transcript after a run is the one before it followed by exactly one
   * record per completed request, in completion order.
   */
  lemma {:induction false} RunTranscript(s: State, es: seq<Event>)
    requires Valid(s) && Trace(s, es)
    ensures Run(s, es).transcript == s.transcript + Transcript.Render(Completed(s, es))
    decreases |es|
  {
    if es != [] {
      var s1 := Step(s, es[0]);
      var head, rest := Finished(s, es[0]), Completed(s1, es[1..]);
      RunTranscript(s1, es[1..]);
      StepTranscript(s, es[0]);
      Transcript.RenderConcat(head, rest);
      assert Completed(s, es) == head + rest;
      Lines.Assoc(s.transcript, Transcript.Render(head), Transcript.Render(rest));
    }
  }

  /**
   * While no completion arrives, a request in flight stays in flight with
   * the same model and prompt and the transcript does not change: the panel
   * only becomes idle through `Complete`.
   */
  lemma {:induction false} HeldUntilComplete(s: State, es: seq<Event>)
    requires Valid(s) && Trace(s, es) && s.phase.Requesting?
    requires forall i :: 0 <= i < |es| ==> !es[i].Complete?
    ensures Run(s, es).phase == s.phase
    ensures Run(s, es).transcript == s.transcript
    decreases |es|
  {
    if es != [] {
      HeldUntilComplete(Step(s, es[0]), es[1..]);
    }
  }

  /** Every record written names one of the drop-down's models. */
  lemma {:induction false} CompletedModelsOffered(s: State, es: seq<Event>)
    requires Valid(s) && Trace(s, es)
    ensures forall k :: 0 <= k < |Completed(s, es)| ==> Completed(s, es)[k].model in ModelChoices
    decreases |es|
  {
    if es != [] {
      CompletedModelsOffered(Step(s, es[0]), es[1..]);
    }
  }
}
