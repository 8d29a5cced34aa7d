/**
 * The dock panel `NapariAIWidget` with its Qt widgets reduced to the state
 * they hold: the worker slot, the output editor's text, the input field's
 * text and the drop-down's selection.
 */
module Widget {
  import Lifecycle
  import Transcript
  import SyncPrompt

  datatype Option<T> = None | Some(value: T)

  /** What `send_prompt` prints when a request is already in flight. */
  const BusyNotice := "There currently is a prompt being evaluated. Please wait and try again."

  class NapariAIWidget {
    /** `self.worker` is set: a request is in flight. */
    var busy: bool
    /** The model and prompt the worker thread was started with. */
    var pending: Option<Lifecycle.Request>
    /** The text of the output editor `self.txt`. */
    var transcript: string
    /** The text of the prompt field `self.input_area`. */
    var input: string
    /** The current index of the drop-down `self.ai_selection`. */
    var selected: nat

    ghost predicate Valid()
      reads this
    {
      && (busy <==> pending.Some?)
      && selected < |Lifecycle.ModelChoices|
      && (pending.Some? ==> pending.value.model in Lifecycle.ModelChoices)
    }

    /** The panel's lifecycle state. */
    function Snapshot(): (s: Lifecycle.State)
      reads this
      requires Valid()
      ensures Lifecycle.Valid(s)
    {
      Lifecycle.State(if busy then Lifecycle.Requesting(pending.value) else Lifecycle.Idle, transcript, selected)
    }

    constructor ()
      ensures Valid() && Snapshot() == Lifecycle.Initial()
      ensures !busy && pending == None && transcript == "" && input == "" && selected == 0
    {
      busy, pending := false, None;
      transcript, input := "", "";
      selected := 0;
    }

    /** The user picks entry `index` of the drop-down. */
    method Select(index: nat)
      requires Valid() && index < |Lifecycle.ModelChoices|
      modifies this`selected
      ensures Valid() && selected == index
      ensures Snapshot() == Lifecycle.Step(old(Snapshot()), Lifecycle.Select(index))
    {
      selected := index;
    }

    /**
     * `send_prompt`: accepted only when idle, capturing the selected model and
     * the prompt; while busy nothing changes and the busy notice is returned.
     */
    method Submit(prompt: string) returns (notice: Option<string>)
      requires Valid()
      modifies this`busy, this`pending
      ensures Valid() && busy
      ensures notice == None <==> !old(busy)
      ensures !old(busy) ==> pending == Some(Lifecycle.Request(Lifecycle.ModelChoices[selected], prompt))
      ensures old(busy) ==> pending == old(pending) && notice == Some(BusyNotice)
      ensures Snapshot() == Lifecycle.Step(old(Snapshot()), Lifecycle.Submit(prompt))
    {
      if !busy {
        pending := Some(Lifecycle.Request(Lifecycle.ModelChoices[selected], prompt));
        busy := true;
        notice := None;
      } else {
        notice := Some(BusyNotice);
      }
    }

    /** `_on_click`: the "Send request" button submits the input field's text. */
    method OnClick() returns (notice: Option<string>)
      requires Valid()
      modifies this`busy, this`pending
      ensures Valid() && busy
      ensures notice == None <==> !old(busy)
      ensures !old(busy) ==> pending == Some(Lifecycle.Request(Lifecycle.ModelChoices[selected], input))
      ensures old(busy) ==> pending == old(pending) && notice == Some(BusyNotice)
      ensures Snapshot() == Lifecycle.Step(old(Snapshot()), Lifecycle.Submit(input))
    {
      notice := Submit(input);
    }

    /**
     * `eval_prompt` once the API has answered with `response`: one record is
     * appended to the output text and the worker slot is cleared.
     */
    method Complete(response: string)
      requires Valid() && busy
      modifies this`busy, this`pending, this`transcript
      ensures Valid() && !busy && pending == None
      ensures transcript == Transcript.Append(old(transcript),
        Transcript.Exchange(old(pending).value.model, old(pending).value.prompt, response))
      ensures Snapshot() == Lifecycle.Step(old(Snapshot()), Lifecycle.Complete(response))
    {
      var request := pending.value;
      transcript := Transcript.Append(transcript, Transcript.Exchange(request.model, request.prompt, response));
      busy, pending := false, None;
    }

    /**
     * `_sync_state`: the prompt describing `layers` (the viewer's open layers,
     * in order) goes into the input field; nothing is submitted.
     */
    method SyncState(layers: seq<SyncPrompt.Layer>)
      requires Valid()
      modifies this`input
      ensures Valid() && input == SyncPrompt.SyncPromptText(layers)
      ensures Snapshot() == old(Snapshot())
    {
      var prompt := SyncPrompt.BuildSyncPrompt(layers);
      input := prompt;
    }
  }

  /** One panel going through a rejected and an accepted submit around a completion. */
  method RequestCycle(first: string, second: string, response: string)
  {
    var w := new NapariAIWidget();
    var n := w.Submit(first);
    assert n == None && w.pending == Some(Lifecycle.Request("gpt-3.5-turbo", first));
    n := w.Submit(second);
    assert n == Some(BusyNotice) && w.pending == Some(Lifecycle.Request("gpt-3.5-turbo", first));
    w.Complete(response);
    assert w.transcript == Transcript.Record(Transcript.Exchange("gpt-3.5-turbo", first, response));
    w.Select(1);
    n := w.Submit(second);
    assert n == None && w.pending == Some(Lifecycle.Request("gpt-4", second));
  }
}
