# naparAI panel controller, modelled in Dafny

naparAI is a dock panel for the napari image viewer. The user types a prompt,
picks one of two chat models and sends the prompt to a remote completion API.
The answer is appended to a markdown transcript in the panel's output editor.
The panel allows one request in flight at a time: the `worker` slot is either
empty (Idle) or holds the thread of the current request (Requesting). A submit
while Requesting prints a "please wait" notice and does nothing else. A second
button, "Create a sync prompt", writes a description of the viewer's open
layers into the prompt field without sending it.

The project models that controller from `src/naparai/_widget.py`:

- `Widget.dfy` — the class `NapariAIWidget` with the fields the source updates
  in place: the worker slot (`busy` plus the pending `(model, prompt)`), the
  output text, the input text and the drop-down's selection. Its methods are
  `send_prompt`, `_on_click`, the completion half of `eval_prompt` and
  `_sync_state`. `Select`, `Submit`, `OnClick` and `Complete` tie the new state
  to `Lifecycle.Step`. The constructor gives `Lifecycle.Initial`, and
  `SyncState` leaves the lifecycle state unchanged.
- `Lifecycle.dfy` — the same request lifecycle as a pure state machine
  (`Step`, `Run` over event traces). It holds the trace properties: the
  transcript is append-only, it gains one record per completion, and the panel
  becomes Idle only through a completion.
- `Transcript.dfy` — the record `eval_prompt` appends
  (`\n### User\n<prompt>\n\n### AI(<model>)\n<response>\n\n`) and the rendering
  of a sequence of exchanges.
- `SyncPrompt.dfy` — the layer descriptor, the prompt template, the
  loop-based builder and its structure lemmas. The three fixed sentences are one
  `Template` value, `Napari`. The structure lemmas are stated for any template,
  so they hold for `Napari`.
- `Decimal.dfy` — the decimal text of the layer count, with a parse that
  inverts it.
- `Lines.dfy` — splitting and joining text on newlines (Python's
  `str.split("\n")`) and newline-terminated lists of lines, used to state the
  prompt's line structure.

The network call and the thread are the gap between `Submit` and `Complete`.
The API's response is a parameter of `Complete`. The viewer's layers are a
parameter of `SyncState`. Python's renderings of `type(layer.data)`,
`layer.data.shape` and `layer.data.dtype` are opaque strings in each `Layer`.

A failing API call raises inside the worker thread before `self.worker = None`
runs (src/naparai/_widget.py:97-106), so the flag stays set. The model
therefore has no failure transition. `Lifecycle.HeldUntilComplete` proves that
only `Complete` makes the panel Idle again.

The method `Widget.RequestCycle` is a worked example that uses only the class's
contracts. A fresh panel accepts a submit and rejects a second one while busy.
After the completion the transcript holds exactly one record. A new model is
selected and the next submit is accepted with it.

## Model

| member | source | states |
|---|---|---|
| `Lifecycle.Initial` | src/naparai/_widget.py:54-76 | a new panel is Idle, with empty output, the first drop-down entry selected, and in a valid state |
| `Lifecycle.Step` | src/naparai/_widget.py:96-159 | every submit, completion or selection leaves a valid state with the old transcript as a prefix of the new one |
| `Lifecycle.SubmitWhenIdle` | src/naparai/_widget.py:152-155 | a submit while Idle moves to Requesting with exactly the selected model and the given prompt, and changes nothing else |
| `Lifecycle.SubmitWhenBusy` | src/naparai/_widget.py:156-159 | a submit while Requesting leaves the whole state unchanged |
| `Lifecycle.CompleteReopens` | src/naparai/_widget.py:106 | a completion returns to Idle, so the next submit is accepted with the current selection |
| `Lifecycle.StepTranscript` | src/naparai/_widget.py:102-104 | one event appends the record of the exchange it finishes (if it is a completion) and nothing else |
| `Lifecycle.RunAppendOnly` | src/naparai/_widget.py:102-104 | over any trace of events the transcript before is a prefix of the transcript after |
| `Lifecycle.RunTranscript` | src/naparai/_widget.py:102-106 | after any trace the transcript is the old one followed by one record per completed request, in completion order, each with the model and prompt captured at submit |
| `Lifecycle.HeldUntilComplete` | src/naparai/_widget.py:96-106 | while no completion arrives, a request in flight keeps the same model and prompt and the transcript is unchanged |
| `Lifecycle.CompletedModelsOffered` | src/naparai/_widget.py:74-76 | every record written names one of the two drop-down models |
| `Widget.NapariAIWidget.constructor` | src/naparai/_widget.py:54-76 | a new widget has no worker, empty output and input, and selection 0 |
| `Widget.NapariAIWidget.Select` | src/naparai/_widget.py:74-76 | choosing a drop-down entry changes only the selection |
| `Widget.NapariAIWidget.Submit` | src/naparai/_widget.py:151-159 | accepted exactly when idle, recording the selected model and the prompt as pending; when busy the pending request is kept and the busy notice is returned; output and input untouched; equals `Lifecycle.Step` |
| `Widget.NapariAIWidget.OnClick` | src/naparai/_widget.py:108-111 | submits the input field's current text, with the same outcomes as `Submit` |
| `Widget.NapariAIWidget.Complete` | src/naparai/_widget.py:102-106 | the output text becomes the old text followed by the record of the pending model, the prompt and the response; the worker slot is cleared |
| `Widget.NapariAIWidget.SyncState` | src/naparai/_widget.py:129-149 | the input field becomes the sync prompt for the given layers; busy flag, pending request, transcript and selection are unchanged and nothing is submitted |
| `Transcript.Append` | src/naparai/_widget.py:102-104 | the old text is kept unchanged as a prefix and exactly one record follows it |
| `Transcript.RecordFields` | src/naparai/_widget.py:102 | a record is the user heading, the prompt, "### AI(", the model, ")", the response and the closing blank line, at fixed offsets, in that order |
| `Transcript.RenderSnoc` | src/naparai/_widget.py:102-104 | appending a record to the rendering of some exchanges renders them plus one more at the end |
| `SyncPrompt.BuildSyncPrompt` | src/naparai/_widget.py:129-147 | the `+=` loop over the layers builds exactly `SyncPromptText(layers)` |
| `SyncPrompt.BuildTwiceAgrees` | src/naparai/_widget.py:129-147 | building the sync prompt twice from the same layers gives identical text |
| `SyncPrompt.StartsWithHeader` | src/naparai/_widget.py:130-133 | the prompt starts with the opening sentence and a newline, then "There are <count> layers open." and a newline |
| `SyncPrompt.EndsWithFooter` | src/naparai/_widget.py:138-143 | the prompt ends with the libraries sentence, a newline and the viewer advice |
| `SyncPrompt.NoLayers` | src/naparai/_widget.py:130-143 | with no layers the prompt is the opening sentence, "There are 0 layers open.", the libraries sentence and the advice, with no layer line |
| `SyncPrompt.LayerLineAt` | src/naparai/_widget.py:134-135 | layer i's line, with its name, data type, shape and dtype, sits after the lines of the earlier layers and before those of the later ones |
| `SyncPrompt.PromptLines` | src/naparai/_widget.py:130-143 | the prompt is, joined by newlines, the opening sentence, the count line, one line per layer in layer order, the libraries sentence and the advice |
| `SyncPrompt.SplitLayerLines` | src/naparai/_widget.py:134-135 | when no layer field contains a newline, the layer part splits into exactly one line per layer, in order |
| `SyncPrompt.SplitPromptLines` | src/naparai/_widget.py:130-143 | when neither the template sentences nor the layer fields contain a newline, the prompt splits into exactly the opening sentence, the count line, one line per layer in layer order, the libraries sentence and the advice |
| `SyncPrompt.CountLineInjective` | src/naparai/_widget.py:133 | the count line determines the number of layers |
| `Decimal.FromNat` | src/naparai/_widget.py:133 | the count is written as a non-empty string of digits, with a leading zero only for zero |
| `Decimal.ToNatFromNat` | src/naparai/_widget.py:133 | reading the digits back gives the count |
| `Decimal.FromNatInjective` | src/naparai/_widget.py:133 | different counts are written differently |

## Left out

- The Qt widgets, the layout and the two Scintilla editor subclasses (src/naparai/_widget.py:31-47, 63-94) are UI. Only the texts and the selection they hold are modelled.
- The OpenAI call and the extraction of `choices[0].message.content` (src/naparai/_widget.py:97-100) are a foreign network call. The response is a parameter of `Complete`.
- The worker `Thread` (src/naparai/_widget.py:154-155) is left out. A request is two sequential steps, `Submit` and `Complete`, and a completion is one atomic step.
- A failing API call raises in the worker and leaves `self.worker` set for good. The model has no failure event, so a request stays in flight until `Complete`.
- `Submit` returns the busy notice instead of printing it to the console.
- `eval_python` and `_eval_text` (src/naparai/_widget.py:113-127) run arbitrary code with `exec`, which cannot be modelled. The unused `eval_worker` field is left out too.
- Loading `.env` and the API key (src/naparai/_widget.py:27-28) and the `__main__` launcher (src/naparai/_widget.py:170-177) are configuration and I/O.
- Python's text for `type(layer.data)`, `shape` tuples and `dtype` is not modelled. Each layer supplies these as strings.
- The user can also type into the output editor and the prompt field. Those edits are not modelled. The model's texts change only through `Complete` and `SyncState`, and `eval_prompt` would append to whatever the editor holds at completion time.
- SyncPrompt.SplitLayerLines: requires that no layer field contains a newline. A newline inside a name or rendering would split that layer's sentence over two lines. `SyncPrompt.PromptLines` has no such condition.
- SyncPrompt.SplitPromptLines: is stated for any template whose sentences contain no newline, not for `Napari` itself, because proving that the long literals of `Napari` contain no newline is beyond the solver's budget. `SyncPrompt.PromptLines` covers `Napari` without that condition.
