/**
 * The "Create a sync prompt" action: a description of the viewer's open
 * layers in a fixed prompt template, followed by fixed usage advice.
 *
 * The three fixed sentences are kept in one `Template` value, `Napari`; the
 * lemmas are stated for any template, so they hold for `Napari` in particular
 * without the solver having to look inside its long literals.
 */
module SyncPrompt {
  import Decimal
  import Lines

  /**
   * What the prompt says of one open layer. The Python renderings of
   * `type(layer.data)`, `layer.data.shape` and `layer.data.dtype` are
   * opaque texts here.
   */
  datatype Layer = Layer(name: string, dataType: string, shape: string, dtype: string)

  /** The fixed sentences around the layer description. */
  datatype Template = Template(opening: string, libraries: string, advice: string)

  /** The widget's sentences; the advice ends with two full stops and no newline. */
  const Napari := Template(
    "The Python-based image visualization tool napari is already running and has the following state.",
    "The Python libraries numpy, dask, pytorch, and scikit-image are already installed. Only use known pytorch models, like stardist, and cellpose.",
    "Assume that the napari viewer is called 'viewer', assume napari is already running, do not use the colormap keyword when adding labels, and use viewer.layers when referencing open layers..")

  function CountLine(n: nat): string {
    "There are " + Decimal.FromNat(n) + " layers open."
  }

  function LayerLine(l: Layer): string {
    "There is a layer named " + l.name + " that contains data of type " + l.dataType
      + " with shape " + l.shape + " and dtype of " + l.dtype + "."
  }

  /** The per-layer lines, each ended by a newline, in layer order. */
  function LayerLines(layers: seq<Layer>): string {
    Lines.Terminated(LayerLine, layers)
  }

  function Header(t: Template, n: nat): string {
    (t.opening + "\n") + (CountLine(n) + "\n")
  }

  function Footer(t: Template): string {
    (t.libraries + "\n") + t.advice
  }

  function PromptText(t: Template, layers: seq<Layer>): string {
    Header(t, |layers|) + LayerLines(layers) + Footer(t)
  }

  /** The whole prompt `_sync_state` writes into the input field. */
  function SyncPromptText(layers: seq<Layer>): string {
    PromptText(Napari, layers)
  }

  /** The prompt, built as the widget builds it: one `+=` per piece. */
  method BuildSyncPrompt(layers: seq<Layer>) returns (prompt: string)
    ensures prompt == SyncPromptText(layers)
  {
    prompt := Napari.opening + "\n";
    prompt := prompt + (CountLine(|layers|) + "\n");
    for i := 0 to |layers|
      invariant prompt == Header(Napari, |layers|) + LayerLines(layers[..i])
    {
      assert layers[..i + 1][..i] == layers[..i];
      Lines.Assoc(Header(Napari, |layers|), LayerLines(layers[..i]), LayerLine(layers[i]) + "\n");
      prompt := prompt + (LayerLine(layers[i]) + "\n");
    }
    assert layers[..|layers|] == layers;
    Lines.Assoc(prompt, Napari.libraries + "\n", Napari.advice);
    prompt := prompt + (Napari.libraries + "\n");
    prompt := prompt + Napari.advice;
  }

  /** Building the prompt twice from the same layers gives the same text. */
  method BuildTwiceAgrees(layers: seq<Layer>) returns (first: string, second: string)
    ensures first == second
    ensures first == SyncPromptText(layers)
  {
    first := BuildSyncPrompt(layers);
    second := BuildSyncPrompt(layers);
  }

  /** The prompt opens with the opening sentence and then the layer count. */
  lemma StartsWithHeader(t: Template, layers: seq<Layer>)
    ensures var p, k := PromptText(t, layers), |t.opening| + 1;
      && |Header(t, |layers|)| <= |p|
      && p[..k] == t.opening + "\n"
      && p[k..|Header(t, |layers|)|] == "There are " + Decimal.FromNat(|layers|) + " layers open.\n"
  {
  }

  /** The prompt closes with the libraries sentence and then the advice. */
  lemma EndsWithFooter(t: Template, layers: seq<Layer>)
    ensures var p := PromptText(t, layers);
      && |Footer(t)| <= |p|
      && p[|p| - |Footer(t)|..] == t.libraries + "\n" + t.advice
  {
  }

  /** With no layers open the count is "0" and no layer line appears. */
  lemma NoLayers(t: Template)
    ensures PromptText(t, []) == t.opening + "\nThere are 0 layers open.\n" + t.libraries + "\n" + t.advice
  {
  }

  /**
   * Layer `i` has its own line, placed after the lines of the layers before
   * it and before the lines of the layers after it.
   */
  lemma LayerLineAt(layers: seq<Layer>, i: nat)
    requires i < |layers|
    ensures LayerLines(layers) == LayerLines(layers[..i]) + LayerLine(layers[i]) + "\n" + LayerLines(layers[i + 1..])
  {
    Lines.TerminatedAt(LayerLine, layers, i);
  }

  /**
   * The prompt is, joined by newlines: the opening sentence, the count line,
   * one line per layer in layer order, the libraries sentence and the advice.
   */
  lemma PromptLines(t: Template, layers: seq<Layer>)
    ensures PromptText(t, layers)
      == Lines.JoinLines([t.opening, CountLine(|layers|)] + Lines.LinesOf(LayerLine, layers) + [t.libraries, t.advice])
  {
    var tail := [t.libraries, t.advice];
    var mid := Lines.LinesOf(LayerLine, layers) + tail;
    Lines.JoinCons(t.libraries, [t.advice]);
    Lines.TerminatedJoin(LayerLine, layers, tail);
    Lines.JoinCons(CountLine(|layers|), mid);
    Lines.JoinCons(t.opening, [CountLine(|layers|)] + mid);
    assert [t.opening] + ([CountLine(|layers|)] + mid)
      == [t.opening, CountLine(|layers|)] + Lines.LinesOf(LayerLine, layers) + tail;
    Lines.Assoc(t.opening + "\n", CountLine(|layers|) + "\n", LayerLines(layers) + Footer(t));
    Lines.Assoc(Header(t, |layers|), LayerLines(layers), Footer(t));
  }

  predicate NoNewlineFields(l: Layer) {
    Lines.NoNewline(l.name) && Lines.NoNewline(l.dataType) && Lines.NoNewline(l.shape) && Lines.NoNewline(l.dtype)
  }

  lemma LayerLineHasNoNewline(l: Layer)
    requires NoNewlineFields(l)
    ensures Lines.NoNewline(LayerLine(l))
  {
  }

  /**
   * When no layer field holds a newline, the layer part of the prompt splits
   * into exactly one line per layer, in layer order, and nothing else.
   */
  lemma SplitLayerLines(layers: seq<Layer>)
    requires forall i :: 0 <= i < |layers| ==> NoNewlineFields(layers[i])
    ensures Lines.SplitLines(LayerLines(layers)) == Lines.LinesOf(LayerLine, layers) + [""]
  {
    forall i | 0 <= i < |layers|
      ensures Lines.NoNewline(LayerLine(layers[i]))
    {
      LayerLineHasNoNewline(layers[i]);
    }
    Lines.SplitTerminated(LayerLine, layers);
  }

  /**
   * When neither the template's sentences nor the layer fields hold a
   * newline, the prompt splits into exactly its sentences: the opening, the
   * count line, one line per layer in layer order, the libraries sentence and
   * the advice.
   */
  lemma SplitPromptLines(t: Template, layers: seq<Layer>)
    requires Lines.NoNewline(t.opening) && Lines.NoNewline(t.libraries) && Lines.NoNewline(t.advice)
    requires forall i :: 0 <= i < |layers| ==> NoNewlineFields(layers[i])
    ensures Lines.SplitLines(PromptText(t, layers))
      == [t.opening, CountLine(|layers|)] + Lines.LinesOf(LayerLine, layers) + [t.libraries, t.advice]
  {
    var all := [t.opening, CountLine(|layers|)] + Lines.LinesOf(LayerLine, layers) + [t.libraries, t.advice];
    forall i | 0 <= i < |layers|
      ensures Lines.NoNewline(LayerLine(layers[i]))
    {
      LayerLineHasNoNewline(layers[i]);
    }
    var d := Decimal.FromNat(|layers|);
    assert forall k :: 0 <= k < |d| ==> d[k] != '\n';
    assert Lines.NoNewline(CountLine(|layers|));
    assert forall i :: 0 <= i < |all| ==> Lines.NoNewline(all[i]);
    PromptLines(t, layers);
    Lines.SplitJoin(all);
  }

  /** The count line determines how many layers were described. */
  lemma CountLineInjective(m: nat, n: nat)
    requires CountLine(m) == CountLine(n)
    ensures m == n
  {
    var a, b := CountLine(m), CountLine(n);
    assert a[10..|a| - 13] == Decimal.FromNat(m);
    assert b[10..|b| - 13] == Decimal.FromNat(n);
    Decimal.FromNatInjective(m, n);
  }
}
