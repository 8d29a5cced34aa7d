/**
 * The conversation transcript shown in the panel's output editor: one
 * markdown-style record per finished request, appended to what is there.
 */
module Transcript {

  /** One finished request: the model asked, the prompt sent, the text it gave back. */
  datatype Exchange = Exchange(model: string, prompt: string, response: string)

  const UserHeading := "\n### User\n"
  const AiOpen := "\n\n### AI("
  const AiClose := ")\n"
  const RecordEnd := "\n\n"

  /** The record `eval_prompt` formats for one exchange. */
  function Record(x: Exchange): string {
    UserHeading + x.prompt + AiOpen + x.model + AiClose + x.response + RecordEnd
  }

  /**
   * The new editor text after a completion: the old text is kept as it is
   * and exactly one record follows it.
   */
  function Append(history: string, x: Exchange): (h: string)
    ensures |h| == |history| + |Record(x)|
    ensures h[..|history|] == history
    ensures h[|history|..] == Record(x)
  {
    history + Record(x)
  }

  /** The records of a sequence of exchanges, in order. */
  function Render(xs: seq<Exchange>): string {
    if xs == [] then "" else Record(xs[0]) + Render(xs[1..])
  }

  /**
   * Where the fields sit in a record: the prompt directly after the user
   * heading, then the model between "### AI(" and ")", then the response,
   * so the three appear in that order and can be read back by position.
   */
  lemma RecordFields(x: Exchange)
    ensures var r, p, m := Record(x), |UserHeading|, |UserHeading| + |x.prompt| + |AiOpen|;
      && |r| == |x.prompt| + |x.model| + |x.response| + 23
      && r[..p] == UserHeading
      && r[p..p + |x.prompt|] == x.prompt
      && r[p + |x.prompt|..m] == AiOpen
      && r[m..m + |x.model|] == x.model
      && r[m + |x.model|..m + |x.model| + 2] == AiClose
      && r[m + |x.model| + 2..|r| - 2] == x.response
      && r[|r| - 2..] == RecordEnd
  {
  }

  /** Rendering distributes over concatenation of exchange sequences. */
  lemma {:induction false} RenderConcat(xs: seq<Exchange>, ys: seq<Exchange>)
    ensures Render(xs + ys) == Render(xs) + Render(ys)
  {
    if xs == [] {
      assert xs + ys == ys;
    } else {
      assert (xs + ys)[1..] == xs[1..] + ys;
      RenderConcat(xs[1..], ys);
    }
  }

  /** Appending one record is rendering one more exchange at the end. */
  lemma RenderSnoc(xs: seq<Exchange>, x: Exchange)
    ensures Render(xs + [x]) == Append(Render(xs), x)
  {
    RenderConcat(xs, [x]);
    assert Render([x]) == Record(x) + Render([]);
  }
}
