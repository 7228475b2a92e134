/**
 * The prompt construction and the empty-input short-circuit of `process_messages`
 * (agents/agents/processor.py). The language model is a parameter from prompt to output.
 */
module AgentsProcessor {
  import opened Wrappers
  import opened Decimal
  import opened Models

  /** The fields of a stored message the prompt reads. */
  datatype PromptMessage = PromptMessage(id: int, text: Option<string>)

  /**
   * One review in the agent's structured output. Besides the declared fields, run_review_cycle
   * reads `index` and `seniority` from it, so the model carries those too.
   */
  datatype ReviewOutput = ReviewOutput(
    index: int,
    messageId: int,
    decision: Decision,
    seniority: Option<Seniority>,
    contacts: seq<Contact>,
    position: string,
    description: string,
    requirements: Option<string>,
    salaryFrom: Option<int>,
    salaryTo: Option<int>)

  /** A review output built only from its required fields: a record of the `Field` defaults of
      the output schema (no contacts, empty position and description, no requirements or
      salaries), stated field by field. */
  function DefaultReviewOutput(index: int, messageId: int, decision: Decision): (r: ReviewOutput)
    ensures r.index == index && r.messageId == messageId && r.decision == decision
    ensures r.contacts == [] && r.position == "" && r.description == ""
    ensures r.requirements.None? && r.salaryFrom.None? && r.salaryTo.None? && r.seniority.None?
  {
    ReviewOutput(index, messageId, decision, None, [], "", "", None, None, None)
  }

  const Header: string := "Review the following messages:\n\n"

  /** Python's f-string rendering of an optional text: None prints as "None". */
  function TextOf(t: Option<string>): string {
    if t.Some? then t.value else "None"
  }

  /** The concatenation of a list of strings. */
  function Concat(parts: seq<string>): string
    decreases |parts|
  {
    if |parts| == 0 then "" else Concat(parts[..|parts| - 1]) + parts[|parts| - 1]
  }

  /** The block one message contributes to the prompt. */
  function Block(m: PromptMessage): string {
    Concat(BlockPieces(m))
  }

  /** The pieces of a block: "ID: <id>\nText: <text>\n---\n". */
  function BlockPieces(m: PromptMessage): seq<string> {
    ["ID: " + Show(m.id) + "\n", "Text: ", TextOf(m.text), "\n---\n"]
  }

  predicate StartsWithId(s: string, id: int) {
    var p := "ID: " + Show(id) + "\n";
    |p| <= |s| && s[..|p|] == p
  }

  /** A block opens with the message's ID line. */
  lemma BlockStartsWithId(m: PromptMessage)
    ensures StartsWithId(Block(m), m.id)
  {
    var pieces := BlockPieces(m);
    ConcatAppend([pieces[0]], pieces[1..]);
    assert [pieces[0]] + pieces[1..] == pieces;
    assert Concat([pieces[0]]) == pieces[0] by {
      assert [pieces[0]][..0] == [];
    }
  }

  /** The blocks of the messages, one per message, in input order. */
  function Rendered(ms: seq<PromptMessage>): (r: seq<string>)
    ensures |r| == |ms| && forall k :: 0 <= k < |ms| ==> r[k] == Block(ms[k])
  {
    seq(|ms|, k requires 0 <= k < |ms| => Block(ms[k]))
  }

  /** The prompt a non-empty batch is sent as. */
  function Prompt(ms: seq<PromptMessage>): string {
    Header + Concat(Rendered(ms))
  }

  /** Concatenation distributes over joining lists. */
  lemma {:induction false} ConcatAppend(a: seq<string>, b: seq<string>)
    ensures Concat(a + b) == Concat(a) + Concat(b)
    decreases |b|
  {
    if |b| == 0 {
      assert a + b == a;
    } else {
      var c := a + b;
      assert c[..|c| - 1] == a + b[..|b| - 1];
      ConcatAppend(a, b[..|b| - 1]);
    }
  }

  /** Part `i` sits between the parts before and after it. */
  lemma ConcatAt(parts: seq<string>, i: int)
    requires 0 <= i < |parts|
    ensures Concat(parts) == Concat(parts[..i]) + parts[i] + Concat(parts[i + 1..])
  {
    var front := parts[..i + 1];
    assert parts == front + parts[i + 1..];
    ConcatAppend(front, parts[i + 1..]);
    assert front[..i] == parts[..i];
  }

  /** One more message adds its block at the end of the rendered body. */
  lemma RenderedStep(ms: seq<PromptMessage>, i: int)
    requires 0 <= i < |ms|
    ensures Concat(Rendered(ms[..i + 1])) == Concat(Rendered(ms[..i])) + Block(ms[i])
  {
    var next := Rendered(ms[..i + 1]);
    assert next[..i] == Rendered(ms[..i]);
  }

  /** One more message adds its block at the end of the prompt. */
  lemma PromptStep(ms: seq<PromptMessage>, i: int)
    requires 0 <= i < |ms|
    ensures Prompt(ms[..i + 1]) == Prompt(ms[..i]) + Block(ms[i])
  {
    RenderedStep(ms, i);
    assert (Header + Concat(Rendered(ms[..i]))) + Block(ms[i]) == Header + (Concat(Rendered(ms[..i])) + Block(ms[i]));
  }

  /** The prompt-building loop of `process_messages`. */
  method BuildPrompt(ms: seq<PromptMessage>) returns (prompt: string)
    ensures prompt == Prompt(ms)
  {
    prompt := Header;
    var i := 0;
    assert Rendered(ms[..0]) == [];
    while i < |ms|
      invariant 0 <= i <= |ms|
      invariant prompt == Prompt(ms[..i])
    {
      PromptStep(ms, i);
      prompt := prompt + Block(ms[i]);
      i := i + 1;
    }
    assert ms[..i] == ms;
  }

  /**
   * `process_messages`: an empty batch yields no reviews and no agent call; otherwise exactly one
   * call with the built prompt, whose output is returned unchanged.
   */
  method ProcessMessages(ms: seq<PromptMessage>, agent: string -> seq<ReviewOutput>)
    returns (reviews: seq<ReviewOutput>, calls: seq<string>)
    ensures |ms| == 0 ==> reviews == [] && calls == []
    ensures |ms| > 0 ==> calls == [Prompt(ms)] && reviews == agent(Prompt(ms))
  {
    if |ms| == 0 {
      return [], [];
    }
    var prompt := BuildPrompt(ms);
    reviews := agent(prompt);
    calls := [prompt];
  }

  /** Every message of the batch appears in the prompt body: after the blocks of the messages
      before it comes its own block (which opens with its ID line, BlockStartsWithId). */
  lemma PromptListsEveryMessage(ms: seq<PromptMessage>, i: int)
    requires 0 <= i < |ms|
    ensures Concat(Rendered(ms)) == Concat(Rendered(ms[..i])) + Block(ms[i]) + Concat(Rendered(ms[i + 1..]))
  {
    var parts := Rendered(ms);
    ConcatAt(parts, i);
    assert parts[..i] == Rendered(ms[..i]);
    assert parts[i + 1..] == Rendered(ms[i + 1..]);
  }
}
