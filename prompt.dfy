/** Flattening of a chat conversation into the single text prompt that the
    Ollama generate endpoint accepts (`generateCommitMessage`, src/engine/ollama.ts). */
module Prompt {

  /** A chat message: its role tag exactly as the chat API spells it, and its text. */
  datatype Message = Message(role: string, content: string)

  /** What consecutive message lines are joined with: one blank line. */
  const Separator: string := "\n\n"

  /** The labels of the three recognised roles, as a lookup table. */
  const Labels: map<string, string> :=
    map["system" := "System: ", "user" := "User: ", "assistant" := "Assistant: "]

  /** The prefix a recognised role puts before the content; the empty string for any other role. */
  function LabelOf(role: string): string
  {
    if role in Labels then Labels[role] else ""
  }

  /** One message as a line of the prompt, by the chain of role tests the source makes. */
  function LineOf(m: Message): (line: string)
    ensures line == LabelOf(m.role) + m.content
    ensures |m.content| <= |line| && line[|line| - |m.content|..] == m.content
  {
    if m.role == "system" then "System: " + m.content
    else if m.role == "user" then "User: " + m.content
    else if m.role == "assistant" then "Assistant: " + m.content
    else m.content
  }

  /** Removes the label of `role` from a line again (the inverse of LineOf for that role). */
  function StripLabel(role: string, line: string): (content: string)
    requires |LabelOf(role)| <= |line|
  {
    line[|LabelOf(role)|..]
  }

  /** The content is recovered from the line by removing its role's label. */
  lemma StripLabelOfLine(m: Message)
    ensures |LabelOf(m.role)| <= |LineOf(m)|
    ensures StripLabel(m.role, LineOf(m)) == m.content
  {
    var line := LineOf(m);
    assert line == LabelOf(m.role) + m.content;
  }

  /** Two messages of the same role give the same line exactly when they have the same content. */
  lemma LineOfInjective(m1: Message, m2: Message)
    requires m1.role == m2.role
    ensures LineOf(m1) == LineOf(m2) <==> m1.content == m2.content
  {
    if LineOf(m1) == LineOf(m2) {
      StripLabelOfLine(m1);
      StripLabelOfLine(m2);
    }
  }

  /** Total length of a sequence of strings. */
  function TotalLength(lines: seq<string>): nat
  {
    if lines == [] then 0 else |lines[0]| + TotalLength(lines[1..])
  }

  /** `lines.join(sep)` as JavaScript's `Array.prototype.join` computes it for string elements. */
  function Join(sep: string, lines: seq<string>): (r: string)
    ensures lines == [] ==> r == ""
    ensures lines != [] ==> |r| == TotalLength(lines) + (|lines| - 1) * |sep|
    decreases |lines|
  {
    if |lines| == 0 then ""
    else if |lines| == 1 then lines[0]
    else
      var rest := Join(sep, lines[1..]);
      assert |rest| == TotalLength(lines[1..]) + (|lines| - 2) * |sep|;
      assert (|lines| - 1) * |sep| == (|lines| - 2) * |sep| + |sep|;
      lines[0] + sep + rest
  }

  /** Reference definition of joining: the accumulation from the left, one separator
      and the next line at a time. */
  function JoinLeft(sep: string, lines: seq<string>): string
    decreases |lines|
  {
    if |lines| == 0 then ""
    else if |lines| == 1 then lines[0]
    else JoinLeft(sep, lines[..|lines| - 1]) + sep + lines[|lines| - 1]
  }

  /** Joining a concatenation puts exactly one separator between the two joined halves. */
  lemma {:induction false} JoinAppend(sep: string, a: seq<string>, b: seq<string>)
    requires a != [] && b != []
    ensures Join(sep, a + b) == Join(sep, a) + sep + Join(sep, b)
    decreases |a|
  {
    if |a| == 1 {
      assert (a + b)[1..] == b;
    } else {
      assert (a + b)[1..] == a[1..] + b;
      JoinAppend(sep, a[1..], b);
    }
  }

  /** Join agrees with the left-to-right reference definition on every input. */
  lemma {:induction false} JoinMatchesLeft(sep: string, lines: seq<string>)
    ensures Join(sep, lines) == JoinLeft(sep, lines)
    decreases |lines|
  {
    if |lines| > 1 {
      var init, last := lines[..|lines| - 1], lines[|lines| - 1];
      assert lines == init + [last];
      JoinAppend(sep, init, [last]);
      JoinMatchesLeft(sep, init);
    }
  }

  /** Line `i` sits in the joined text between the join of the lines before it and the
      join of the lines after it, with one separator on each side that has lines: the
      order is kept and there is no leading or trailing separator. */
  lemma JoinAt(sep: string, lines: seq<string>, i: nat)
    requires i < |lines|
    ensures Join(sep, lines) ==
      (if i == 0 then "" else Join(sep, lines[..i]) + sep)
      + lines[i]
      + (if i == |lines| - 1 then "" else sep + Join(sep, lines[i + 1..]))
  {
    var before, here, after := lines[..i], [lines[i]], lines[i + 1..];
    assert lines == before + here + after;
    assert Join(sep, here) == lines[i];
    if after != [] {
      JoinAppend(sep, before + here, after);
    } else {
      assert lines == before + here;
    }
    if before != [] {
      JoinAppend(sep, before, here);
    }
  }

  /** The joined text starts with the first line and ends with the last one. */
  lemma JoinStartsAndEnds(sep: string, lines: seq<string>)
    requires lines != []
    ensures lines[0] <= Join(sep, lines)
    ensures var r, last := Join(sep, lines), lines[|lines| - 1];
      |last| <= |r| && r[|r| - |last|..] == last
  {
    JoinAt(sep, lines, 0);
    JoinAt(sep, lines, |lines| - 1);
  }

  /** `messages.map(...)`: the line of every message, in the same order. */
  function Lines(messages: seq<Message>): (lines: seq<string>)
    ensures |lines| == |messages|
    ensures forall i :: 0 <= i < |messages| ==> lines[i] == LineOf(messages[i])
  {
    if messages == [] then [] else [LineOf(messages[0])] + Lines(messages[1..])
  }

  /** The prompt sent to the server: the message lines joined with a blank line. */
  function BuildPrompt(messages: seq<Message>): (prompt: string)
    ensures messages == [] ==> prompt == ""
    ensures |messages| == 1 ==> prompt == LineOf(messages[0])
  {
    Join(Separator, Lines(messages))
  }

  /** Prompting for two conversations in a row is prompting for each with one blank line between. */
  lemma BuildPromptAppend(a: seq<Message>, b: seq<Message>)
    requires a != [] && b != []
    ensures BuildPrompt(a + b) == BuildPrompt(a) + Separator + BuildPrompt(b)
  {
    var la, lb, lab := Lines(a), Lines(b), Lines(a + b);
    assert lab == la + lb by {
      forall i | 0 <= i < |lab| ensures lab[i] == (la + lb)[i] {
        if i < |a| { assert (a + b)[i] == a[i]; } else { assert (a + b)[i] == b[i - |a|]; }
      }
    }
    JoinAppend(Separator, la, lb);
  }

  /** Message `i` appears in the prompt as its own line, after the prompt of the messages
      before it and before the prompt of the messages after it. */
  lemma BuildPromptAt(messages: seq<Message>, i: nat)
    requires i < |messages|
    ensures BuildPrompt(messages) ==
      (if i == 0 then "" else BuildPrompt(messages[..i]) + Separator)
      + LineOf(messages[i])
      + (if i == |messages| - 1 then "" else Separator + BuildPrompt(messages[i + 1..]))
  {
    var lines := Lines(messages);
    JoinAt(Separator, lines, i);
    assert lines[..i] == Lines(messages[..i]);
    assert lines[i + 1..] == Lines(messages[i + 1..]);
  }
}
