/** What the two terminals share: the input line is normalised (lower-cased,
    then trimmed) before it is looked up in a command table, a blank line is
    ignored, and an answered command appends the echoed input and the answer
    to the history and empties the input field. */
module CommandLine {
  import opened JsRuntime

  /** The command a raw input line stands for. */
  function Normalise(input: string): (cmd: string)
    ensures |cmd| <= |input|
    ensures forall i :: 0 <= i < |cmd| ==> !('A' <= cmd[i] <= 'Z')
  {
    Trim(ToLower(input))
  }

  /** The submit handlers give up on a line that `trim` empties. */
  predicate Blank(input: string)
  {
    Trim(input) == []
  }

  /** A line is blank exactly when it is all white space, and then it
      normalises to the empty command; any other line normalises to a
      non-empty one. */
  lemma BlankIffWhiteSpace(input: string)
    ensures Blank(input) <==> AllWhiteSpace(input)
    ensures Blank(input) <==> Normalise(input) == []
  {
    TrimEmptyIffWhiteSpace(input);
    TrimEmptyIffWhiteSpace(ToLower(input));
    ToLowerWhiteSpace(input);
  }

  /** White space around a command and the case of its ASCII letters do
      not matter: "  HELP " is the command "help". */
  lemma PaddingAndCaseIgnored(p: string, w: string, q: string)
    requires AllWhiteSpace(p) && AllWhiteSpace(q)
    ensures Normalise(p + w + q) == Normalise(w)
  {
    ToLowerAppend(p + w, q);
    ToLowerAppend(p, w);
    ToLowerKeepsWhiteSpace(p);
    ToLowerKeepsWhiteSpace(q);
    TrimIgnoresPadding(p, ToLower(w), q);
  }

  /** Two lines that differ only in the case of ASCII letters are the same
      command. */
  lemma CaseIgnored(a: string, b: string)
    requires |a| == |b| && forall i :: 0 <= i < |a| ==> LowerChar(a[i]) == LowerChar(b[i])
    ensures Normalise(a) == Normalise(b)
  {
    assert ToLower(a) == ToLower(b);
  }

  /** What the table makes of a command: a line of text to answer with,
      wiping the history, or closing the terminal. */
  datatype Outcome = Reply(text: string) | ClearHistory | CloseTerminal

  /** The history line that echoes what was typed, untrimmed and in its
      original case. */
  function Echo(input: string): (line: string)
    ensures |line| == |input| + 2 && line[..2] == "> " && line[2..] == input
  {
    "> " + input
  }

  /** The input field and the history, the state both handlers update. */
  datatype Console = Console(input: string, history: seq<string>)

  /** The history and input after a non-blank line with the given outcome.
      Closing leaves both as they were: the field is not even cleared. */
  function Answered(c: Console, o: Outcome): (d: Console)
    ensures o.Reply? ==> d.input == "" && d.history == c.history + [Echo(c.input), o.text]
    ensures o.ClearHistory? ==> d == Console("", [])
    ensures o.CloseTerminal? ==> d == c
  {
    match o
    case Reply(text) => Console("", c.history + [Echo(c.input), text])
    case ClearHistory => Console("", [])
    case CloseTerminal => c
  }
}
