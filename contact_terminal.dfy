/** The small terminal at the foot of the contact section: the same command
    line as the floating terminal, with its own, shorter table and no way to
    close it. */
module ContactTerminal {
  import opened JsRuntime
  import opened CommandLine

  // ---------------------------------------------------------------------
  // The command table

  /** The cases of the switch; `Unknown` is its default. */
  datatype Command = Help | About | ContactInfo | Skills | Clear | Sudo | Matrix | Greeting | Unknown

  /** The switch's labels; `hello` and `hi` fall through to one case. */
  function Parse(cmd: string): (c: Command)
  {
    match cmd
    case "help" => Help
    case "about" => About
    case "contact" => ContactInfo
    case "skills" => Skills
    case "clear" => Clear
    case "sudo" => Sudo
    case "matrix" => Matrix
    case "hello" | "hi" => Greeting
    case _ => Unknown
  }

  /** The commands the help line names, in its order. */
  const HelpNames: seq<string> := ["help", "about", "contact", "skills", "clear", "sudo", "matrix"]

  /** The help line names exactly the commands of the switch other than the
      greeting, which stays hidden. */
  lemma HelpNamesTheCommands(cmd: string)
    ensures cmd in HelpNames <==> Parse(cmd) != Unknown && Parse(cmd) != Greeting
  {
  }

  /** The names separated by a comma and a space. */
  function CommaList(names: seq<string>): string
  {
    if names == [] then ""
    else if |names| == 1 then names[0]
    else names[0] + ", " + CommaList(names[1..])
  }

  /** Every name of the list occurs in the joined text. */
  lemma {:induction false} CommaListMentions(names: seq<string>, k: nat)
    requires k < |names|
    ensures Contains(CommaList(names), names[k])
    decreases |names|
  {
    var r := CommaList(names);
    if k == 0 {
      ContainsAt(r, names[0], 0);
    } else {
      CommaListMentions(names[1..], k - 1);
      ContainsAfterPrefix(names[0] + ", ", CommaList(names[1..]), names[k]);
    }
  }

  /** The text of the `help` case. */
  const HelpText: string := "Available commands: " + CommaList(HelpNames)

  /** Whatever the help line names can be typed: each name is a case of the
      switch and occurs in the help text. */
  lemma HelpMentionsEveryName(k: nat)
    requires k < |HelpNames|
    ensures Parse(HelpNames[k]) != Unknown
    ensures Contains(HelpText, HelpNames[k])
  {
    HelpNamesTheCommands(HelpNames[k]);
    CommaListMentions(HelpNames, k);
    ContainsAfterPrefix("Available commands: ", CommaList(HelpNames), HelpNames[k]);
  }

  /** The text each answering case sets `response` to. */
  function Answer(c: Command): string
    requires c != Clear && c != Unknown
  {
    match c
    case Help => HelpText
    case About => "A developer who believes code is poetry and architecture is art."
    case ContactInfo => "EMAIL: kinjaldutta005@gmail.com | GITHUB: @KD-3030"
    case Skills => "Loading skill database... [TypeScript, Python, React, AI, IoT, ...]"
    case Sudo => "Nice try. Access denied."
    case Matrix => "Wake up, Neo... The Matrix has you..."
    case Greeting => "Hello, visitor. Welcome to the Neural Terminal."
  }

  /** The answer to anything else, quoting the normalised command. */
  function NotRecognised(cmd: string): (text: string)
    ensures |text| == |cmd| + 63 && text[25..25 + |cmd|] == cmd
  {
    "Command not recognized: \"" + cmd + "\". Type \"help\" for available commands."
  }

  /** The switch: `clear` wipes, the default quotes the command back, every
      other case answers with its text.  Nothing closes this terminal. */
  function Respond(cmd: string): (o: Outcome)
    ensures !o.CloseTerminal?
    ensures o.ClearHistory? <==> Parse(cmd) == Clear
    ensures Parse(cmd) == Unknown ==> o == Reply(NotRecognised(cmd))
    ensures Parse(cmd) !in {Clear, Unknown} ==> o == Reply(Answer(Parse(cmd)))
  {
    var c := Parse(cmd);
    if c == Clear then ClearHistory
    else if c == Unknown then Reply(NotRecognised(cmd))
    else Reply(Answer(c))
  }

  /** Labels that fall through to the same case get the same outcome. */
  lemma AliasesAnswerAlike(a: string, b: string)
    requires Parse(a) == Parse(b) != Unknown
    ensures Respond(a) == Respond(b)
  {
  }

  /** `hello` and `hi` share the greeting. */
  lemma GreetingAliases(cmd: string)
    requires cmd == "hello" || cmd == "hi"
    ensures Respond(cmd) == Reply(Answer(Greeting))
  {
    assert Parse(cmd) == Greeting;
  }

  /** `hey`, a greeting in the floating terminal, is not a command here. */
  lemma HeyIsNotACommand()
    ensures Respond("hey") == Reply(NotRecognised("hey"))
  {
    assert Parse("hey") == Unknown;
  }

  /** The submit handler on the input field and the history: a blank line
      changes nothing, any other is normalised, answered and echoed. */
  function Submitted(c: Console): (d: Console)
    ensures AllWhiteSpace(c.input) ==> d == c
    ensures !AllWhiteSpace(c.input) ==> d == Answered(c, Respond(Normalise(c.input)))
  {
    BlankIffWhiteSpace(c.input);
    if Blank(c.input) then c else Answered(c, Respond(Normalise(c.input)))
  }

  /** A submitted line that is not blank always empties the input field,
      and the history either restarts empty (`clear`) or grows by exactly
      the echo and the answer. */
  lemma SubmitEmptiesTheField(c: Console)
    requires !AllWhiteSpace(c.input)
    ensures Submitted(c).input == ""
    ensures var h := Submitted(c).history;
      h == [] || (|h| == |c.history| + 2 && h[..|c.history|] == c.history && h[|c.history|] == Echo(c.input))
  {
    var o := Respond(Normalise(c.input));
    assert Submitted(c) == Answered(c, o);
    if o.Reply? {
      var h := Submitted(c).history;
      assert h == c.history + [Echo(c.input), o.text];
      assert h[..|c.history|] == c.history;
    }
  }

  // ---------------------------------------------------------------------
  // The component

  /** The section's terminal: the input field and the history it keeps. */
  class Panel {
    var input: string
    var history: seq<string>

    function State(): Console
      reads this
    {
      Console(input, history)
    }

    constructor ()
      ensures State() == Console("", [])
    {
      input, history := "", [];
    }

    /** The input field's change handler. */
    method Type(text: string)
      modifies this
      ensures State() == Console(text, old(history))
    {
      input := text;
    }

    /** The form's submit handler. */
    method Submit()
      modifies this
      ensures State() == Submitted(old(State()))
    {
      if Blank(input) {
        return;
      }
      var o := Respond(Normalise(input));
      Apply(o);
    }

    /** The state updates of one answered line. */
    method Apply(o: Outcome)
      requires !o.CloseTerminal?
      modifies this
      ensures State() == Answered(old(State()), o)
    {
      match o {
        case Reply(text) =>
          history := history + [Echo(input), text];
          input := "";
        case ClearHistory =>
          history := [];
          input := "";
      }
    }
  }
}
