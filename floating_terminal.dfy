/** The floating terminal: a window toggled by a button or by Ctrl+Shift+`,
    closed by Escape, with a command line answered from a fixed table. */
module FloatingTerminal {
  import opened JsRuntime
  import opened CommandLine

  // ---------------------------------------------------------------------
  // The command table

  /** The cases of the submit handler's switch; `Unknown` is its default. */
  datatype Command =
    | Help | About | ContactInfo | Skills | Projects | Scroll | Clear | Date
    | Whoami | Matrix | Exit | Sudo | Greeting | Theme | Unknown

  /** The switch's labels, aliases falling through to the same case. */
  function Parse(cmd: string): (c: Command)
  {
    match cmd
    case "help" => Help
    case "about" => About
    case "contact" => ContactInfo
    case "skills" => Skills
    case "projects" => Projects
    case "scroll" => Scroll
    case "clear" => Clear
    case "date" => Date
    case "whoami" => Whoami
    case "matrix" => Matrix
    case "exit" | "quit" | "close" => Exit
    case "sudo" | "sudo su" => Sudo
    case "hello" | "hi" | "hey" => Greeting
    case "theme" => Theme
    case _ => Unknown
  }

  /** The labels of the switch. */
  const Commands: set<string> := {
    "help", "about", "contact", "skills", "projects", "scroll", "clear", "date",
    "whoami", "matrix", "exit", "quit", "close", "sudo", "sudo su", "hello", "hi",
    "hey", "theme"}

  /** Exactly the labels reach a case other than the default. */
  lemma ParseKnowsTheLabels(cmd: string)
    ensures Parse(cmd) != Unknown <==> cmd in Commands
  {
  }

  /** The entries of the help text: a command and what it does. */
  const HelpEntries: seq<(string, string)> := [
    ("help", "Show this help message"),
    ("about", "About the developer"),
    ("contact", "Contact information"),
    ("skills", "List of skills"),
    ("projects", "View projects"),
    ("clear", "Clear terminal"),
    ("theme", "Toggle terminal theme"),
    ("date", "Current date/time"),
    ("whoami", "Identity check"),
    ("matrix", "Enter the Matrix"),
    ("exit", "Close terminal")
  ]

  function Spaces(n: nat): (r: string)
    ensures |r| == n && forall i :: 0 <= i < n ==> r[i] == ' '
  {
    if n == 0 then "" else " " + Spaces(n - 1)
  }

  /** One line of the help text: the name indented by two and padded to
      nine columns, a dash, the description. */
  function HelpLine(name: string, description: string): (line: string)
    requires |name| <= 9
    ensures |line| == 13 + |description|
    ensures line[..2] == "  " && line[2..2 + |name|] == name && line[13..] == description
  {
    "  " + name + Spaces(9 - |name|) + "- " + description
  }

  function HelpLines(entries: seq<(string, string)>): string
    requires forall i :: 0 <= i < |entries| ==> |entries[i].0| <= 9
  {
    if entries == [] then ""
    else "\n" + HelpLine(entries[0].0, entries[0].1) + HelpLines(entries[1..])
  }

  const HelpText: string := "Available commands:" + HelpLines(HelpEntries)

  /** The text each answering case sets `response` to; `now` is the
      clock's ISO timestamp, which `date` prints. */
  function Answer(c: Command, now: string): string
    requires c != Clear && c != Exit && c != Unknown
  {
    match c
    case Help => HelpText
    case About =>
      "A developer who believes code is poetry and architecture is art. Building secure interfaces in the digital age."
    case ContactInfo =>
      "EMAIL: chadrt21@gmail.com\nGITHUB: github.com/chadrt21\nLINKEDIN: linkedin.com/in/chadtross"
    case Skills =>
      "[LOADING SKILL DATABASE...]\n\U{251C}\U{2500}\U{2500} Languages: TypeScript, Python, Java, C++\n\U{251C}\U{2500}\U{2500} Frontend: React, Next.js, Three.js\n\U{251C}\U{2500}\U{2500} Backend: Node.js, FastAPI, Django\n\U{251C}\U{2500}\U{2500} AI/ML: TensorFlow, PyTorch, LangChain\n\U{251C}\U{2500}\U{2500} Cloud: AWS, Azure, GCP\n\U{2514}\U{2500}\U{2500} Tools: Docker, Git, Kubernetes"
    case Projects =>
      "[ACCESSING PROJECT ARCHIVES...]\n\U{251C}\U{2500}\U{2500} Secured Terminal - This portfolio\n\U{251C}\U{2500}\U{2500} TOLBOX - Autonomous diagnostics tool\n\U{251C}\U{2500}\U{2500} TASS - Management for IT departments \n\U{2514}\U{2500}\U{2500} Type \"scroll\" to navigate to projects"
    case Scroll => "Navigating to projects section..."
    case Date => "Current timestamp: " + now
    case Whoami => "VISITOR // ACCESS_LEVEL: GUEST // STATUS: AUTHENTICATED"
    case Matrix => "Wake up, Neo... The Matrix has you... Follow the white rabbit."
    case Sudo => "\U{26A0}\U{FE0F} Permission denied. Nice try though."
    case Greeting => "Hello, visitor. Welcome to the Secured Terminal. Type \"help\" for commands."
    case Theme => "Theme switching coming in v2.0..."
  }

  /** The answer to anything else, quoting the normalised command. */
  function NotFound(cmd: string): (text: string)
    ensures |text| == |cmd| + 58 && text[20..20 + |cmd|] == cmd
  {
    "Command not found: \"" + cmd + "\". Type \"help\" for available commands."
  }

  /** The switch of the submit handler: `clear` wipes, the exit aliases
      close, the default quotes the command back, every other case answers
      with its text. */
  function Respond(cmd: string, now: string): (o: Outcome)
    ensures Parse(cmd) == Unknown ==> o == Reply(NotFound(cmd))
    ensures o.ClearHistory? <==> Parse(cmd) == Clear
    ensures o.CloseTerminal? <==> Parse(cmd) == Exit
    ensures Parse(cmd) !in {Clear, Exit, Unknown} ==> o == Reply(Answer(Parse(cmd), now))
  {
    var c := Parse(cmd);
    if c == Clear then ClearHistory
    else if c == Exit then CloseTerminal
    else if c == Unknown then Reply(NotFound(cmd))
    else Reply(Answer(c, now))
  }

  /** Labels that fall through to the same case get the same outcome. */
  lemma AliasesAnswerAlike(a: string, b: string, now: string)
    requires Parse(a) == Parse(b) != Unknown
    ensures Respond(a, now) == Respond(b, now)
  {
  }

  /** `exit`, `quit` and `close` all close the window. */
  lemma ExitAliases(cmd: string, now: string)
    requires cmd == "exit" || cmd == "quit" || cmd == "close"
    ensures Respond(cmd, now) == CloseTerminal
  {
    assert Parse(cmd) == Exit;
  }

  /** `sudo` and `sudo su` get the same refusal. */
  lemma SudoAliases(cmd: string, now: string)
    requires cmd == "sudo" || cmd == "sudo su"
    ensures Respond(cmd, now) == Reply(Answer(Sudo, now))
  {
    assert Parse(cmd) == Sudo;
  }

  /** `hello`, `hi` and `hey` get the same greeting. */
  lemma GreetingAliases(cmd: string, now: string)
    requires cmd == "hello" || cmd == "hi" || cmd == "hey"
    ensures Respond(cmd, now) == Reply(Answer(Greeting, now))
  {
    assert Parse(cmd) == Greeting;
  }

  /** Every command the help text advertises is a label of the switch. */
  lemma HelpAdvertisesOnlyCommands()
    ensures forall i :: 0 <= i < |HelpEntries| ==> HelpEntries[i].0 in Commands
  {
  }

  // ---------------------------------------------------------------------
  // The component's state

  /** Whether the window is open and minimised, the input field and the
      history. */
  datatype Session = Session(isOpen: bool, isMinimized: bool, console: Console)

  const Closed: Session := Session(false, false, Console("", []))

  /** The state after a non-blank line with outcome `o`: closing only
      shuts the window, every other outcome goes through `Answered`. */
  function Applied(s: Session, o: Outcome): (r: Session)
    ensures r.isMinimized == s.isMinimized && r.console == Answered(s.console, o)
    ensures r.isOpen == (s.isOpen && !o.CloseTerminal?)
  {
    Session(s.isOpen && !o.CloseTerminal?, s.isMinimized, Answered(s.console, o))
  }

  /** The submit handler.  A blank line changes nothing; any other line is
      normalised, looked up and its outcome applied. */
  function Submitted(s: Session, now: string): (r: Session)
    ensures AllWhiteSpace(s.console.input) ==> r == s
    ensures !AllWhiteSpace(s.console.input) ==>
      r == Applied(s, Respond(Normalise(s.console.input), now))
  {
    BlankIffWhiteSpace(s.console.input);
    if Blank(s.console.input) then s
    else Applied(s, Respond(Normalise(s.console.input), now))
  }

  /** Two lines with the same outcome leave the same window and the same
      history, except for the echo of what was typed. */
  lemma SameOutcomeSameAnswer(s: Session, t: Session, o: Outcome)
    requires s.isOpen == t.isOpen && s.console.history == t.console.history
    ensures var a := Applied(s, o); var b := Applied(t, o);
      a.isOpen == b.isOpen && |a.console.history| == |b.console.history|
      && (forall i :: 0 <= i < |a.console.history| && i != |s.console.history| ==>
            a.console.history[i] == b.console.history[i])
  {
  }

  /** Padding and capitals change only the echoed line: the window, the
      answer and everything before it are the same as for the bare
      command. */
  lemma PaddingChangesOnlyTheEcho(s: Session, p: string, w: string, q: string, now: string)
    requires AllWhiteSpace(p) && AllWhiteSpace(q) && !AllWhiteSpace(w)
    ensures var a := Submitted(s.(console := s.console.(input := p + w + q)), now);
      var b := Submitted(s.(console := s.console.(input := w)), now);
      a.isOpen == b.isOpen && |a.console.history| == |b.console.history|
      && (forall i :: 0 <= i < |a.console.history| && i != |s.console.history| ==>
            a.console.history[i] == b.console.history[i])
  {
    var padded := p + w + q;
    PaddingAndCaseIgnored(p, w, q);
    assert !AllWhiteSpace(padded) by {
      var i :| 0 <= i < |w| && !IsWhiteSpace(w[i]);
      assert padded[|p| + i] == w[i];
    }
    var sa := s.(console := s.console.(input := padded));
    var sb := s.(console := s.console.(input := w));
    var o := Respond(Normalise(w), now);
    assert Submitted(sa, now) == Applied(sa, o);
    assert Submitted(sb, now) == Applied(sb, o);
    SameOutcomeSameAnswer(sa, sb, o);
  }

  /** What a key press does: Ctrl+Shift with the backquote key (by code, or
      by the characters ` and ~) toggles the window and un-minimises it;
      Escape closes it if it was open when the listener was installed. */
  function KeyPressed(s: Session, key: string, code: string, ctrl: bool, shift: bool): (r: Session)
    ensures r.console == s.console
    ensures key == "Escape" && s.isOpen ==> !r.isOpen
    ensures key == "Escape" && s.isOpen && !(ctrl && shift && (code == "Backquote" || key == "`" || key == "~")) ==>
      r == s.(isOpen := false)
    ensures key != "Escape" && ctrl && shift && (code == "Backquote" || key == "`" || key == "~") ==>
      r.isOpen == !s.isOpen && !r.isMinimized
    ensures !(ctrl && shift && (code == "Backquote" || key == "`" || key == "~")) && !(key == "Escape" && s.isOpen) ==>
      r == s
  {
    var shortcut := ctrl && shift && (code == "Backquote" || key == "`" || key == "~");
    var toggled := if shortcut then s.(isOpen := !s.isOpen, isMinimized := false) else s;
    if key == "Escape" && s.isOpen then toggled.(isOpen := false) else toggled
  }

  /** The shortcut pressed twice gives back the window it started with,
      un-minimised. */
  lemma ShortcutTwice(s: Session)
    ensures var once := KeyPressed(s, "`", "Backquote", true, true);
      KeyPressed(once, "`", "Backquote", true, true) == s.(isMinimized := false)
  {
  }

  // ---------------------------------------------------------------------
  // The component

  class Terminal {
    var isOpen: bool
    var isMinimized: bool
    var input: string
    var history: seq<string>

    function Snapshot(): Session
      reads this
    {
      Session(isOpen, isMinimized, Console(input, history))
    }

    constructor ()
      ensures Snapshot() == Closed
    {
      isOpen, isMinimized, input, history := false, false, "", [];
    }

    /** The input field's change handler. */
    method Type(text: string)
      modifies this
      ensures Snapshot() == old(Snapshot()).(console := Console(text, old(history)))
    {
      input := text;
    }

    /** The form's submit handler. */
    method Submit(now: string)
      modifies this
      ensures Snapshot() == Submitted(old(Snapshot()), now)
    {
      if Blank(input) {
        return;
      }
      var o := Respond(Normalise(input), now);
      Apply(o);
    }

    /** The state updates of one answered line. */
    method Apply(o: Outcome)
      modifies this
      ensures Snapshot() == Applied(old(Snapshot()), o)
    {
      match o {
        case Reply(text) =>
          history := history + [Echo(input), text];
          input := "";
        case ClearHistory =>
          history := [];
          input := "";
        case CloseTerminal =>
          isOpen := false;
      }
    }

    method KeyDown(key: string, code: string, ctrl: bool, shift: bool)
      modifies this
      ensures Snapshot() == KeyPressed(old(Snapshot()), key, code, ctrl, shift)
    {
      var wasOpen := isOpen;
      if ctrl && shift && (code == "Backquote" || key == "`" || key == "~") {
        isOpen := !isOpen;
        isMinimized := false;
      }
      if key == "Escape" && wasOpen {
        isOpen := false;
      }
    }

    /** The floating button: the same toggle as the shortcut. */
    method ClickButton()
      modifies this
      ensures Snapshot() == KeyPressed(old(Snapshot()), "`", "Backquote", true, true)
    {
      isOpen := !isOpen;
      isMinimized := false;
    }

    /** The red header button. */
    method ClickClose()
      modifies this
      ensures Snapshot() == old(Snapshot()).(isOpen := false)
    {
      isOpen := false;
    }

    /** The yellow header button. */
    method ClickMinimize()
      modifies this
      ensures Snapshot() == old(Snapshot()).(isMinimized := !old(isMinimized))
    {
      isMinimized := !isMinimized;
    }
  }
}
