/**
 * The interactive terminal's session: submitting a line (`executeCommand`)
 * and the key handler (Enter, history recall, Tab completion). `Submit` and
 * `Press` state what one event does to the whole session; the `Shell` class
 * performs the same updates field by field and is proved against them.
 */
module TerminalShell {
  import opened Wrappers
  import opened Strings
  import opened TerminalCommands

  /** One scrollback row: the trimmed line and what it rendered. */
  datatype Entry = Entry(command: string, output: Output)

  /** The keys the input line handles; every other key only edits the buffer. */
  datatype Key = Enter | ArrowUp | ArrowDown | Tab | OtherKey

  /** Everything the terminal keeps: the edit buffer, the scrollback, the
      submitted lines, the recall cursor (-1 for none), the lines reported
      to telemetry and the file actions fired. */
  datatype Session = Session(
    input: string,
    scrollback: seq<Entry>,
    cmdHistory: seq<string>,
    cursor: int,
    telemetry: seq<string>,
    launched: seq<FileAction>)

  /** The recall cursor is -1 or a position of the command history. */
  predicate CursorValid(s: Session) {
    -1 <= s.cursor < |s.cmdHistory|
  }

  const Fresh: Session := Session("", [], [], -1, [], [])

  /** The command token of a line: everything before its first space. */
  function CommandToken(line: string): string {
    Split(line, ' ')[0]
  }

  /** The arguments of a line: the pieces after each further space, empty
      pieces included. */
  function Arguments(line: string): seq<string> {
    Split(line, ' ')[1..]
  }

  /** `clear` or `cls`, in any letter case. */
  predicate IsClear(line: string) {
    Lower(CommandToken(line)) == "clear" || Lower(CommandToken(line)) == "cls"
  }

  function NotFound(command: string): string {
    "Command not found: " + command + ". Type 'help' for available commands."
  }

  /** What a trimmed line renders, and the effect of its handler. */
  function Respond(line: string): Response {
    RespondTo(CommandToken(line), Arguments(line))
  }

  /** The registry entry for the lower-cased command token runs on the
      arguments; an unknown token gets the not-found message. */
  function RespondTo(command: string, args: seq<string>): Response {
    match Lookup(Lower(command))
    case Some(c) => Run(c, args)
    case None =>
      if command != "" then Response(Text(NotFound(command)), NoEffect)
      else Response(Text(""), NoEffect)
  }

  /** `executeCommand(cmd)`: a blank line does nothing; any other line is
      reported to telemetry, its handler runs, and unless it is `clear` or
      `cls` one scrollback row and one history line are appended and the
      cursor is reset. */
  function Submit(s: Session, cmd: string): (r: Session)
    ensures Trim(cmd) == "" ==> r == s
    ensures Trim(cmd) != "" ==> r.telemetry == s.telemetry + [Trim(cmd)]
    ensures r.cmdHistory == s.cmdHistory || r.cmdHistory == s.cmdHistory + [Trim(cmd)]
    ensures r.input == s.input
    ensures CursorValid(s) ==> CursorValid(r)
  {
    var line := Trim(cmd);
    if line == "" then s
    else
      var r := Respond(line);
      var ran := Perform(s.(telemetry := s.telemetry + [line]), r.effect);
      if IsClear(line) then ran else Record(ran, line, r.output)
  }

  /** What a handler's effect does to the session. */
  function Perform(s: Session, e: Effect): Session {
    match e
    case Fire(a) => s.(launched := s.launched + [a])
    case ClearScrollback => s.(scrollback := [])
    case NoEffect => s
  }

  /** One scrollback row and one history line for `line`; recall restarts. */
  function Record(s: Session, line: string, out: Output): Session {
    s.(scrollback := s.scrollback + [Entry(line, out)],
       cmdHistory := s.cmdHistory + [line],
       cursor := -1)
  }

  function Max(a: int, b: int): int {
    if a < b then b else a
  }

  /** Enter: submit the buffer, then empty it. */
  function EnterLine(s: Session): Session {
    Submit(s, s.input).(input := "")
  }

  /** ArrowUp: recall the newest line first, then older ones, stopping at
      the oldest. */
  function RecallUp(s: Session): Session
    requires CursorValid(s)
  {
    if |s.cmdHistory| > 0 then
      var i := if s.cursor == -1 then |s.cmdHistory| - 1 else Max(0, s.cursor - 1);
      s.(cursor := i, input := s.cmdHistory[i])
    else s
  }

  /** ArrowDown: recall the next newer line; past the newest, leave recall
      with an empty buffer. */
  function RecallDown(s: Session): Session
    requires CursorValid(s)
  {
    if s.cursor != -1 then
      var i := s.cursor + 1;
      if i >= |s.cmdHistory| then s.(cursor := -1, input := "")
      else s.(cursor := i, input := s.cmdHistory[i])
    else s
  }

  /** Tab: complete the buffer to the only command key it starts. */
  function TabComplete(s: Session): Session {
    s.(input := Complete(s.input))
  }

  /** `handleKeyDown` */
  function Press(s: Session, key: Key): (r: Session)
    requires CursorValid(s)
    ensures CursorValid(r)
    ensures key == OtherKey ==> r == s
    ensures key == Enter ==> r.input == ""
    ensures key != Enter ==>
      && r.cmdHistory == s.cmdHistory && r.scrollback == s.scrollback
      && r.telemetry == s.telemetry && r.launched == s.launched
  {
    match key
    case Enter => EnterLine(s)
    case ArrowUp => RecallUp(s)
    case ArrowDown => RecallDown(s)
    case Tab => TabComplete(s)
    case OtherKey => s
  }

  // ---------------------------------------------------------------------
  // Properties of submission
  // ---------------------------------------------------------------------

  /** A whitespace-only line changes nothing at all: no scrollback row, no
      history line, no telemetry report. */
  lemma BlankIgnored(s: Session, cmd: string)
    requires forall i :: 0 <= i < |cmd| ==> IsWhitespace(cmd[i])
    ensures Submit(s, cmd) == s
  {
    TrimEmptyIff(cmd);
  }

  /** Enter on a whitespace-only buffer only clears the buffer. */
  lemma BlankEnter(s: Session)
    requires CursorValid(s)
    requires forall i :: 0 <= i < |s.input| ==> IsWhitespace(s.input[i])
    ensures EnterLine(s) == s.(input := "")
  {
    BlankIgnored(s, s.input);
  }

  /** The handler's clearing effect happens exactly for `clear`/`cls`. */
  lemma ClearEffectIff(line: string)
    ensures Respond(line).effect.ClearScrollback? <==> IsClear(line)
  {
    ClearsByName(Lower(CommandToken(line)), Arguments(line));
  }

  /** A non-blank line other than `clear`/`cls` is reported once and adds
      exactly one scrollback row and one history line, and resets the
      cursor. */
  lemma SubmitRecords(s: Session, cmd: string)
    requires Trim(cmd) != "" && !IsClear(Trim(cmd))
    ensures var line := Trim(cmd); var t := Submit(s, cmd);
      && t.telemetry == s.telemetry + [line]
      && t.scrollback == s.scrollback + [Entry(line, Respond(line).output)]
      && t.cmdHistory == s.cmdHistory + [line]
      && t.cursor == -1
      && t.input == s.input
  {
    ClearEffectIff(Trim(cmd));
  }

  /** `clear`/`cls` in any letter case empties the scrollback and is still
      reported, but leaves the history, the cursor and the buffer alone. */
  lemma SubmitClears(s: Session, cmd: string)
    requires Trim(cmd) != "" && IsClear(Trim(cmd))
    ensures var t := Submit(s, cmd);
      && t.telemetry == s.telemetry + [Trim(cmd)]
      && t.scrollback == []
      && t.cmdHistory == s.cmdHistory
      && t.cursor == s.cursor
      && t.input == s.input
      && t.launched == s.launched
  {
    ClearEffectIff(Trim(cmd));
  }

  /** A non-blank line starts with a non-space, so its command token is
      never empty. */
  lemma TokenNonEmpty(cmd: string)
    requires Trim(cmd) != ""
    ensures CommandToken(Trim(cmd)) != ""
  {
    TrimEnds(cmd);
    FirstPieceEmpty(Trim(cmd), ' ');
  }

  /** An unknown command renders the not-found message naming the token as
      typed. */
  lemma UnknownCommand(s: Session, cmd: string)
    requires Trim(cmd) != ""
    requires Lookup(Lower(CommandToken(Trim(cmd)))).None?
    ensures Submit(s, cmd).scrollback
      == s.scrollback + [Entry(Trim(cmd), Text(NotFound(CommandToken(Trim(cmd)))))]
  {
    TokenNonEmpty(cmd);
    var name := Lower(CommandToken(Trim(cmd)));
    LookupExact(name, Clear);
    LookupExact(name, Cls);
  }

  /** Submission keeps the cursor valid. */
  lemma SubmitKeepsCursor(s: Session, cmd: string)
    requires CursorValid(s)
    ensures CursorValid(Submit(s, cmd))
  {
  }

  /** Every key keeps the cursor valid. */
  lemma PressKeepsCursor(s: Session, key: Key)
    requires CursorValid(s)
    ensures CursorValid(Press(s, key))
  {
    match key
    case Enter => SubmitKeepsCursor(s, s.input);
    case ArrowUp => UpKeepsCursor(s);
    case ArrowDown => DownKeepsCursor(s);
    case Tab =>
    case OtherKey =>
  }

  lemma UpKeepsCursor(s: Session)
    requires CursorValid(s)
    ensures CursorValid(RecallUp(s))
  {
  }

  lemma DownKeepsCursor(s: Session)
    requires CursorValid(s)
    ensures CursorValid(RecallDown(s))
  {
  }

  /** A line made of space-free words joined by single spaces has the first
      word as its command token and the rest as its arguments. */
  lemma Tokens(line: string, words: seq<string>)
    requires |words| >= 1 && forall k :: 0 <= k < |words| ==> ' ' !in words[k]
    requires Join(words, ' ') == line
    ensures CommandToken(line) == words[0] && Arguments(line) == words[1..]
  {
    SplitJoin(words, ' ');
  }

  /** A line whose command token is a registry key runs that command. */
  lemma Dispatches(line: string, c: Command)
    requires Lower(CommandToken(line)) == Name(c)
    ensures Respond(line) == Run(c, Arguments(line))
  {
    LookupExact(Name(c), c);
  }

  /** `ls unreleased_projects`, whatever follows, lists that directory's two
      files in order. */
  lemma ListUnreleased(line: string)
    requires Lower(CommandToken(line)) == "ls" && FirstArg(Arguments(line)) == "unreleased_projects"
    ensures Respond(line).output
      == Listing([("alone_at_the_fast_food.game", false), ("README.md", false)])
  {
    Dispatches(line, Ls);
    ListsUnreleased(Arguments(line));
  }

  /** `cat about_me.txt`, in any letter case, renders the biography. */
  lemma CatBiography(line: string)
    requires Lower(CommandToken(line)) == "cat" && FirstArg(Arguments(line)) == "about_me.txt"
    ensures Respond(line) == Response(Preformatted(AboutMeDoc), NoEffect)
  {
    Dispatches(line, Cat);
    ShowsBiography(Arguments(line));
  }

  /** Lookup is at the root only: no root name holds a slash, so `cat` of a
      path into a directory finds no file. */
  lemma CatNestedPath(line: string)
    requires Lower(CommandToken(line)) == "cat" && '/' in FirstArg(Arguments(line))
    ensures Respond(line) == Response(Text("cat: " + FirstArg(Arguments(line)) + ": No such file"), NoEffect)
  {
    Dispatches(line, Cat);
    NoNestedLookup(FirstArg(Arguments(line)));
  }

  /** A name holding a slash is not at the root. */
  lemma NoNestedLookup(path: string)
    requires '/' in path
    ensures Find(Root, path).None?
  {
    RootNamesFlat();
  }

  /** No name at the root holds a slash. */
  lemma RootNamesFlat()
    ensures forall k :: 0 <= k < |Root| ==> '/' !in Root[k].0
  {
    forall k | 0 <= k < |Root| ensures '/' !in Root[k].0 {
      assert k in {0, 1, 2, 3, 4, 5, 6};
    }
  }

  /** `cat resume.pdf`, in any letter case, shows the notice as plain text and opens the resume. */
  lemma CatResume(line: string)
    requires Lower(CommandToken(line)) == "cat" && FirstArg(Arguments(line)) == "resume.pdf"
    ensures Respond(line) == Response(Contents(ResumeDoc), Fire(OpenInNewTab(ResumeUrl)))
  {
    Dispatches(line, Cat);
    OpensResume(Arguments(line));
  }

  /** `cd` accepts exactly the names `ls` lists as directories. */
  lemma CdAgreesWithLs(dir: string, rest: seq<string>)
    requires dir != ""
    ensures ChangeDir([dir] + rest) == Text(ChangedTo(dir)) <==> List([dir] + rest).Listing?
  {
  }

  // ---------------------------------------------------------------------
  // Properties of recall
  // ---------------------------------------------------------------------

  /** ArrowUp walks back through the history and clamps at the oldest line;
      ArrowDown walks forward and past the newest line empties the buffer. */
  lemma RecallWalk(s: Session, a: string, b: string, c: string)
    requires s.cmdHistory == [a, b, c] && s.cursor == -1
    ensures var s1 := RecallUp(s); var s2 := RecallUp(s1);
      var s3 := RecallUp(s2); var s4 := RecallUp(s3);
      var s5 := RecallDown(s4);
      && s1.input == c && s2.input == b && s3.input == a
      && s4.input == a && s4.cursor == 0
      && s5.input == b && s5.cursor == 1
      && RecallDown(RecallDown(s5)).cursor == -1
      && RecallDown(RecallDown(s5)).input == ""
  {
  }

  /** For any non-empty history: the first ArrowUp recalls the newest
      line, ArrowUp at the oldest line stays there, and ArrowDown from the
      newest line leaves recall with an empty buffer. */
  lemma RecallEnds(s: Session)
    requires CursorValid(s) && |s.cmdHistory| > 0
    ensures s.cursor == -1 ==>
      && RecallUp(s).cursor == |s.cmdHistory| - 1
      && RecallUp(s).input == s.cmdHistory[|s.cmdHistory| - 1]
    ensures s.cursor == 0 ==> RecallUp(s).cursor == 0 && RecallUp(s).input == s.cmdHistory[0]
    ensures s.cursor == |s.cmdHistory| - 1 ==> RecallDown(s).cursor == -1 && RecallDown(s).input == ""
    ensures 0 < s.cursor ==> RecallUp(s).cursor == s.cursor - 1
    ensures 0 <= s.cursor < |s.cmdHistory| - 1 ==>
      RecallDown(s).cursor == s.cursor + 1 && RecallDown(s).input == s.cmdHistory[s.cursor + 1]
  {
  }

  /** ArrowDown with no line recalled changes nothing. */
  lemma DownWithoutRecall(s: Session)
    requires CursorValid(s) && s.cursor == -1
    ensures RecallDown(s) == s
  {
  }

  /** Recall never edits the history or the scrollback. */
  lemma RecallKeepsHistory(s: Session)
    requires CursorValid(s)
    ensures RecallUp(s).cmdHistory == s.cmdHistory && RecallUp(s).scrollback == s.scrollback
    ensures RecallDown(s).cmdHistory == s.cmdHistory && RecallDown(s).scrollback == s.scrollback
  {
  }

  // ---------------------------------------------------------------------
  // The component
  // ---------------------------------------------------------------------

  class Shell {
    var input: string
    var scrollback: seq<Entry>
    var cmdHistory: seq<string>
    var cursor: int
    var telemetry: seq<string>
    var launched: seq<FileAction>

    function State(): Session
      reads this
    {
      Session(input, scrollback, cmdHistory, cursor, telemetry, launched)
    }

    ghost predicate Valid()
      reads this
    {
      CursorValid(State())
    }

    constructor ()
      ensures Valid() && State() == Fresh
    {
      input, scrollback, cmdHistory, cursor, telemetry, launched := "", [], [], -1, [], [];
    }

    /** The input's `onChange`: the buffer takes the typed text. */
    method Edit(text: string)
      requires Valid()
      modifies this
      ensures Valid() && State() == old(State()).(input := text)
    {
      input := text;
    }

    /** `executeCommand(cmd)` */
    method Execute(cmd: string)
      requires Valid()
      modifies this
      ensures Valid() && State() == Submit(old(State()), cmd)
    {
      var trimmed := Trim(cmd);
      if trimmed == "" {
        return;
      }
      var tokens := Split(trimmed, ' ');
      var command, args := tokens[0], tokens[1..];
      telemetry := telemetry + [trimmed];
      var response := Dispatch(command, args);
      if Lower(command) == "clear" || Lower(command) == "cls" {
        return;
      }
      Append(trimmed, response.output);
    }

    /** Looks the command up and runs its handler, side effect included. */
    method Dispatch(command: string, args: seq<string>) returns (r: Response)
      requires Valid()
      modifies this
      ensures Valid() && r == RespondTo(command, args) && State() == Perform(old(State()), r.effect)
    {
      var commandFn := Lookup(Lower(command));
      if commandFn.Some? {
        r := Run(commandFn.value, args);
        Apply(r.effect);
      } else if command != "" {
        r := Response(Text(NotFound(command)), NoEffect);
      } else {
        r := Response(Text(""), NoEffect);
      }
    }

    /** Appends the scrollback row and the history line; recall restarts. */
    method Append(line: string, output: Output)
      modifies this
      ensures Valid() && State() == Record(old(State()), line, output)
    {
      scrollback := scrollback + [Entry(line, output)];
      cmdHistory := cmdHistory + [line];
      cursor := -1;
    }

    /** A handler's side effect: opening a URL, or `setHistory([])`. */
    method Apply(e: Effect)
      modifies this
      ensures State() == Perform(old(State()), e)
    {
      match e {
        case Fire(a) => launched := launched + [a];
        case ClearScrollback => scrollback := [];
        case NoEffect =>
      }
    }

    /** `handleKeyDown(e)` */
    method KeyDown(key: Key)
      requires Valid()
      modifies this
      ensures Valid() && State() == Press(old(State()), key)
    {
      match key {
        case Enter => SubmitInput();
        case ArrowUp => HistoryUp();
        case ArrowDown => HistoryDown();
        case Tab => CompleteInput();
        case OtherKey =>
      }
    }

    method SubmitInput()
      requires Valid()
      modifies this
      ensures Valid() && State() == EnterLine(old(State()))
    {
      Execute(input);
      input := "";
    }

    method HistoryUp()
      requires Valid()
      modifies this
      ensures Valid() && State() == RecallUp(old(State()))
    {
      if |cmdHistory| > 0 {
        var newIndex := if cursor == -1 then |cmdHistory| - 1 else Max(0, cursor - 1);
        cursor := newIndex;
        input := cmdHistory[newIndex];
      }
    }

    method HistoryDown()
      requires Valid()
      modifies this
      ensures Valid() && State() == RecallDown(old(State()))
    {
      if cursor != -1 {
        var newIndex := cursor + 1;
        if newIndex >= |cmdHistory| {
          cursor := -1;
          input := "";
        } else {
          cursor := newIndex;
          input := cmdHistory[newIndex];
        }
      }
    }

    method CompleteInput()
      requires Valid()
      modifies this
      ensures Valid() && State() == TabComplete(old(State()))
    {
      input := Complete(input);
    }
  }
}
