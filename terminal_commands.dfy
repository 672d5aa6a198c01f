/**
 * The command layer of the interactive terminal: the fixed virtual
 * filesystem, the fixed command registry, and each command's handler as a
 * pure function of its argument list.
 */
module TerminalCommands {
  import opened Wrappers
  import opened Strings

  /** The side effect a file can carry: `resume.pdf` opens a URL in a new tab. */
  datatype FileAction = OpenInNewTab(url: string)

  /** A filesystem entry. A file names its document (`Content` gives the
      text); a directory holds its children as an ordered table. */
  datatype Node =
    | File(doc: Doc, action: Option<FileAction>)
    | Directory(contents: seq<(string, Node)>)

  /** An ordered name-to-node table, in the insertion order of the object
      literal it models. */
  type Table = seq<(string, Node)>

  /** Fixed rich markup a handler renders. */
  datatype Page = HelpPage | SkillsPage | SocialPage | EasterEggPage

  /** What a handler returns for the scrollback. */
  datatype Output =
    | Text(text: string)                     // a plain string
    | Contents(doc: Doc)                     // a file's text as a plain string
    | Preformatted(doc: Doc)                 // a file's text inside a <pre> block
    | Listing(entries: seq<(string, bool)>)  // ls: each entry's name and whether it is a directory
    | Rich(page: Page)                       // fixed markup

  /** A side effect a handler performs while it runs. */
  datatype Effect = NoEffect | Fire(action: FileAction) | ClearScrollback

  datatype Response = Response(output: Output, effect: Effect)

  // ---------------------------------------------------------------------
  // The filesystem
  // ---------------------------------------------------------------------

  const ResumeUrl: string := "/Augusto Polonio - Resume.pdf"

  const AboutMe: string :=
    "Name: Augusto Polonio\nRole: Game Developer & Software Engineer\nLocation: Remote\n\n"
    + "I'm a Senior Software Developer transitioning into Game Development,\n"
    + "combining 10+ years of web/mobile experience with a passion for\n"
    + "creating interactive experiences.\n\n"
    + "Skills:\n- Game Development: Unity, Godot, C#\n"
    + "- Web/Mobile: JavaScript, TypeScript, React, Node.js, .NET\n"
    + "- Focus: Performance optimization, system design, gameplay mechanics"

  const ExperienceText: string :=
    "PROFESSIONAL EXPERIENCE\n\nSoftware Development: 10+ years\n"
    + "- JavaScript, TypeScript, Node.js, React\n- .NET, C#\n- Mobile development\n"
    + "- Web applications\n- Performance optimization\n\n"
    + "Game Development: 9+ years (hobby \U{2192} career transition)\n"
    + "- Unity, Godot\n- Mobile games\n- 2D/3D gameplay mechanics\n"
    + "- Published titles on Google Play and itch.io\n\n"
    + "Notable: Master Cat Games indie studio founder"

  const ContactText: string :=
    "CONTACT INFORMATION\n\n"
    + "LinkedIn: https://www.linkedin.com/in/augustopolonio/\n"
    + "Twitter/X: https://x.com/augustopolonio\n"
    + "Instagram: https://www.instagram.com/gutopolonio\n"
    + "YouTube: https://www.youtube.com/@gutopolonio\n"
    + "Linktree: https://linktree.com/augustopolonio\n\n"
    + "Email: Check LinkedIn for contact details\n"
    + "Portfolio: You're here! \U{1F3AE}\n\n"
    + "Feel free to reach out for collaborations or opportunities!"

  const SkillsJson: string :=
    "{\n  \"gameEngines\": [\"Unity\", \"Godot\"],\n"
    + "  \"languages\": [\"C#\", \"JavaScript\", \"TypeScript\", \"GDScript\"],\n"
    + "  \"webTech\": [\"React\", \"Node.js\", \"Next.js\", \".NET\"],\n"
    + "  \"mobile\": [\"Android\", \"iOS\", \"React Native\"],\n"
    + "  \"tools\": [\"Git\", \"VS Code\", \"Visual Studio\"],\n"
    + "  \"focus\": [\"Game Design\", \"Performance\", \"System Architecture\"]\n}"

  const ResumeNotice: string := "Opening resume... Redirecting to PDF file."

  /** The documents stored in the filesystem's files. */
  datatype Doc =
    | AboutMeDoc | ExperienceDoc | ContactDoc | ResumeDoc | SkillsDoc
    | OliverDoc | TinturariaDoc | FlappyDoc | StackBlocksDoc | RunningFoodDoc | ProjectsReadme
    | AloneDoc | UnreleasedReadme

  /** The text of each document. */
  function Content(d: Doc): string {
    match d
    case AboutMeDoc => AboutMe
    case ExperienceDoc => ExperienceText
    case ContactDoc => ContactText
    case ResumeDoc => ResumeNotice
    case SkillsDoc => SkillsJson
    case OliverDoc => "A platform game based on crates with different mechanics.\nEngine: Unity\nStatus: Released\nLink: https://mastercatgames.itch.io/oliver-the-octopus"
    case TinturariaDoc => "A color matching puzzle game about delivering colored boxes.\nEngine: Unity\nStatus: Released on Google Play\nLink: https://play.google.com/store/apps/details?id=com.mastercat.tinturaria"
    case FlappyDoc => "Classic Flappy Bird style game featuring a black cat.\nEngine: Unity\nStatus: Released on Google Play"
    case StackBlocksDoc => "A puzzle stacking game with addictive gameplay.\nEngine: Unity\nStatus: Released on itch.io"
    case RunningFoodDoc => "An endless runner where Lucy fights the Blubbers organization.\nEngine: Unity\nStatus: Released on Google Play"
    case ProjectsReadme => "Visit https://mastercatgames.vercel.app/ for more projects!"
    case AloneDoc => "A horror survival game set in an abandoned fast food restaurant.\nEngine: Godot\nStatus: In Development\nFeatures: Dark atmosphere, puzzles, survival mechanics"
    case UnreleasedReadme => "These are my current projects in development. Stay tuned!"
  }

  const Projects: Table := [
    ("oliver_the_octopus.game", File(OliverDoc, None)),
    ("tinturaria.game", File(TinturariaDoc, None)),
    ("flappy_black_cat.game", File(FlappyDoc, None)),
    ("crazy_stack_blocks.game", File(StackBlocksDoc, None)),
    ("running_food.game", File(RunningFoodDoc, None)),
    ("README.md", File(ProjectsReadme, None))
  ]

  const Unreleased: Table := [
    ("alone_at_the_fast_food.game", File(AloneDoc, None)),
    ("README.md", File(UnreleasedReadme, None))
  ]

  /** The root table: seven entries, two of them directories. */
  const Root: Table := [
    ("about_me.txt", File(AboutMeDoc, None)),
    ("projects", Directory(Projects)),
    ("unreleased_projects", Directory(Unreleased)),
    ("experience.txt", File(ExperienceDoc, None)),
    ("contact.txt", File(ContactDoc, None)),
    ("resume.pdf", File(ResumeDoc, Some(OpenInNewTab(ResumeUrl)))),
    ("skills.json", File(SkillsDoc, None))
  ]

  /** Property lookup `table[name]` on a plain object without inherited
      keys: the node stored under `name`, if any. */
  function Find(t: Table, name: string): (r: Option<Node>)
    ensures r.None? <==> forall k :: 0 <= k < |t| ==> t[k].0 != name
    ensures r.Some? ==> exists k :: 0 <= k < |t| && t[k] == (name, r.value)
  {
    if |t| == 0 then None
    else if t[0].0 == name then Some(t[0].1)
    else Find(t[1..], name)
  }

  /** No name occurs twice in a table. */
  predicate DistinctKeys(t: Table) {
    forall i, j :: 0 <= i < j < |t| ==> t[i].0 != t[j].0
  }

  /** In a table without repeated names, lookup returns the node stored at
      the name's unique position. */
  lemma {:induction false} FindAt(t: Table, k: nat)
    requires DistinctKeys(t) && k < |t|
    ensures Find(t, t[k].0) == Some(t[k].1)
  {
    if k > 0 {
      assert DistinctKeys(t[1..]) by {
        forall i, j | 0 <= i < j < |t[1..]| ensures t[1..][i].0 != t[1..][j].0 {
          assert t[1..][i] == t[i + 1] && t[1..][j] == t[j + 1];
        }
      }
      assert t[0].0 != t[k].0;
      FindAt(t[1..], k - 1);
      assert t[1..][k - 1] == t[k];
    }
  }

  lemma RootKeysDistinct()
    ensures DistinctKeys(Root)
  {
  }

  /** The directory a name denotes at the root, if it denotes one. */
  predicate IsRootDirectory(name: string) {
    Find(Root, name).Some? && Find(Root, name).value.Directory?
  }

  /** The root's directories are exactly `projects` and `unreleased_projects`. */
  lemma RootDirectories(name: string)
    ensures IsRootDirectory(name) <==> name == "projects" || name == "unreleased_projects"
  {
    FindAt(Root, 1);
    FindAt(Root, 2);
    if IsRootDirectory(name) {
      var k :| 0 <= k < |Root| && Root[k] == (name, Find(Root, name).value);
      assert k == 1 || k == 2;
    }
  }

  /** The rows `ls` renders for a table: every key, in table order, with the
      directory flag of the node stored under it. */
  function Entries(t: Table): (r: seq<(string, bool)>)
    ensures |r| == |t|
    ensures forall k :: 0 <= k < |t| ==> r[k].0 == t[k].0 && (r[k].1 <==> t[k].1.Directory?)
  {
    if |t| == 0 then [] else [(t[0].0, t[0].1.Directory?)] + Entries(t[1..])
  }

  // ---------------------------------------------------------------------
  // The handlers
  // ---------------------------------------------------------------------

  /** `args[0] || ''`: a missing first argument reads as the empty string. */
  function FirstArg(args: seq<string>): string {
    if |args| == 0 then "" else args[0]
  }

  /** `ls [path]`: an empty or missing first argument lists the root; a name
      of a root-level directory lists that directory; anything else is an
      error naming the argument. */
  function List(args: seq<string>): (r: Output)
    ensures FirstArg(args) == "" ==> r == Listing(Entries(Root))
    ensures FirstArg(args) != "" && IsRootDirectory(FirstArg(args))
      ==> r == Listing(Entries(Find(Root, FirstArg(args)).value.contents))
    ensures FirstArg(args) != "" && !IsRootDirectory(FirstArg(args))
      ==> r == Text("ls: cannot access '" + FirstArg(args) + "': No such directory")
  {
    var path := FirstArg(args);
    if path == "" then Listing(Entries(Root))
    else match Find(Root, path)
      case Some(Directory(contents)) => Listing(Entries(contents))
      case _ => Text("ls: cannot access '" + path + "': No such directory")
  }

  /** `cat <file>`: looks the first argument up at the root only. */
  function CatFile(args: seq<string>): (r: Response)
    ensures |args| == 0 ==> r == Response(Text("cat: missing file operand\nTry 'help' for more information."), NoEffect)
    ensures |args| > 0 && Find(Root, args[0]).None? ==> r == Response(Text("cat: " + args[0] + ": No such file"), NoEffect)
    ensures |args| > 0 && IsRootDirectory(args[0]) ==> r == Response(Text("cat: " + args[0] + ": Is a directory"), NoEffect)
    ensures r.effect.Fire? ==>
      && r.output.Contents? && |args| > 0
      && Find(Root, args[0]) == Some(File(r.output.doc, Some(r.effect.action)))
    ensures r.output.Preformatted? ==>
      && |args| > 0 && Find(Root, args[0]) == Some(File(r.output.doc, None))
    ensures |args| > 0 && Find(Root, args[0]).Some? && Find(Root, args[0]).value.File? ==>
      var f := Find(Root, args[0]).value;
      r == if f.action.Some? then Response(Contents(f.doc), Fire(f.action.value)) else Response(Preformatted(f.doc), NoEffect)
    ensures !r.effect.ClearScrollback?
  {
    if |args| == 0 then Response(Text("cat: missing file operand\nTry 'help' for more information."), NoEffect)
    else
      var fileName := args[0];
      match Find(Root, fileName)
      case None => Response(Text("cat: " + fileName + ": No such file"), NoEffect)
      case Some(Directory(_)) => Response(Text("cat: " + fileName + ": Is a directory"), NoEffect)
      case Some(File(doc, action)) =>
        if action.Some? then Response(Contents(doc), Fire(action.value))
        else Response(Preformatted(doc), NoEffect)
  }

  /** `cd <dir>`: acknowledges a root-level directory without changing any
      state; `ls` and `cat` keep resolving from the root. */
  function ChangeDir(args: seq<string>): (r: Output)
    ensures |args| == 0 ==> r == Text("cd: missing directory operand")
    ensures |args| > 0 && !IsRootDirectory(args[0]) ==> r == Text("cd: " + args[0] + ": No such directory")
    ensures |args| > 0 && IsRootDirectory(args[0]) ==> r == Text(ChangedTo(args[0]))
  {
    if |args| == 0 then Text("cd: missing directory operand")
    else
      var dir := args[0];
      if IsRootDirectory(dir) then Text(ChangedTo(dir))
      else Text("cd: " + dir + ": No such directory")
  }

  function ChangedTo(dir: string): string {
    "Changed directory to " + dir + ". (Note: This is a simplified terminal - use 'ls " + dir + "' to see contents)"
  }

  const SandwichPhrase: string := "make-me-a-sandwich"

  /** `sudo ...`: one recognised phrase, a generic reply otherwise. */
  function SudoReply(args: seq<string>): (r: Output)
    ensures r == Text(Sandwich) <==> Join(args, ' ') == SandwichPhrase
    ensures Join(args, ' ') != SandwichPhrase ==> r == Text(NiceTry)
  {
    if Join(args, ' ') == SandwichPhrase then Text(Sandwich) else Text(NiceTry)
  }

  const Sandwich: string := "\U{1F96A} Okay, here's your sandwich! (You must be hungry from all that coding)"
  const NiceTry: string := "Nice try! But you don't need sudo here. \U{1F609}"
  const WorkingDirectory: string := "/home/augustopolonio"
  const WhoamiText: string :=
    "augustopolonio\n\n\U{1F3AE} Game Developer | \U{1F4BB} Software Engineer\n\n"
    + "\"Turning code into experiences, one line at a time.\"\n\n"
    + "Type 'cat about_me.txt' to learn more!"

  /** Lookup at the root finds each entry under its own name. */
  lemma RootEntry(k: nat)
    requires k < |Root|
    ensures Find(Root, Root[k].0) == Some(Root[k].1)
  {
    RootKeysDistinct();
    FindAt(Root, k);
  }

  lemma ListsUnreleased(args: seq<string>)
    requires FirstArg(args) == "unreleased_projects"
    ensures List(args) == Listing([("alone_at_the_fast_food.game", false), ("README.md", false)])
  {
    RootEntry(2);
  }

  lemma ShowsBiography(args: seq<string>)
    requires FirstArg(args) == "about_me.txt"
    ensures CatFile(args) == Response(Preformatted(AboutMeDoc), NoEffect)
  {
    RootEntry(0);
  }

  lemma OpensResume(args: seq<string>)
    requires FirstArg(args) == "resume.pdf"
    ensures CatFile(args) == Response(Contents(ResumeDoc), Fire(OpenInNewTab(ResumeUrl)))
  {
    RootEntry(5);
  }

  // ---------------------------------------------------------------------
  // The registry
  // ---------------------------------------------------------------------

  datatype Command = Help | Ls | Cat | Pwd | Whoami | Skills | Social | Clear | Cls | EasterEgg | Sudo | Cd

  /** The registry key of each command. */
  function Name(c: Command): string {
    match c
    case Help => "help"
    case Ls => "ls"
    case Cat => "cat"
    case Pwd => "pwd"
    case Whoami => "whoami"
    case Skills => "skills"
    case Social => "social"
    case Clear => "clear"
    case Cls => "cls"
    case EasterEgg => "easter-egg"
    case Sudo => "sudo"
    case Cd => "cd"
  }

  /** The registry's keys in insertion order (`Object.keys(commands)`). */
  const Registry: seq<Command> := [Help, Ls, Cat, Pwd, Whoami, Skills, Social, Clear, Cls, EasterEgg, Sudo, Cd]

  /** Runs a command's handler. Only `cat` can fire an action, and only
      `clear` and `cls` empty the scrollback. */
  function Run(c: Command, args: seq<string>): (r: Response)
    ensures r.effect.Fire? ==> c == Cat
    ensures r.effect.ClearScrollback? <==> c == Clear || c == Cls
  {
    match c
    case Help => Response(Rich(HelpPage), NoEffect)
    case Ls => Response(List(args), NoEffect)
    case Cat => CatFile(args)
    case Pwd => Response(Text(WorkingDirectory), NoEffect)
    case Whoami => Response(Text(WhoamiText), NoEffect)
    case Skills => Response(Rich(SkillsPage), NoEffect)
    case Social => Response(Rich(SocialPage), NoEffect)
    case Clear => Response(Text(""), ClearScrollback)
    case Cls => Response(Text(""), ClearScrollback)
    case EasterEgg => Response(Rich(EasterEggPage), NoEffect)
    case Sudo => Response(SudoReply(args), NoEffect)
    case Cd => Response(ChangeDir(args), NoEffect)
  }

  /** Every handler except `ls`, `cat`, `sudo` and `cd` ignores its
      arguments: `help`, `pwd`, `whoami`, `skills`, `social`, `clear`,
      `cls` and `easter-egg` answer the same fixed output to any line. */
  lemma ArgumentsIgnored(c: Command, args: seq<string>)
    requires c != Ls && c != Cat && c != Sudo && c != Cd
    ensures Run(c, args) == Run(c, [])
    ensures c == Pwd ==> Run(c, args).output == Text(WorkingDirectory)
    ensures c == Whoami ==> Run(c, args).output == Text(WhoamiText)
  {
  }

  /** First command of `cs` whose key is `name`. */
  function LookupIn(cs: seq<Command>, name: string): (r: Option<Command>)
    ensures r.Some? ==> r.value in cs && Name(r.value) == name
    ensures r.None? <==> forall c :: c in cs ==> Name(c) != name
  {
    if |cs| == 0 then None
    else if Name(cs[0]) == name then Some(cs[0])
    else LookupIn(cs[1..], name)
  }

  /** `commands[name]` */
  function Lookup(name: string): Option<Command> {
    LookupIn(Registry, name)
  }

  lemma NameInjective(a: Command, b: Command)
    ensures Name(a) == Name(b) ==> a == b
  {
  }

  /** Lookup finds a command exactly by its own key: no other spelling and
      no other command. */
  lemma LookupExact(name: string, c: Command)
    ensures Lookup(name) == Some(c) <==> Name(c) == name
  {
    assert c in Registry by { match c case _ => }
    if Name(c) == name {
      NameInjective(c, Lookup(name).value);
    }
  }

  /** Only `clear` and `cls` empty the scrollback, and they always do. */
  lemma ClearsExactly(c: Command, args: seq<string>)
    ensures Run(c, args).effect.ClearScrollback? <==> c == Clear || c == Cls
  {
  }

  /** A looked-up command clears the scrollback exactly when the key is
      `clear` or `cls`. */
  lemma ClearsByName(name: string, args: seq<string>)
    ensures (Lookup(name).Some? && Run(Lookup(name).value, args).effect.ClearScrollback?)
      <==> name == "clear" || name == "cls"
  {
    LookupExact(name, Clear);
    LookupExact(name, Cls);
    if Lookup(name).Some? {
      ClearsExactly(Lookup(name).value, args);
    }
  }

  /** The only action a handler can fire is the resume's, and only from
      `cat resume.pdf`. */
  lemma FiresOnlyResume(c: Command, args: seq<string>)
    ensures Run(c, args).effect.Fire? <==> c == Cat && |args| > 0 && args[0] == "resume.pdf"
    ensures Run(c, args).effect.Fire? ==> Run(c, args).effect.action == OpenInNewTab(ResumeUrl)
  {
    FindAt(Root, 5);
    if c == Cat && |args| > 0 && Run(c, args).effect.Fire? {
      var k :| 0 <= k < |Root| && Root[k] == (args[0], Find(Root, args[0]).value);
      assert k == 5;
    }
  }

  // ---------------------------------------------------------------------
  // Tab completion
  // ---------------------------------------------------------------------

  /** The commands of `cs` whose key starts with `prefix`, each as often as
      it occurs in `cs` (`filter` keeps order and multiplicity). */
  function MatchesIn(cs: seq<Command>, prefix: string): (r: seq<Command>)
    ensures forall c :: multiset(r)[c] == if StartsWith(Name(c), prefix) then multiset(cs)[c] else 0
  {
    if |cs| == 0 then []
    else
      assert cs == [cs[0]] + cs[1..];
      (if StartsWith(Name(cs[0]), prefix) then [cs[0]] else []) + MatchesIn(cs[1..], prefix)
  }

  /** `Object.keys(commands).filter(cmd => cmd.startsWith(prefix))` */
  function Matches(prefix: string): seq<Command> {
    MatchesIn(Registry, prefix)
  }

  /** The Tab key: the buffer becomes a command's key when that key is the
      only one starting with the lower-cased buffer, and stays as it is
      otherwise. */
  function Complete(input: string): (r: string)
    ensures r == input || exists c :: r == Name(c) && OnlyMatch(c, Lower(input))
  {
    var m := Matches(Lower(input));
    if |m| == 1 then
      RegistryOnce();
      KeptIsOnlyMatch(Registry, Lower(input));
      var c := m[0];
      assert OnlyMatch(c, Lower(input));
      Name(c)
    else input
  }

  /** `c` is the one command whose key starts with `prefix`. */
  predicate OnlyMatch(c: Command, prefix: string) {
    StartsWith(Name(c), prefix) && forall d :: StartsWith(Name(d), prefix) ==> d == c
  }

  lemma RegistryHolds(c: Command)
    ensures multiset(Registry)[c] == 1
  {
    match c case _ =>
  }

  /** The registry lists every command exactly once. */
  lemma RegistryOnce()
    ensures forall c :: multiset(Registry)[c] == 1
  {
    forall c ensures multiset(Registry)[c] == 1 {
      RegistryHolds(c);
    }
  }

  /** Over a list holding every command once, the sole match of a prefix is
      all that the filter keeps. */
  lemma {:induction false} OnlyMatchKept(cs: seq<Command>, p: string, c: Command)
    requires forall d :: multiset(cs)[d] == 1
    requires OnlyMatch(c, p)
    ensures MatchesIn(cs, p) == [c]
  {
    var m := MatchesIn(cs, p);
    assert multiset(m) == multiset{c} by {
      forall d ensures multiset(m)[d] == multiset{c}[d] {
      }
    }
    assert |m| == |multiset(m)| == 1;
    assert m[0] in multiset(m);
  }

  /** Over a list holding every command once, a one-element filter result
      is the prefix's sole match. */
  lemma {:induction false} KeptIsOnlyMatch(cs: seq<Command>, p: string)
    requires forall d :: multiset(cs)[d] == 1
    requires |MatchesIn(cs, p)| == 1
    ensures OnlyMatch(MatchesIn(cs, p)[0], p)
  {
    var m := MatchesIn(cs, p);
    assert m == [m[0]];
    assert multiset(m)[m[0]] == 1;
    forall d | StartsWith(Name(d), p) ensures d == m[0] {
      assert multiset(m)[d] == 1;
    }
  }

  /** Completion replaces the buffer exactly when one command key starts
      with the lower-cased buffer, and then by that key. */
  lemma CompleteSpec(input: string)
    ensures forall c :: OnlyMatch(c, Lower(input)) ==> Complete(input) == Name(c)
    ensures (forall c :: !OnlyMatch(c, Lower(input))) ==> Complete(input) == input
  {
    var p := Lower(input);
    RegistryOnce();
    forall c | OnlyMatch(c, p) ensures Complete(input) == Name(c) {
      OnlyMatchKept(Registry, p, c);
    }
    if |Matches(p)| == 1 {
      KeptIsOnlyMatch(Registry, p);
    }
  }

  /** A prefix agrees with the string on its first characters. */
  lemma PrefixChars(s: string, p: string)
    requires StartsWith(s, p)
    ensures |p| >= 2 ==> s[0] == p[0] && s[1] == p[1]
    ensures |p| >= 3 ==> s[2] == p[2]
  {
    if |p| >= 2 {
      assert s[0] == s[..|p|][0] && s[1] == s[..|p|][1];
    }
    if |p| >= 3 {
      assert s[2] == s[..|p|][2];
    }
  }

  /** No command key is a prefix of another command's key. */
  lemma NamesPrefixFree(c: Command, d: Command)
    ensures StartsWith(Name(d), Name(c)) ==> d == c
  {
    if StartsWith(Name(d), Name(c)) {
      PrefixChars(Name(d), Name(c));
      match c case _ => match d case _ =>
    }
  }

  lemma NameIsLowerCase(c: Command)
    ensures Lower(Name(c)) == Name(c)
  {
    assert IsLowerCase(Name(c)) by { match c case _ => }
    LowerFixesLowerCase(Name(c));
  }

  /** An empty buffer never completes: every key starts with it. */
  lemma CompleteBlank()
    ensures Complete("") == ""
  {
    CompleteSpec("");
    assert StartsWith(Name(Help), Lower("")) && StartsWith(Name(Ls), Lower(""));
  }

  /** A command key completes to itself. */
  lemma CompletesKey(c: Command)
    ensures Complete(Name(c)) == Name(c)
  {
    NameIsLowerCase(c);
    forall d | StartsWith(Name(d), Name(c)) ensures d == c {
      NamesPrefixFree(c, d);
    }
    assert StartsWith(Name(c), Name(c));
    assert OnlyMatch(c, Lower(Name(c)));
    CompleteSpec(Name(c));
  }

  /** A second Tab after a completion leaves the buffer unchanged. */
  lemma CompleteIdempotent(input: string)
    ensures Complete(Complete(input)) == Complete(input)
  {
    var m := Matches(Lower(input));
    if |m| == 1 {
      CompletesKey(m[0]);
    }
  }
}
