/**
 * The browser terminal of the challenge (class Terminal in script.js): the
 * command history and its cursor, the hint counter, the current directory,
 * the command handlers and the dispatch of an input line.
 *
 * A Session is the value of the fields the handlers change, and each handler
 * is a function on it; the class Terminal keeps the same fields and its
 * methods update them in place, each proved to leave the state the matching
 * function describes.  What addOutput would append to the page is a Message
 * (the HTML markup around it is not modelled); the submissions the submit
 * command would POST are collected in `requests`.
 */
module ScriptTerminal {
  import opened JsText
  import opened Wrappers
  import opened FileSystem
  import R = Rfc1321
  import ScriptMd5

  const Space: CodeUnit := 0x20
  const Dot: CodeUnit := 0x2E
  const DotDot: JsString := [Dot, Dot]

  datatype Command = Help | Ls | Cat | Cd | Pwd | Clear | Hash | MissionExploit | Hint | Submit | Whoami | Date | Uname | Echo

  /** The `commands` table of the constructor (script.js:18-33); find and grep are not in it. */
  const CommandTable: seq<(JsString, Command)> := [
    (Units("help"), Help), (Units("ls"), Ls), (Units("cat"), Cat), (Units("cd"), Cd),
    (Units("pwd"), Pwd), (Units("clear"), Clear), (Units("hash"), Hash),
    (Units("missionexploit"), MissionExploit), (Units("hint"), Hint), (Units("submit"), Submit),
    (Units("whoami"), Whoami), (Units("date"), Date), (Units("uname"), Uname), (Units("echo"), Echo)]

  /** `this.commands[name]`: the handler a first token names, if any. */
  function FindCommand(table: seq<(JsString, Command)>, name: JsString): (c: Option<Command>)
    ensures c.Some? ==> exists k :: 0 <= k < |table| && table[k] == (name, c.value)
    ensures c.None? ==> forall k :: 0 <= k < |table| ==> table[k].0 != name
  {
    if |table| == 0 then None
    else if table[0].0 == name then Some(table[0].1)
    else
      var c := FindCommand(table[1..], name);
      assert forall k :: 1 <= k < |table| ==> table[k] == table[1..][k - 1];
      c
  }

  function CommandOf(name: JsString): Option<Command>
  {
    FindCommand(CommandTable, name)
  }

  /** hintCommand has four hints (script.js:51-56). */
  const HintCount: nat := 4

  /** The k-th hint, counting from zero. */
  function HintText(k: nat): JsString
    requires k < HintCount
  {
    match k
    case 0 => Units("H1: Check hashes.txt for intercepted data - analyze all 5 hashes.")
    case 1 => Units("H2: Each hash = MD5(XOR(plaintext, key)). XOR key is 77.")
    case 2 => Units("H3: Target location is a short meeting place phrase.")
    case _ => Units("H4: Use XOR decoder online: input hash data XORed with 77, find readable text.")
  }

  /** One row of ls: the short form, or with -a/-la the long form with its padded size. */
  datatype LsRow = Short(isDir: bool, name: JsString) | Long(isDir: bool, size: JsString, name: JsString)

  /** What a handler shows, one constructor per kind of addOutput call. */
  datatype Message =
    | Prompt(cwd: JsString, line: JsString)
    | CommandNotFound(name: JsString)
    | HintLine(text: JsString)
    | NoMoreHints
    | SubmitUsage
    | EmptyAnswer
    | Submitting(submission: JsString)
    | NotADirectory
    | Listing(rows: seq<LsRow>)
    | CatUsage
    | NoSuchFile(command: Command, name: JsString)
    | IsADirectory(name: JsString)
    | CdNotADirectory(name: JsString)
    | FileText(content: JsString)
    | Printed(text: JsString)
    | HashUsage
    | HashOutput(text: JsString, digest: string)
    | StaticText(command: Command)

  // The file tree of buildFileSystem.

  /** buildFileSystem (script.js:130-154): the home directory and its four files, whose texts are parameters here. */
  function BuildFileSystem(readme: JsString, intel: JsString, methods: JsString, hashes: JsString): seq<Entry>
  {
    [Entry(HomePath, Dir(HomeFiles(readme, intel, methods, hashes)))]
  }

  function HomeFiles(readme: JsString, intel: JsString, methods: JsString, hashes: JsString): seq<Entry>
  {
    [Entry(Units("readme.txt"), File(readme)), Entry(Units("intel.txt"), File(intel)),
     Entry(Units("methods.txt"), File(methods)), Entry(Units("hashes.txt"), File(hashes))]
  }

  /** The shape the terminal relies on: deep root keys, and the home directory present as a directory. */
  predicate FsShape(fs: seq<Entry>)
  {
    DeepKeys(fs) && Lookup(fs, HomePath).Some? && Lookup(fs, HomePath).value.Dir?
  }

  lemma BuildFileSystemShape(readme: JsString, intel: JsString, methods: JsString, hashes: JsString)
    ensures FsShape(BuildFileSystem(readme, intel, methods, hashes))
  {
    assert HomePath[5] == Slash;
    assert HomePath[1..][4] == Slash;
  }

  /** `currentDir.contents` when getCurrentDirectory gives a directory. */
  function DirContents(fs: seq<Entry>, cwd: JsString): Option<seq<Entry>>
  {
    match CurrentDirectory(fs, cwd)
    case Some(At(Dir(contents))) => Some(contents)
    case _ => None
  }

  // ls

  /** The size column as the source means it: "4096" for a directory, the length of a file's text in decimal. */
  function SizeText(item: Item): JsString
  {
    if item.Dir? then Units("4096")
    else if |item.content| > 0 then Decimal(|item.content|)
    else Units("0")
  }

  /** The rows of lsCommand's loop (script.js:350-362), for the entries of the current directory. */
  function LsRows(es: seq<Entry>, showHidden: bool): seq<LsRow>
  {
    if |es| == 0 then []
    else
      var e := es[0];
      var rest := LsRows(es[1..], showHidden);
      if !showHidden && StartsWith(e.name, Dot) then rest
      else if showHidden then [Long(e.item.Dir?, PadStart(SizeText(e.item), 8), e.name)] + rest
      else [Short(e.item.Dir?, e.name)] + rest
  }

  /** With -a or -la every entry has a long row, in order, with its size right-aligned in eight columns. */
  lemma {:induction false} LsRowsLong(es: seq<Entry>)
    ensures |LsRows(es, true)| == |es|
    ensures forall k :: 0 <= k < |es| ==>
      LsRows(es, true)[k] == Long(es[k].item.Dir?, PadStart(SizeText(es[k].item), 8), es[k].name)
    decreases |es|
  {
    if |es| > 0 {
      LsRowsLong(es[1..]);
      assert forall k :: 1 <= k < |es| ==> es[k] == es[1..][k - 1];
    }
  }

  /** Without them the rows are short, no name starts with a dot, and every other entry has its row. */
  lemma {:induction false} LsRowsShort(es: seq<Entry>)
    ensures forall k :: 0 <= k < |LsRows(es, false)| ==>
      LsRows(es, false)[k].Short? && !StartsWith(LsRows(es, false)[k].name, Dot)
    ensures forall k :: 0 <= k < |es| && !StartsWith(es[k].name, Dot) ==>
      Short(es[k].item.Dir?, es[k].name) in LsRows(es, false)
    decreases |es|
  {
    if |es| > 0 {
      LsRowsShort(es[1..]);
      assert forall k :: 1 <= k < |es| ==> es[k] == es[1..][k - 1];
    }
  }

  /** The size of a non-empty file reads back as the length of its text. */
  lemma SizeTextOfFile(item: Item)
    requires HasText(item)
    ensures DigitsValue(SizeText(item)) == |item.content|
  {
    DecimalValue(|item.content|);
  }

  /** `item.content?.length || '0'` as written: a number for a file with text, a string otherwise. */
  datatype SizeValue = SizeString(text: JsString) | SizeNumber(n: nat)

  function SizeAsWritten(item: Item): SizeValue
  {
    if item.Dir? then SizeString(Units("4096"))
    else if |item.content| > 0 then SizeNumber(|item.content|)
    else SizeString(Units("0"))
  }

  /**
   * The loop of lsCommand as written: `size.padStart(8)` on a number is a
   * TypeError, so a long listing that reaches a file with text throws (None).
   */
  function LsRowsAsWritten(es: seq<Entry>, showHidden: bool): Option<seq<LsRow>>
  {
    if |es| == 0 then Some([])
    else
      var e := es[0];
      var rest := LsRowsAsWritten(es[1..], showHidden);
      if !showHidden && StartsWith(e.name, Dot) then rest
      else if showHidden then
        match SizeAsWritten(e.item)
        case SizeNumber(_) => None
        case SizeString(t) => if rest.Some? then Some([Long(e.item.Dir?, PadStart(t, 8), e.name)] + rest.value) else None
      else if rest.Some? then Some([Short(e.item.Dir?, e.name)] + rest.value) else None
  }

  /** As written, `ls -a` and `ls -la` throw in any directory holding a file with text. */
  lemma {:induction false} LsLongListingThrows(es: seq<Entry>, k: nat)
    requires k < |es| && HasText(es[k].item)
    ensures LsRowsAsWritten(es, true) == None
    decreases k
  {
    if k > 0 {
      LsLongListingThrows(es[1..], k - 1);
    }
  }

  /** In the home directory of buildFileSystem, whose readme.txt has text, `ls -a` throws. */
  lemma HomeLongListingThrows(readme: JsString, intel: JsString, methods: JsString, hashes: JsString)
    requires readme != []
    ensures LsRowsAsWritten(HomeFiles(readme, intel, methods, hashes), true) == None
  {
    LsLongListingThrows(HomeFiles(readme, intel, methods, hashes), 0);
  }

  /** Everywhere else the listing as written and the corrected one agree. */
  lemma {:induction false} LsRowsAgree(es: seq<Entry>, showHidden: bool)
    requires !showHidden || forall k :: 0 <= k < |es| ==> !HasText(es[k].item)
    ensures LsRowsAsWritten(es, showHidden) == Some(LsRows(es, showHidden))
    decreases |es|
  {
    if |es| > 0 {
      assert forall k :: 1 <= k < |es| ==> es[k] == es[1..][k - 1];
      LsRowsAgree(es[1..], showHidden);
    }
  }

  // The session.

  /** Every submission sent is non-empty and already trimmed. */
  predicate Submissions(requests: seq<JsString>)
  {
    forall k :: 0 <= k < |requests| ==> requests[k] != [] && Trim(requests[k]) == requests[k]
  }

  datatype Session = Session(
    cwd: JsString,
    history: seq<JsString>,
    historyIndex: int,
    hintIndex: nat,
    input: JsString,
    output: seq<Message>,
    requests: seq<JsString>)
  {
    /**
     * The invariant of the terminal: the history cursor is -1 only before the
     * first command and otherwise within [0, length]; at most four hints have
     * been shown; the current directory is the home path or has a segment;
     * every submission sent is non-empty and already trimmed.
     */
    predicate Valid()
    {
      (if |history| == 0 then historyIndex == -1 else 0 <= historyIndex <= |history|)
      && hintIndex <= HintCount
      && (cwd == HomePath || |PathParts(cwd)| > 0)
      && Submissions(requests)
    }

    function Show(m: Message): Session
    {
      this.(output := output + [m])
    }

    /** addToHistory (script.js:281-284). */
    function AddToHistory(command: JsString): Session
    {
      this.(history := history + [command], historyIndex := |history| + 1)
    }

    /** navigateHistory (script.js:286-300): move the cursor, clamped, and show the entry under it. */
    function NavigateHistory(direction: int): Session
    {
      if |history| == 0 then this
      else
        var i := historyIndex + direction;
        if i < 0 then this.(historyIndex := 0, input := history[0])
        else if i >= |history| then this.(historyIndex := |history|, input := [])
        else this.(historyIndex := i, input := history[i])
    }

    /** hintCommand (script.js:50-64). */
    function HintCommand(): Session
    {
      if hintIndex < HintCount then Show(HintLine(HintText(hintIndex))).(hintIndex := hintIndex + 1)
      else Show(NoMoreHints)
    }

    /** submitCommand up to the request (script.js:67-92): the checks, and the submission it would send. */
    function SubmitCommand(args: seq<JsString>): Session
    {
      if |args| == 0 then Show(SubmitUsage)
      else
        var submission := Trim(Join(args, Space));
        if submission == [] then Show(EmptyAnswer)
        else Show(Submitting(submission)).(requests := requests + [submission])
    }

    /** lsCommand (script.js:339-365), with the size column as a string. */
    function LsCommand(fs: seq<Entry>, args: seq<JsString>): Session
    {
      var showHidden := Units("-la") in args || Units("-a") in args;
      var dir := DirContents(fs, cwd);
      if dir.None? then Show(NotADirectory) else Show(Listing(LsRows(dir.value, showHidden)))
    }

    /** catCommand (script.js:367-388). */
    function CatCommand(fs: seq<Entry>, args: seq<JsString>): Session
    {
      if |args| == 0 then Show(CatUsage)
      else
        var name := args[0];
        var dir := DirContents(fs, cwd);
        var hit := if dir.Some? then Lookup(dir.value, name) else None;
        if hit.None? then Show(NoSuchFile(Cat, name))
        else if hit.value.Dir? then Show(IsADirectory(name))
        else Show(FileText(hit.value.content))
    }

    /** cdCommand (script.js:390-419). */
    function CdCommand(fs: seq<Entry>, args: seq<JsString>): Session
    {
      if |args| == 0 then this.(cwd := HomePath)
      else
        var target := args[0];
        if target == DotDot then
          var parts := PathParts(cwd);
          if |parts| > 1 then this.(cwd := [Slash] + Join(parts[..|parts| - 1], Slash)) else this
        else
          var dir := DirContents(fs, cwd);
          var hit := if dir.Some? then Lookup(dir.value, target) else None;
          if hit.None? then Show(NoSuchFile(Cd, target))
          else if !hit.value.Dir? then Show(CdNotADirectory(target))
          else this.(cwd := if cwd == [Slash] then [Slash] + target else cwd + [Slash] + target)
    }

    /** hashCommand (script.js:429-443): the md5 of the arguments joined by spaces. */
    function HashCommand(args: seq<JsString>): Session
    {
      if |args| == 0 then Show(HashUsage)
      else
        var text := Join(args, Space);
        Show(HashOutput(text, R.Hex(R.Encode(ScriptMd5.SourceDigest(LowBytes(text))))))
    }

    /** The handler a command names, given the arguments after it. */
    function Run(fs: seq<Entry>, c: Command, args: seq<JsString>): Session
    {
      match c
      case Ls => LsCommand(fs, args)
      case Cat => CatCommand(fs, args)
      case Cd => CdCommand(fs, args)
      case Pwd => Show(Printed(cwd))
      case Clear => this.(output := [])
      case Hash => HashCommand(args)
      case Hint => HintCommand()
      case Submit => SubmitCommand(args)
      case Echo => Show(Printed(Join(args, Space)))
      case _ => Show(StaticText(c))
    }

    /** processCommand (script.js:261-279): trim the input line, record it, dispatch on its first word. */
    function ProcessCommand(fs: seq<Entry>): Session
    {
      var command := Trim(input);
      if command == [] then this
      else
        var parts := Split(command, Space);
        AddToHistory(command).Show(Prompt(cwd, command)).Dispatch(fs, parts[0], parts[1..]).(input := [])
    }

    /** `this.commands[cmd]`, called on the arguments when it names a handler. */
    function Dispatch(fs: seq<Entry>, name: JsString, args: seq<JsString>): Session
    {
      match CommandOf(name)
      case None => Show(CommandNotFound(name))
      case Some(c) => Run(fs, c, args)
    }
  }

  /** The code units as the characters md5 reads: the low byte of each. */
  function LowBytes(s: JsString): (bytes: seq<R.Byte>)
    ensures |bytes| == |s|
  {
    seq(|s|, i requires 0 <= i < |s| => (s[i] % 0x100) as R.Byte)
  }

  const Initial: Session := Session(HomePath, [], -1, 0, [], [], [])

  lemma InitialValid()
    ensures Initial.Valid()
  {
  }

  // History.

  /** With no history the arrow keys change nothing. */
  lemma NavigateEmptyHistory(s: Session, direction: int)
    requires |s.history| == 0
    ensures s.NavigateHistory(direction) == s
  {
  }

  /**
   * With a history the cursor always lands in [0, length]; at the length the
   * input is cleared, below it the input shows that entry; the history itself
   * never changes.
   */
  lemma NavigateBounds(s: Session, direction: int)
    requires |s.history| > 0
    ensures var t := s.NavigateHistory(direction);
      t.history == s.history && 0 <= t.historyIndex <= |t.history|
      && t.input == (if t.historyIndex == |t.history| then [] else t.history[t.historyIndex])
      && t.output == s.output && t.cwd == s.cwd && t.requests == s.requests
  {
  }

  /** From the end of the history, up then down comes back to the end with an empty input. */
  lemma NavigateUpDown(s: Session)
    requires |s.history| > 0 && s.historyIndex == |s.history|
    ensures s.NavigateHistory(-1).input == s.history[|s.history| - 1]
    ensures s.NavigateHistory(-1).NavigateHistory(1).historyIndex == |s.history|
    ensures s.NavigateHistory(-1).NavigateHistory(1).input == []
  {
  }

  /** Adding a command puts it last and moves the cursor past it. */
  lemma AddToHistoryAppends(s: Session, command: JsString)
    ensures s.AddToHistory(command).history == s.history + [command]
    ensures s.AddToHistory(command).historyIndex == |s.history| + 1
    ensures s.Valid() ==> s.AddToHistory(command).Valid()
  {
  }

  lemma NavigateKeepsValid(s: Session, direction: int)
    requires s.Valid()
    ensures s.NavigateHistory(direction).Valid()
  {
  }

  // Hints.

  /** n calls of hintCommand. */
  function Hinted(s: Session, n: nat): Session
  {
    if n == 0 then s else Hinted(s, n - 1).HintCommand()
  }

  /** What the k-th call of hintCommand shows, counting from zero on a fresh counter. */
  function HintMessage(k: nat): Message
  {
    if k < HintCount then HintLine(HintText(k)) else NoMoreHints
  }

  /** What the first n calls show, in order. */
  function HintMessages(n: nat): (r: seq<Message>)
    ensures |r| == n && forall k :: 0 <= k < n ==> r[k] == HintMessage(k)
  {
    if n == 0 then [] else HintMessages(n - 1) + [HintMessage(n - 1)]
  }

  /**
   * From a fresh counter, n calls show the hints in order, one per call, then
   * "No more hints" on every later call; the counter stops at four.
   */
  lemma {:induction false} HintsInOrder(s: Session, n: nat)
    requires s.hintIndex == 0
    ensures Hinted(s, n).output == s.output + HintMessages(n)
    ensures Hinted(s, n).hintIndex == if n < HintCount then n else HintCount
    decreases n
  {
    if n > 0 {
      HintsInOrder(s, n - 1);
      HintStep(Hinted(s, n - 1));
      Regroup(s.output, HintMessages(n - 1), [HintMessage(n - 1)]);
    }
  }

  /** One call shows the hint under the counter, or "No more hints" once it is at four. */
  lemma HintStep(p: Session)
    requires p.hintIndex <= HintCount
    ensures p.HintCommand().output == p.output + [HintMessage(p.hintIndex)]
    ensures p.HintCommand().hintIndex == if p.hintIndex < HintCount then p.hintIndex + 1 else HintCount
  {
  }

  lemma HintKeepsValid(s: Session)
    requires s.Valid()
    ensures s.HintCommand().Valid()
  {
  }

  // Submit.

  /** No arguments, or arguments that are blank once joined and trimmed: nothing is sent. */
  lemma SubmitRejects(s: Session, args: seq<JsString>)
    requires |args| == 0 || Trim(Join(args, Space)) == []
    ensures s.SubmitCommand(args).requests == s.requests
    ensures s.SubmitCommand(args).output == s.output + [if |args| == 0 then SubmitUsage else EmptyAnswer]
  {
  }

  /** Otherwise exactly `args.join(' ').trim()` is sent. */
  lemma SubmitSends(s: Session, args: seq<JsString>)
    requires |args| > 0 && Trim(Join(args, Space)) != []
    ensures s.SubmitCommand(args).requests == s.requests + [Trim(Join(args, Space))]
  {
  }

  lemma SubmitKeepsValid(s: Session, args: seq<JsString>)
    requires s.Valid()
    ensures s.SubmitCommand(args).Valid()
  {
    if |args| > 0 {
      TrimIdempotent(Join(args, Space));
    }
  }

  // The current directory.

  /**
   * getCurrentDirectory never returns the root object or a file for a valid
   * terminal, so the `.contents` reads of cat and cd never fail: the
   * directory is the home directory for the home path and missing otherwise.
   */
  lemma CurrentDirectoryIsHomeOrMissing(s: Session, fs: seq<Entry>)
    requires s.Valid() && FsShape(fs)
    ensures s.cwd == HomePath ==> CurrentDirectory(fs, s.cwd) == Some(At(Lookup(fs, HomePath).value))
    ensures s.cwd != HomePath ==> CurrentDirectory(fs, s.cwd) == None
    ensures DirContents(fs, s.cwd).Some? <==> s.cwd == HomePath
  {
    if s.cwd != HomePath {
      OnlyHomeResolves(fs, s.cwd);
    }
  }

  /** cd with no argument goes home. */
  lemma CdHome(s: Session, fs: seq<Entry>)
    ensures s.CdCommand(fs, []).cwd == HomePath
  {
  }

  /** `cd ..` drops the last segment when there are two or more, and otherwise stays. */
  lemma CdParent(s: Session, fs: seq<Entry>, args: seq<JsString>)
    requires |args| > 0 && args[0] == DotDot
    ensures var parts := PathParts(s.cwd);
      if |parts| > 1 then PathParts(s.CdCommand(fs, args).cwd) == parts[..|parts| - 1]
      else s.CdCommand(fs, args) == s
  {
    var parts := PathParts(s.cwd);
    if |parts| > 1 {
      PathPartsNoSlash(s.cwd);
      PathPartsOfJoin(parts[..|parts| - 1]);
    }
  }

  /** A missing target or one that is not a directory leaves the directory as it was and shows an error. */
  lemma CdRejects(s: Session, fs: seq<Entry>, args: seq<JsString>)
    requires |args| > 0 && args[0] != DotDot
    requires DirContents(fs, s.cwd).None? || Lookup(DirContents(fs, s.cwd).value, args[0]).None?
      || Lookup(DirContents(fs, s.cwd).value, args[0]).value.File?
    ensures s.CdCommand(fs, args).cwd == s.cwd
    ensures s.CdCommand(fs, args).output == s.output + [
      if DirContents(fs, s.cwd).None? || Lookup(DirContents(fs, s.cwd).value, args[0]).None? then NoSuchFile(Cd, args[0])
      else CdNotADirectory(args[0])]
  {
  }

  /** In the tree of buildFileSystem the home directory holds only files, so cd never leaves it except by `..`. */
  lemma CdInBuiltTree(s: Session, readme: JsString, intel: JsString, methods: JsString, hashes: JsString, args: seq<JsString>)
    requires s.cwd == HomePath && |args| > 0 && args[0] != DotDot
    ensures s.CdCommand(BuildFileSystem(readme, intel, methods, hashes), args).cwd == HomePath
  {
    var fs := BuildFileSystem(readme, intel, methods, hashes);
    var files := HomeFiles(readme, intel, methods, hashes);
    assert DirContents(fs, HomePath) == Some(files);
    var hit := Lookup(files, args[0]);
    if hit.Some? {
      var k :| 0 <= k < |files| && files[k] == Entry(args[0], hit.value);
      assert hit.value.File?;
    }
  }

  lemma CdKeepsValid(s: Session, fs: seq<Entry>, args: seq<JsString>)
    requires s.Valid() && FsShape(fs)
    ensures s.CdCommand(fs, args).Valid()
  {
    if |args| > 0 {
      var target := args[0];
      var t := s.CdCommand(fs, args);
      if target == DotDot {
        CdParent(s, fs, args);
        var parts := PathParts(s.cwd);
        if |parts| > 1 {
          CwdKeepsValid(s, t.cwd);
          assert t == s.(cwd := t.cwd);
        }
      } else {
        CurrentDirectoryIsHomeOrMissing(s, fs);
        var dir := DirContents(fs, s.cwd);
        var hit := if dir.Some? then Lookup(dir.value, target) else None;
        if hit.None? || !hit.value.Dir? {
          assert t == s.(output := t.output);
          OutputKeepsValid(s, t.output);
        } else {
          var cwd := HomePath + [Slash] + target;
          assert s.cwd == HomePath && HomePath != [Slash];
          assert t == s.(cwd := cwd);
          HomePathHasParts();
          PathPartsAppend(HomePath, target);
          CwdKeepsValid(s, cwd);
        }
      }
    }
  }

  /** Moving to the home path or to a path with a segment keeps the invariant. */
  lemma CwdKeepsValid(s: Session, cwd: JsString)
    requires s.Valid() && (cwd == HomePath || |PathParts(cwd)| > 0)
    ensures s.(cwd := cwd).Valid()
  {
  }

  // cat and ls in the tree of buildFileSystem.

  /** In the home directory, cat shows each of the four files' text and reports any other name as missing. */
  lemma CatInBuiltTree(s: Session, readme: JsString, intel: JsString, methods: JsString, hashes: JsString, name: JsString, rest: seq<JsString>)
    requires s.cwd == HomePath
    ensures var t := s.CatCommand(BuildFileSystem(readme, intel, methods, hashes), [name] + rest);
      t.output == s.output + [
        if name == Units("readme.txt") then FileText(readme)
        else if name == Units("intel.txt") then FileText(intel)
        else if name == Units("methods.txt") then FileText(methods)
        else if name == Units("hashes.txt") then FileText(hashes)
        else NoSuchFile(Cat, name)]
      && t == s.(output := t.output)
  {
    var fs := BuildFileSystem(readme, intel, methods, hashes);
    var files := HomeFiles(readme, intel, methods, hashes);
    assert DirContents(fs, HomePath) == Some(files);
    var hit := Lookup(files, name);
    if hit.Some? {
      var k :| 0 <= k < |files| && files[k] == Entry(name, hit.value);
      assert Units("readme.txt")[0] != Units("hashes.txt")[0];
      assert |Units("intel.txt")| == 9 && |Units("readme.txt")| == |Units("hashes.txt")| == 10 && |Units("methods.txt")| == 11;
    } else {
      assert files[0].name != name && files[1].name != name && files[2].name != name && files[3].name != name;
    }
  }

  /** In the home directory, a plain ls lists the four files in order, and ls -a rows give each file's length. */
  lemma LsInBuiltTree(s: Session, readme: JsString, intel: JsString, methods: JsString, hashes: JsString, args: seq<JsString>)
    requires s.cwd == HomePath
    ensures var t := s.LsCommand(BuildFileSystem(readme, intel, methods, hashes), args);
      t == s.(output := t.output) && |t.output| == |s.output| + 1 && t.output[..|s.output|] == s.output
      && t.output[|s.output|] == Listing(LsRows(HomeFiles(readme, intel, methods, hashes),
           Units("-la") in args || Units("-a") in args))
  {
    var fs := BuildFileSystem(readme, intel, methods, hashes);
    assert DirContents(fs, HomePath) == Some(HomeFiles(readme, intel, methods, hashes));
  }

  // hash

  /** Below 2^29 characters the hash command shows the MD5 of RFC 1321 of the characters' low bytes. */
  lemma HashIsMd5(s: Session, args: seq<JsString>)
    requires |args| > 0 && |Join(args, Space)| < 0x2000_0000
    ensures s.HashCommand(args).output
      == s.output + [HashOutput(Join(args, Space), R.MD5(LowBytes(Join(args, Space))))]
  {
    ScriptMd5.SourceDigestIsDigest(LowBytes(Join(args, Space)));
  }

  // processCommand

  /** A line that is blank once trimmed changes nothing at all. */
  lemma ProcessBlankLine(s: Session, fs: seq<Entry>)
    requires AllSpace(s.input)
    ensures s.ProcessCommand(fs) == s
  {
    TrimEmpty(s.input);
  }

  /** Any other line is recorded, trimmed, in the history, and the input is cleared. */
  lemma ProcessRecordsLine(s: Session, fs: seq<Entry>)
    requires !AllSpace(s.input)
    ensures s.ProcessCommand(fs).history == s.history + [Trim(s.input)]
    ensures s.ProcessCommand(fs).historyIndex == |s.history| + 1
    ensures s.ProcessCommand(fs).input == []
  {
    TrimEmpty(s.input);
    var command := Trim(s.input);
    var parts := Split(command, Space);
    DispatchKeepsHistory(s.AddToHistory(command).Show(Prompt(s.cwd, command)), fs, parts[0], parts[1..]);
  }

  /** No handler touches the history. */
  lemma DispatchKeepsHistory(s: Session, fs: seq<Entry>, name: JsString, args: seq<JsString>)
    ensures s.Dispatch(fs, name, args).history == s.history
    ensures s.Dispatch(fs, name, args).historyIndex == s.historyIndex
  {
    var handler := CommandOf(name);
    if handler.Some? {
      RunKeepsHistory(s, fs, handler.value, args);
    }
  }

  lemma RunKeepsHistory(s: Session, fs: seq<Entry>, c: Command, args: seq<JsString>)
    ensures s.Run(fs, c, args).history == s.history
    ensures s.Run(fs, c, args).historyIndex == s.historyIndex
  {
  }

  /** A first word that names no command shows the prompt line and "Command not found", and changes nothing else. */
  lemma ProcessUnknownCommand(s: Session, fs: seq<Entry>)
    requires !AllSpace(s.input) && CommandOf(Split(Trim(s.input), Space)[0]).None?
    ensures var t := s.ProcessCommand(fs);
      t.output == s.output + [Prompt(s.cwd, Trim(s.input)), CommandNotFound(Split(Trim(s.input), Space)[0])]
      && t.cwd == s.cwd && t.hintIndex == s.hintIndex && t.requests == s.requests
  {
    TrimEmpty(s.input);
  }

  /**
   * A line made of a command name and arguments, none with a space in it,
   * runs that command on exactly those arguments, after the prompt line.
   */
  lemma ProcessParsesLine(s: Session, fs: seq<Entry>, name: JsString, c: Command, args: seq<JsString>)
    requires CommandOf(name) == Some(c)
    requires Space !in name && forall k :: 0 <= k < |args| ==> Space !in args[k]
    requires Trim(s.input) == Join([name] + args, Space) && !AllSpace(s.input)
    ensures s.ProcessCommand(fs)
      == s.AddToHistory(Trim(s.input)).Show(Prompt(s.cwd, Trim(s.input))).Run(fs, c, args).(input := [])
  {
    TrimEmpty(s.input);
    SplitCommandLine(name, args);
  }

  /** Splitting a joined line on spaces gives back its words when none holds a space. */
  lemma SplitCommandLine(name: JsString, args: seq<JsString>)
    requires Space !in name && forall k :: 0 <= k < |args| ==> Space !in args[k]
    ensures var parts := Split(Join([name] + args, Space), Space);
      |parts| == |args| + 1 && parts[0] == name && parts[1..] == args
  {
    var parts := [name] + args;
    assert forall k :: 0 <= k < |parts| ==> Space !in parts[k] by {
      assert forall k :: 1 <= k < |parts| ==> parts[k] == args[k - 1];
    }
    SplitJoin(parts, Space);
    assert parts[1..] == args;
  }

  lemma RunKeepsValid(s: Session, fs: seq<Entry>, c: Command, args: seq<JsString>)
    requires s.Valid() && FsShape(fs)
    ensures s.Run(fs, c, args).Valid()
  {
    match c
    case Cd => CdKeepsValid(s, fs, args);
    case Submit => SubmitKeepsValid(s, args);
    case Hint => HintKeepsValid(s);
    case _ =>
      var t := s.Run(fs, c, args);
      assert t == s.(output := t.output);
      OutputKeepsValid(s, t.output);
  }

  /** Changing only what is on the screen keeps the invariant. */
  lemma OutputKeepsValid(s: Session, output: seq<Message>)
    requires s.Valid()
    ensures s.(output := output).Valid()
  {
  }

  lemma ProcessKeepsValid(s: Session, fs: seq<Entry>)
    requires s.Valid() && FsShape(fs)
    ensures s.ProcessCommand(fs).Valid()
  {
    var command := Trim(s.input);
    if command != [] {
      var parts := Split(command, Space);
      var shown := s.AddToHistory(command).Show(Prompt(s.cwd, command));
      assert shown.Valid();
      if CommandOf(parts[0]).Some? {
        RunKeepsValid(shown, fs, CommandOf(parts[0]).value, parts[1..]);
      }
      assert shown.Dispatch(fs, parts[0], parts[1..]).Valid();
    }
  }

  /** The loop of lsCommand (script.js:350-362), building the rows one entry at a time. */
  method ListRows(es: seq<Entry>, showHidden: bool) returns (rows: seq<LsRow>)
    ensures rows == LsRows(es, showHidden)
  {
    rows := [];
    var i := 0;
    while i < |es|
      invariant 0 <= i <= |es|
      invariant rows + LsRows(es[i..], showHidden) == LsRows(es, showHidden)
    {
      var e := es[i];
      assert es[i..][1..] == es[i + 1..];
      if showHidden || !StartsWith(e.name, Dot) {
        var row := if showHidden then Long(e.item.Dir?, PadStart(SizeText(e.item), 8), e.name) else Short(e.item.Dir?, e.name);
        Regroup(rows, [row], LsRows(es[i + 1..], showHidden));
        rows := rows + [row];
      }
      i := i + 1;
    }
  }

  // The class.

  class Terminal {
    var currentDirectory: JsString
    var commandHistory: seq<JsString>
    var historyIndex: int
    var hintIndex: nat
    /** The value of the command input box. */
    var input: JsString
    /** What has been added to the output element since it was last cleared. */
    var output: seq<Message>
    /** The submissions the submit command has sent to the server. */
    var requests: seq<JsString>
    const fileSystem: seq<Entry>

    function State(): Session
      reads this
    {
      Session(currentDirectory, commandHistory, historyIndex, hintIndex, input, output, requests)
    }

    predicate Valid()
      reads this
    {
      State().Valid() && FsShape(fileSystem)
    }

    /** The constructor (script.js:2-36), with the texts of the four files as parameters. */
    constructor (readme: JsString, intel: JsString, methods: JsString, hashes: JsString)
      ensures Valid() && State() == Initial
      ensures fileSystem == BuildFileSystem(readme, intel, methods, hashes)
    {
      currentDirectory := HomePath;
      commandHistory := [];
      historyIndex := -1;
      hintIndex := 0;
      input := [];
      output := [];
      requests := [];
      fileSystem := BuildFileSystem(readme, intel, methods, hashes);
      BuildFileSystemShape(readme, intel, methods, hashes);
    }

    method AddOutput(m: Message)
      requires Valid()
      modifies this
      ensures Valid() && State() == old(State()).Show(m)
    {
      output := output + [m];
    }

    /** addToHistory (script.js:281-284). */
    method AddToHistory(command: JsString)
      requires Valid()
      modifies this
      ensures Valid() && State() == old(State()).AddToHistory(command)
    {
      commandHistory := commandHistory + [command];
      historyIndex := |commandHistory|;
    }

    /** navigateHistory (script.js:286-300). */
    method NavigateHistory(direction: int)
      requires Valid()
      modifies this
      ensures Valid() && State() == old(State()).NavigateHistory(direction)
    {
      if |commandHistory| == 0 {
        return;
      }
      historyIndex := historyIndex + direction;
      if historyIndex < 0 {
        historyIndex := 0;
      } else if historyIndex >= |commandHistory| {
        historyIndex := |commandHistory|;
        input := [];
        return;
      }
      input := commandHistory[historyIndex];
    }

    /** hintCommand (script.js:50-64). */
    method HintCommand()
      requires Valid()
      modifies this
      ensures Valid() && State() == old(State()).HintCommand()
    {
      if hintIndex < HintCount {
        AddOutput(HintLine(HintText(hintIndex)));
        hintIndex := hintIndex + 1;
      } else {
        AddOutput(NoMoreHints);
      }
    }

    /** submitCommand (script.js:67-92), up to the request it would send. */
    method SubmitCommand(args: seq<JsString>)
      requires Valid()
      modifies this
      ensures Valid() && State() == old(State()).SubmitCommand(args)
    {
      if |args| == 0 {
        AddOutput(SubmitUsage);
        return;
      }
      var submission := Trim(Join(args, Space));
      if submission == [] {
        AddOutput(EmptyAnswer);
        return;
      }
      SubmitKeepsValid(State(), args);
      output := output + [Submitting(submission)];
      requests := requests + [submission];
    }

    /** getCurrentDirectory (script.js:500-522). */
    method GetCurrentDirectory() returns (r: Option<Node>)
      ensures r == CurrentDirectory(fileSystem, currentDirectory)
    {
      if currentDirectory == HomePath {
        var home := Lookup(fileSystem, HomePath);
        return if home.Some? then Some(At(home.value)) else None;
      }
      var parts := PathParts(currentDirectory);
      var current := Root;
      var fullPath := [];
      var i := 0;
      while i < |parts|
        invariant 0 <= i <= |parts|
        invariant ResolveFrom(fileSystem, current, fullPath, parts[i..]) == CurrentDirectory(fileSystem, currentDirectory)
      {
        assert parts[i..][1..] == parts[i + 1..];
        fullPath := fullPath + [Slash] + parts[i];
        var next := Step(fileSystem, current, fullPath, parts[i]);
        if next.None? {
          return None;
        }
        current := next.value;
        i := i + 1;
      }
      r := Some(current);
    }

    /** `currentDir.contents`, when the current directory resolves to a directory. */
    method CurrentContents() returns (dir: Option<seq<Entry>>)
      ensures dir == DirContents(fileSystem, currentDirectory)
    {
      var current := GetCurrentDirectory();
      dir := if current.Some? && current.value.At? && current.value.item.Dir? then Some(current.value.item.contents) else None;
    }

    /** lsCommand (script.js:339-365). */
    method LsCommand(args: seq<JsString>)
      requires Valid()
      modifies this
      ensures Valid() && State() == old(State()).LsCommand(fileSystem, args)
    {
      var showHidden := Units("-la") in args || Units("-a") in args;
      var dir := CurrentContents();
      if dir.None? {
        AddOutput(NotADirectory);
        return;
      }
      var rows := ListRows(dir.value, showHidden);
      AddOutput(Listing(rows));
    }

    /** catCommand (script.js:367-388). */
    method CatCommand(args: seq<JsString>)
      requires Valid()
      modifies this
      ensures Valid() && State() == old(State()).CatCommand(fileSystem, args)
    {
      if |args| == 0 {
        AddOutput(CatUsage);
        return;
      }
      var filename := args[0];
      var dir := CurrentContents();
      var hit := if dir.Some? then Lookup(dir.value, filename) else None;
      if hit.None? {
        AddOutput(NoSuchFile(Cat, filename));
      } else if hit.value.Dir? {
        AddOutput(IsADirectory(filename));
      } else {
        AddOutput(FileText(hit.value.content));
      }
    }

    /** cdCommand (script.js:390-419). */
    method CdCommand(args: seq<JsString>)
      requires Valid()
      modifies this
      ensures Valid() && State() == old(State()).CdCommand(fileSystem, args)
    {
      CdKeepsValid(State(), fileSystem, args);
      if |args| == 0 {
        currentDirectory := HomePath;
        return;
      }
      var targetDir := args[0];
      if targetDir == DotDot {
        var pathParts := PathParts(currentDirectory);
        if |pathParts| > 1 {
          currentDirectory := [Slash] + Join(pathParts[..|pathParts| - 1], Slash);
        }
        return;
      }
      var dir := CurrentContents();
      var hit := if dir.Some? then Lookup(dir.value, targetDir) else None;
      if hit.None? {
        AddOutput(NoSuchFile(Cd, targetDir));
      } else if !hit.value.Dir? {
        AddOutput(CdNotADirectory(targetDir));
      } else {
        currentDirectory := if currentDirectory == [Slash] then [Slash] + targetDir else currentDirectory + [Slash] + targetDir;
      }
    }

    /** hashCommand (script.js:429-443), running the md5 of the page on the characters' low bytes. */
    method HashCommand(args: seq<JsString>)
      requires Valid()
      modifies this
      ensures Valid() && State() == old(State()).HashCommand(args)
    {
      if |args| == 0 {
        AddOutput(HashUsage);
        return;
      }
      var text := Join(args, Space);
      var hash := ScriptMd5.Md5(LowBytes(text));
      AddOutput(HashOutput(text, hash));
    }

    /** The handler a command names. */
    method Run(c: Command, args: seq<JsString>)
      requires Valid()
      modifies this
      ensures Valid() && State() == old(State()).Run(fileSystem, c, args)
    {
      match c
      case Ls => LsCommand(args);
      case Cat => CatCommand(args);
      case Cd => CdCommand(args);
      case Pwd => AddOutput(Printed(currentDirectory));
      case Clear => output := [];
      case Hash => HashCommand(args);
      case Hint => HintCommand();
      case Submit => SubmitCommand(args);
      case Echo => AddOutput(Printed(Join(args, Space)));
      case _ => AddOutput(StaticText(c));
    }

    /** processCommand (script.js:261-279). */
    method ProcessCommand()
      requires Valid()
      modifies this
      ensures Valid() && State() == old(State()).ProcessCommand(fileSystem)
    {
      var command := Trim(input);
      if command == [] {
        return;
      }
      ghost var shown := State().AddToHistory(command).Show(Prompt(currentDirectory, command));
      AddToHistory(command);
      AddOutput(Prompt(currentDirectory, command));
      assert State() == shown;
      var parts := Split(command, Space);
      var cmd, args := parts[0], parts[1..];
      var handler := CommandOf(cmd);
      if handler.None? {
        AddOutput(CommandNotFound(cmd));
      } else {
        Run(handler.value, args);
      }
      assert State() == shown.Dispatch(fileSystem, cmd, args);
      input := [];
    }
  }
}
