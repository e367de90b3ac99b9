/**
 * What `make_handler` and `make_command` do to `bot.py`: each applies a
 * fixed table of marker replacements to the whole file. Starting from the
 * pristine layout, every sequence of such calls yields `BotFile`, whose
 * imports, command-list and handler-registration pieces record the
 * handlers and commands added so far.
 */
module Registration {
  import opened PyStr
  import opened BotLayout

  /**
   * `for key, value in replace_dict.items(): text = text.replace(key, value)`:
   * the pairs are applied one after another, in dict order.
   */
  function ApplyAll(text: string, pairs: seq<(string, string)>): string
    decreases |pairs|
  {
    if pairs == [] then text
    else
      var last := pairs[|pairs| - 1];
      ReplaceAll(ApplyAll(text, pairs[..|pairs| - 1]), last.0, last.1)
  }

  /** A command as `make_command` receives it. */
  datatype Command = Command(name: string, description: string)

  // ---------------------------------------------------------------------
  // The replacement tables of make_handler and make_command
  // ---------------------------------------------------------------------

  /** `from tgbot.handlers.<name> import register_<name>` */
  function ImportLine(name: string): string
  {
    "from tgbot.handlers." + name + " import register_" + name
  }

  /** `register_<name>(dp)` and the four spaces that precede the re-emitted marker. */
  function HandlerCall(name: string): string
  {
    "register_" + name + "(dp)    "
  }

  /** `BotCommand("<name>", "<description>"),`, a newline and the indentation of the next entry. */
  function CommandEntry(c: Command): string
  {
    "BotCommand(\"" + c.name + "\", \"" + c.description + "\"),\n        "
  }

  /** The table `make_handler` passes to `format_with_replace`. */
  function HandlerReplacements(name: string): seq<(string, string)>
  {
    [(ImportsMarker, ImportLine(name)), (HandlersMarker, HandlerCall(name) + HandlersMarker)]
  }

  /** The table `make_command` passes to `format_with_replace`. */
  function CommandReplacements(c: Command): seq<(string, string)>
  {
    [(CommandsMarker, CommandEntry(c) + CommandsMarker)]
  }

  // ---------------------------------------------------------------------
  // The bot file after some handlers and commands were added
  // ---------------------------------------------------------------------

  /** The imports piece: the marker until the first handler, then that handler's import for good. */
  function ImportsPiece(handlers: seq<string>): string
  {
    if handlers == [] then ImportsMarker else ImportLine(handlers[0])
  }

  function HandlerCalls(handlers: seq<string>): string
  {
    if handlers == [] then "" else HandlerCalls(handlers[..|handlers| - 1]) + HandlerCall(handlers[|handlers| - 1])
  }

  function CommandEntries(commands: seq<Command>): string
  {
    if commands == [] then "" else CommandEntries(commands[..|commands| - 1]) + CommandEntry(commands[|commands| - 1])
  }

  /** The text before the handlers marker on its line. */
  function HandlersPrefix(handlers: seq<string>): string { "    " + HandlerCalls(handlers) }

  /** The command-list body before the commands marker. */
  function CommandsPrefix(commands: seq<Command>): string { "        " + CommandEntries(commands) }

  /** A bot file with parse mode `pm` after `make_handler` for each of `handlers` and `make_command` for each of `commands`. */
  function BotFile(sk: Skeleton, pm: string, handlers: seq<string>, commands: seq<Command>): string
  {
    Unlines(Layout(sk, pm, ImportsPiece(handlers), CommandsPrefix(commands) + CommandsMarker,
                   HandlersPrefix(handlers) + HandlersMarker))
  }

  /** A handler name whose import line and registration calls are clean, so none holds or completes a marker. */
  predicate CleanName(name: string)
  {
    Clean(ImportLine(name)) && Clean(HandlerCall(name)) && Clean(CallLine(name))
  }

  predicate CleanNames(names: seq<string>) { forall i :: 0 <= i < |names| ==> CleanName(names[i]) }

  /** Commands whose `BotCommand` entries are clean, so none holds or completes a marker. */
  predicate CleanCommands(cs: seq<Command>)
  {
    forall i :: 0 <= i < |cs| ==> Clean(CommandEntry(cs[i]))
  }

  // ---------------------------------------------------------------------
  // Properties
  // ---------------------------------------------------------------------

  /** Before any handler or command is added, the bot file is the pristine layout. */
  lemma BotFilePristine(sk: Skeleton, pm: string)
    ensures BotFile(sk, pm, [], []) == Unlines(Layout(sk, pm, PristineImports, PristineCommands, PristineHandlers))
  {
    assert CommandsPrefix([]) + CommandsMarker == PristineCommands;
    assert HandlersPrefix([]) + HandlersMarker == PristineHandlers;
  }

  lemma ApplyOne(text: string, a: (string, string))
    ensures ApplyAll(text, [a]) == ReplaceAll(text, a.0, a.1)
  {
    assert [a][..0] == [];
  }

  lemma ApplyTwo(text: string, a: (string, string), b: (string, string))
    ensures ApplyAll(text, [a, b]) == ReplaceAll(ReplaceAll(text, a.0, a.1), b.0, b.1)
  {
    assert [a, b][..1] == [a];
    ApplyOne(text, a);
  }

  /** A clean name is a clean handler name. */
  lemma NameClean(name: string)
    requires Clean(name)
    ensures CleanName(name)
  {
    CleanWrap("from tgbot.handlers.", name, " import register_");
    CleanConcat("from tgbot.handlers." + name + " import register_", name);
    CleanWrap("register_", name, "(dp)    ");
    CleanWrap("    register_", name, "(dp)");
  }

  lemma {:induction false} HandlerCallsClean(handlers: seq<string>)
    requires CleanNames(handlers)
    ensures Clean(HandlersPrefix(handlers))
    decreases |handlers|
  {
    if handlers == [] {
      PlainClean(HandlersPrefix(handlers));
    } else {
      var init := handlers[..|handlers| - 1];
      var last := handlers[|handlers| - 1];
      HandlerCallsClean(init);
      assert CleanName(last);
      HandlersPrefixSnoc(handlers);
      CleanConcat(HandlersPrefix(init), HandlerCall(last));
    }
  }

  lemma HandlersPrefixSnoc(handlers: seq<string>)
    requires handlers != []
    ensures HandlersPrefix(handlers) == HandlersPrefix(handlers[..|handlers| - 1]) + HandlerCall(handlers[|handlers| - 1])
  {
  }

  lemma {:induction false} CommandEntriesClean(commands: seq<Command>)
    requires CleanCommands(commands)
    ensures Clean(CommandsPrefix(commands))
    decreases |commands|
  {
    if commands == [] {
      PlainClean(CommandsPrefix(commands));
    } else {
      var init := commands[..|commands| - 1];
      var c := commands[|commands| - 1];
      CleanCommandsParts(commands);
      CommandEntriesClean(init);
      CommandsPrefixSnoc(commands);
      CleanConcat(CommandsPrefix(init), CommandEntry(c));
    }
  }

  lemma CleanCommandsParts(commands: seq<Command>)
    requires commands != [] && CleanCommands(commands)
    ensures CleanCommands(commands[..|commands| - 1])
    ensures Clean(CommandEntry(commands[|commands| - 1]))
  {
  }

  lemma CommandsPrefixSnoc(commands: seq<Command>)
    requires commands != []
    ensures CommandsPrefix(commands) == CommandsPrefix(commands[..|commands| - 1]) + CommandEntry(commands[|commands| - 1])
  {
  }

  /** A command with a clean name and a clean description has a clean entry. */
  lemma CommandEntryClean(c: Command)
    requires Clean(c.name) && Clean(c.description)
    ensures Clean(CommandEntry(c))
  {
    var open := "BotCommand(\"";
    var mid := "\", \"";
    var close := "\"),\n        ";
    assert '#' !in open by { assert forall i :: 0 <= i < |open| ==> open[i] != '#'; }
    assert '#' !in close by { assert forall i :: 0 <= i < |close| ==> close[i] != '#'; }
    PlainClean(close);
    CleanWrap(open, c.name, mid);
    CleanConcat(open + c.name + mid, c.description);
    CleanConcat(open + c.name + mid + c.description, close);
  }

  /** The imports piece after the imports replacement of `make_handler` for `name`. */
  lemma ImportsRewrite(handlers: seq<string>, name: string)
    requires CleanNames(handlers)
    ensures ReplaceAll(ImportsPiece(handlers), ImportsMarker, ImportLine(name)) == ImportsPiece(handlers + [name])
  {
    MarkerShape(ImportsMarker);
    if handlers == [] {
      ReplaceWhole(ImportsMarker, ImportLine(name));
    } else {
      assert CleanName(handlers[0]);
      CleanUnchanged(ImportsPiece(handlers), ImportsMarker, ImportLine(name));
    }
  }

  lemma HandlersAppend(handlers: seq<string>, name: string)
    ensures HandlersPrefix(handlers) + (HandlerCall(name) + HandlersMarker) == HandlersPrefix(handlers + [name]) + HandlersMarker
  {
    assert (handlers + [name])[..|handlers|] == handlers;
  }

  lemma CommandsAppend(commands: seq<Command>, c: Command)
    ensures CommandsPrefix(commands) + (CommandEntry(c) + CommandsMarker) == CommandsPrefix(commands + [c]) + CommandsMarker
  {
    assert (commands + [c])[..|commands|] == commands;
  }

  /** The command-list and registration pieces hold no marker but their own. */
  lemma OtherPiecesKept(handlers: seq<string>, commands: seq<Command>, k: string, v: string)
    requires CleanNames(handlers) && CleanCommands(commands) && IsMarker(k)
    ensures k != CommandsMarker ==>
      ReplaceAll(CommandsPrefix(commands) + CommandsMarker, k, v) == CommandsPrefix(commands) + CommandsMarker
    ensures k != HandlersMarker ==>
      ReplaceAll(HandlersPrefix(handlers) + HandlersMarker, k, v) == HandlersPrefix(handlers) + HandlersMarker
  {
    HandlerCallsClean(handlers);
    CommandEntriesClean(commands);
    MarkerLine(CommandsPrefix(commands), CommandsMarker, k, v);
    MarkerLine(HandlersPrefix(handlers), HandlersMarker, k, v);
  }

  /** Once a handler was added, the imports piece holds no marker. */
  lemma ImportsKept(handlers: seq<string>, k: string, v: string)
    requires CleanNames(handlers) && IsMarker(k) && k != ImportsMarker
    ensures ReplaceAll(ImportsPiece(handlers), k, v) == ImportsPiece(handlers)
  {
    MarkerShape(k);
    if handlers == [] {
      MarkerLine("", ImportsMarker, k, v);
      assert "" + ImportsMarker == ImportsPiece(handlers);
    } else {
      assert CleanName(handlers[0]);
      CleanUnchanged(ImportsPiece(handlers), k, v);
    }
  }

  /** The first replacement of `make_handler`: the imports marker. */
  lemma HandlerImportsPass(sk: Skeleton, pm: string, handlers: seq<string>, commands: seq<Command>, name: string)
    requires Sound(sk) && Clean(pm) && CleanNames(handlers) && CleanCommands(commands)
    ensures ReplaceAll(BotFile(sk, pm, handlers, commands), ImportsMarker, ImportLine(name))
         == Unlines(Layout(sk, pm, ImportsPiece(handlers + [name]), CommandsPrefix(commands) + CommandsMarker,
                           HandlersPrefix(handlers) + HandlersMarker))
  {
    MarkerLetters();
    LayoutReplace(sk, pm, ImportsPiece(handlers), CommandsPrefix(commands) + CommandsMarker,
                  HandlersPrefix(handlers) + HandlersMarker, ImportsMarker, ImportLine(name));
    ImportsRewrite(handlers, name);
    OtherPiecesKept(handlers, commands, ImportsMarker, ImportLine(name));
  }

  /** The second replacement of `make_handler`: the handlers marker. */
  lemma HandlerCallsPass(sk: Skeleton, pm: string, handlers: seq<string>, commands: seq<Command>, name: string)
    requires Sound(sk) && Clean(pm) && CleanNames(handlers) && CleanCommands(commands) && CleanName(name)
    ensures ReplaceAll(Unlines(Layout(sk, pm, ImportsPiece(handlers + [name]), CommandsPrefix(commands) + CommandsMarker,
                                      HandlersPrefix(handlers) + HandlersMarker)),
                       HandlersMarker, HandlerCall(name) + HandlersMarker)
         == BotFile(sk, pm, handlers + [name], commands)
  {
    var hv := HandlerCall(name) + HandlersMarker;
    MarkerLetters();
    LayoutReplace(sk, pm, ImportsPiece(handlers + [name]), CommandsPrefix(commands) + CommandsMarker,
                  HandlersPrefix(handlers) + HandlersMarker, HandlersMarker, hv);
    assert CleanNames(handlers + [name]);
    ImportsKept(handlers + [name], HandlersMarker, hv);
    OtherPiecesKept(handlers, commands, HandlersMarker, hv);
    HandlerCallsClean(handlers);
    MarkerLine(HandlersPrefix(handlers), HandlersMarker, HandlersMarker, hv);
    HandlersAppend(handlers, name);
  }

  /**
   * `make_handler(name)` on a bot file: the handler's call is appended to
   * the registration line, and its import takes the imports marker's place
   * only when no handler was added before.
   */
  lemma HandlerStep(sk: Skeleton, pm: string, handlers: seq<string>, commands: seq<Command>, name: string)
    requires Sound(sk) && Clean(pm) && CleanNames(handlers) && CleanCommands(commands) && CleanName(name)
    ensures ApplyAll(BotFile(sk, pm, handlers, commands), HandlerReplacements(name))
         == BotFile(sk, pm, handlers + [name], commands)
  {
    ApplyTwo(BotFile(sk, pm, handlers, commands), (ImportsMarker, ImportLine(name)), (HandlersMarker, HandlerCall(name) + HandlersMarker));
    HandlerImportsPass(sk, pm, handlers, commands, name);
    HandlerCallsPass(sk, pm, handlers, commands, name);
  }

  /**
   * Why the commands must be clean: a description that holds the commands
   * marker gives an entry that is not clean, leaves two markers in the bot
   * file, and the next `make_command` rewrites both.
   */
  lemma MarkerInDescription(sk: Skeleton, pm: string)
    requires Sound(sk) && Clean(pm)
    ensures var c := Command("x", CommandsMarker);
      !CleanCommands([c]) && Count(BotFile(sk, pm, [], [c]), CommandsMarker) == 2
  {
    var c := Command("x", CommandsMarker);
    var cm := CommandsPrefix([c]) + CommandsMarker;
    PlainClean(c.name);
    MarkerDescriptionPiece(c);
    PristineOthersCount();
    LayoutCount(sk, pm, ImportsPiece([]), cm, HandlersPrefix([]) + HandlersMarker, CommandsMarker);
  }

  /** The imports and handlers pieces of a bot file without handlers hold no commands marker. */
  lemma PristineOthersCount()
    ensures Count(ImportsPiece([]), CommandsMarker) == 0
    ensures Count(HandlersPrefix([]) + HandlersMarker, CommandsMarker) == 0
  {
    MarkerLetters();
    MarkerLineCount("", ImportsMarker, CommandsMarker);
    assert "" + ImportsMarker == ImportsMarker;
    PlainClean(HandlersPrefix([]));
    MarkerLineCount(HandlersPrefix([]), HandlersMarker, CommandsMarker);
  }

  /** A `#` that does not begin a marker is harmless: a later `make_command` still just appends. */
  lemma HashInDescription(sk: Skeleton, pm: string, d: Command)
    requires Sound(sk) && Clean(pm)
    ensures var c := Command("fix", "Fix item #5");
      ApplyAll(BotFile(sk, pm, [], [c]), CommandReplacements(d)) == BotFile(sk, pm, [], [c, d])
  {
    var c := Command("fix", "Fix item #5");
    FixItemClean();
    PlainClean(c.name);
    CommandEntryClean(c);
    assert CleanCommands([c]);
    CommandStep(sk, pm, [], [c], d);
    assert [c] + [d] == [c, d];
  }

  /**
   * A description ending in `#` is not clean itself, but its entry is, since
   * `")` follows it: a later `make_command` still just appends.
   */
  lemma HashAtEndOfDescription(sk: Skeleton, pm: string, d: Command)
    requires Sound(sk) && Clean(pm)
    ensures var c := Command("cs", "Learn C#");
      !Clean(c.description) &&
      ApplyAll(BotFile(sk, pm, [], [c]), CommandReplacements(d)) == BotFile(sk, pm, [], [c, d])
  {
    var c := Command("cs", "Learn C#");
    LearnCSharp();
    assert CleanCommands([c]);
    CommandStep(sk, pm, [], [c], d);
    assert [c] + [d] == [c, d];
  }

  lemma LearnCSharp()
    ensures !Clean("Learn C#") && Clean(CommandEntry(Command("cs", "Learn C#")))
  {
    var t := "Learn C#";
    assert t[7..] == "#" && Stem[..1] == "#";
    var head := "BotCommand(\"" + "cs" + "\", \"" + "Learn C";
    var tail := "#" + "\"),\n        ";
    assert '#' !in head;
    PlainClean(head);
    HashQuoteClean(tail);
    CleanConcat(head, tail);
    assert CommandEntry(Command("cs", "Learn C#")) == head + tail;
  }

  /** A `#` followed by a quote starts no marker. */
  lemma HashQuoteClean(s: string)
    requires s == "#" + "\"),\n        "
    ensures Clean(s)
  {
    forall i | 0 <= i < |s| && s[i] == '#' ensures !StemStart(s[i..]) {
      assert s[i..][1] != Stem[1];
    }
  }

  lemma FixItemClean()
    ensures Clean("Fix item #5")
  {
    var t := "Fix item #5";
    forall i | 0 <= i < |t| && t[i] == '#' ensures !StemStart(t[i..]) {
      assert t[i..][1] != Stem[1];
    }
  }

  lemma MarkerDescriptionPiece(c: Command)
    requires Clean(c.name) && c.description == CommandsMarker
    ensures !Clean(CommandEntry(c))
    ensures Count(CommandsPrefix([c]) + CommandsMarker, CommandsMarker) == 2
  {
    MarkerInside("BotCommand(\"" + c.name + "\", \"", CommandsMarker, "\"),\n        ");
    EntryRegroup(c, CommandsMarker);
    EntryOpenClean(c.name);
    MarkerTwice("        " + "BotCommand(\"" + c.name + "\", \"", "\"),\n        ");
  }

  lemma EntryOpenClean(name: string)
    requires Clean(name)
    ensures Clean("        " + "BotCommand(\"" + name + "\", \"")
    ensures '#' !in "\"),\n        "
  {
    CleanWrap("        " + "BotCommand(\"", name, "\", \"");
  }

  /** Text that holds a marker is not clean. */
  lemma MarkerInside(a: string, k: string, b: string)
    requires IsMarker(k)
    ensures !Clean(a + k + b)
  {
    var s := a + k + b;
    MarkerStem(k);
    assert s[|a|..] == k + b;
    assert s[|a|..][..|Stem|] == k[..|Stem|];
    assert s[|a|] == k[0] == Stem[0];
  }

  /** A one-command list around its description. */
  lemma EntryRegroup(c: Command, k: string)
    ensures CommandsPrefix([c]) + k
         == ("        " + "BotCommand(\"" + c.name + "\", \"") + (c.description + ("\"),\n        " + k))
  {
    CommandsPrefixOne(c);
  }

  lemma CommandsPrefixOne(c: Command)
    ensures CommandsPrefix([c]) == "        " + CommandEntry(c)
  {
    assert [c][..0] == [];
    assert CommandEntries([c]) == "" + CommandEntry(c);
  }

  /** A marker between two clean texts, then the marker again: two matches. */
  lemma MarkerTwice(open: string, close: string)
    requires Clean(open) && '#' !in close
    ensures Count(open + (CommandsMarker + (close + CommandsMarker)), CommandsMarker) == 2
  {
    var rest := CommandsMarker + (close + CommandsMarker);
    CleanSkip(open, rest, CommandsMarker, "");
    PlainClean(close);
    MarkerLineCount(close, CommandsMarker, CommandsMarker);
    assert rest[..|CommandsMarker|] == CommandsMarker;
    assert rest[|CommandsMarker|..] == close + CommandsMarker;
  }

  /** `make_command(c)` on a bot file: the command's entry is appended to the command list. */
  lemma CommandStep(sk: Skeleton, pm: string, handlers: seq<string>, commands: seq<Command>, c: Command)
    requires Sound(sk) && Clean(pm) && CleanNames(handlers) && CleanCommands(commands)
    ensures ApplyAll(BotFile(sk, pm, handlers, commands), CommandReplacements(c))
         == BotFile(sk, pm, handlers, commands + [c])
  {
    var cv := CommandEntry(c) + CommandsMarker;
    ApplyOne(BotFile(sk, pm, handlers, commands), (CommandsMarker, cv));
    MarkerLetters();
    LayoutReplace(sk, pm, ImportsPiece(handlers), CommandsPrefix(commands) + CommandsMarker,
                  HandlersPrefix(handlers) + HandlersMarker, CommandsMarker, cv);
    ImportsKept(handlers, CommandsMarker, cv);
    OtherPiecesKept(handlers, commands, CommandsMarker, cv);
    CommandEntriesClean(commands);
    MarkerLine(CommandsPrefix(commands), CommandsMarker, CommandsMarker, cv);
    CommandsAppend(commands, c);
  }

  // ---------------------------------------------------------------------
  // Marker counts
  // ---------------------------------------------------------------------

  lemma ImportsCount(handlers: seq<string>, k: string)
    requires CleanNames(handlers) && IsMarker(k)
    ensures Count(ImportsPiece(handlers), k) == if handlers == [] && k == ImportsMarker then 1 else 0
  {
    if handlers == [] {
      MarkerLineCount("", ImportsMarker, k);
      assert "" + ImportsMarker == ImportsPiece(handlers);
    } else {
      MarkerShape(k);
      assert CleanName(handlers[0]);
      CleanUnchanged(ImportsPiece(handlers), k, "");
    }
  }

  /**
   * Every marker but the imports marker occurs exactly once in a bot file,
   * however many handlers and commands were added; the imports marker is
   * gone as soon as one handler was added.
   */
  lemma BotFileMarkers(sk: Skeleton, pm: string, handlers: seq<string>, commands: seq<Command>, k: string)
    requires Sound(sk) && Clean(pm) && CleanNames(handlers) && CleanCommands(commands) && IsMarker(k)
    ensures Count(BotFile(sk, pm, handlers, commands), k) == if k == ImportsMarker && handlers != [] then 0 else 1
  {
    LayoutCount(sk, pm, ImportsPiece(handlers), CommandsPrefix(commands) + CommandsMarker,
                HandlersPrefix(handlers) + HandlersMarker, k);
    ImportsCount(handlers, k);
    HandlerCallsClean(handlers);
    CommandEntriesClean(commands);
    MarkerLineCount(CommandsPrefix(commands), CommandsMarker, k);
    MarkerLineCount(HandlersPrefix(handlers), HandlersMarker, k);
    MarkerLetters();
  }

  // ---------------------------------------------------------------------
  // As written: later handlers are not imported, calls share one line
  // ---------------------------------------------------------------------

  /**
   * Once a handler was added, a later `make_handler` leaves the imports
   * piece as it was: the new handler is registered but never imported.
   */
  lemma LaterImportLost(handlers: seq<string>, name: string)
    requires handlers != []
    ensures ImportsPiece(handlers + [name]) == ImportsPiece(handlers) == ImportLine(handlers[0])
    ensures HandlerCalls(handlers + [name]) == HandlerCalls(handlers) + HandlerCall(name)
  {
    assert (handlers + [name])[..|handlers|] == handlers;
  }

  lemma {:induction false} CallsNoNewline(handlers: seq<string>)
    requires forall i :: 0 <= i < |handlers| ==> '\n' !in handlers[i]
    ensures '\n' !in HandlerCalls(handlers)
    decreases |handlers|
  {
    if handlers != [] {
      var name := handlers[|handlers| - 1];
      CallsNoNewline(handlers[..|handlers| - 1]);
      assert '\n' !in name;
      assert HandlerCall(name) == "register_" + name + "(dp)    ";
    }
  }

  /** All registration calls land on the marker's line: the registration piece holds no newline. */
  lemma CallsOnOneLine(handlers: seq<string>)
    requires forall i :: 0 <= i < |handlers| ==> '\n' !in handlers[i]
    ensures '\n' !in HandlersPrefix(handlers) + HandlersMarker
  {
    CallsNoNewline(handlers);
    MarkerShape(HandlersMarker);
  }

  lemma TwoCalls(a: string, b: string)
    ensures HandlersPrefix([a, b]) == "    " + HandlerCall(a) + HandlerCall(b)
    ensures ImportsPiece([a, b]) == ImportLine(a)
  {
    assert [a, b][..1] == [a];
    assert [a][..0] == [];
    var x, y := HandlerCall(a), HandlerCall(b);
    assert HandlerCalls([a]) == x;
    assert HandlerCalls([a, b]) == x + y;
    assert "    " + (x + y) == "    " + x + y;
  }

  /**
   * `make_handler(a)` and then `make_handler(b)` on a fresh bot file: only
   * `a` is imported, and both calls share the marker's line.
   */
  lemma SecondHandlerNotImported(sk: Skeleton, pm: string, a: string, b: string)
    requires Sound(sk) && Clean(pm) && CleanName(a) && CleanName(b)
    ensures ApplyAll(ApplyAll(Unlines(Layout(sk, pm, PristineImports, PristineCommands, PristineHandlers)),
                              HandlerReplacements(a)), HandlerReplacements(b))
         == Unlines(Layout(sk, pm, ImportLine(a), PristineCommands,
                           "    " + HandlerCall(a) + HandlerCall(b) + HandlersMarker))
  {
    BotFilePristine(sk, pm);
    HandlerStep(sk, pm, [], [], a);
    assert [] + [a] == [a];
    HandlerStep(sk, pm, [a], [], b);
    assert [a] + [b] == [a, b];
    TwoCalls(a, b);
    assert CommandsPrefix([]) + CommandsMarker == PristineCommands;
  }

  // ---------------------------------------------------------------------
  // Corrected tables: both markers re-emitted on a line of their own
  // ---------------------------------------------------------------------

  /** `    register_<name>(dp)`: one registration call on its own line. */
  function CallLine(name: string): string { "    register_" + name + "(dp)" }

  /** The table with the imports marker re-emitted and each call ending its line. */
  function FixedHandlerReplacements(name: string): seq<(string, string)>
  {
    [(ImportsMarker, ImportLine(name) + "\n" + ImportsMarker),
     (HandlersMarker, "register_" + name + "(dp)\n    " + HandlersMarker)]
  }

  function ImportLines(handlers: seq<string>): (ls: seq<string>)
    ensures |ls| == |handlers|
  {
    if handlers == [] then [] else ImportLines(handlers[..|handlers| - 1]) + [ImportLine(handlers[|handlers| - 1])]
  }

  function CallLines(handlers: seq<string>): (ls: seq<string>)
    ensures |ls| == |handlers|
  {
    if handlers == [] then [] else CallLines(handlers[..|handlers| - 1]) + [CallLine(handlers[|handlers| - 1])]
  }

  /** With the corrected tables: one import line per handler, then the marker line. */
  function FixedImportsPiece(handlers: seq<string>): string
  {
    Unlines(ImportLines(handlers) + [ImportsMarker])
  }

  /** With the corrected tables: one call line per handler, then the marker line. */
  function FixedHandlersPiece(handlers: seq<string>): string
  {
    Unlines(CallLines(handlers) + ["    " + HandlersMarker])
  }

  function FixedBotFile(sk: Skeleton, pm: string, handlers: seq<string>, commands: seq<Command>): string
  {
    Unlines(Layout(sk, pm, FixedImportsPiece(handlers), CommandsPrefix(commands) + CommandsMarker,
                   FixedHandlersPiece(handlers)))
  }

  lemma FixedPristine(sk: Skeleton, pm: string)
    ensures FixedBotFile(sk, pm, [], []) == Unlines(Layout(sk, pm, PristineImports, PristineCommands, PristineHandlers))
  {
    assert ImportLines([]) + [ImportsMarker] == [ImportsMarker];
    assert CallLines([]) + ["    " + HandlersMarker] == ["    " + HandlersMarker];
    assert CommandsPrefix([]) + CommandsMarker == PristineCommands;
  }

  lemma {:induction false} ImportLinesClean(handlers: seq<string>)
    requires CleanNames(handlers)
    ensures forall i :: 0 <= i < |handlers| ==> Clean(ImportLines(handlers)[i])
    decreases |handlers|
  {
    if handlers != [] {
      ImportLinesClean(handlers[..|handlers| - 1]);
      assert CleanName(handlers[|handlers| - 1]);
    }
  }

  lemma {:induction false} CallLinesClean(handlers: seq<string>)
    requires CleanNames(handlers)
    ensures forall i :: 0 <= i < |handlers| ==> Clean(CallLines(handlers)[i])
    decreases |handlers|
  {
    if handlers != [] {
      CallLinesClean(handlers[..|handlers| - 1]);
      assert CleanName(handlers[|handlers| - 1]);
    }
  }

  /** Replacing a marker in clean lines followed by one last line: only the last line can change. */
  lemma LastLineReplace(ls: seq<string>, last: string, k: string, v: string)
    requires forall i :: 0 <= i < |ls| ==> Clean(ls[i])
    requires IsMarker(k)
    ensures ReplaceAll(Unlines(ls + [last]), k, v) == Unlines(ls + [ReplaceAll(last, k, v)])
  {
    var xs := ls + [last];
    var ys := ls + [ReplaceAll(last, k, v)];
    MarkerShape(k);
    forall i | 0 <= i < |xs| ensures ReplaceAll(xs[i], k, v) == ys[i] {
      if i < |ls| {
        assert xs[i] == ls[i];
        CleanUnchanged(ls[i], k, v);
      }
    }
    ReplaceLines(xs, ys, k, v);
  }

  /** A last line holding a newline is two lines. */
  lemma UnlinesSplitLast(ls: seq<string>, a: string, b: string)
    ensures Unlines(ls + [a + "\n" + b]) == Unlines(ls + [a, b])
  {
    assert [a, b][1..] == [b];
    assert Join([a, b], '\n') == a + ['\n'] + b;
    if ls != [] {
      UnlinesAppend(ls, [a + "\n" + b]);
      UnlinesAppend(ls, [a, b]);
    } else {
      assert ls + [a + "\n" + b] == [a + "\n" + b];
      assert ls + [a, b] == [a, b];
      assert [a, b][1..] == [b];
      assert Join([a, b], '\n') == a + ['\n'] + b;
    }
  }

  lemma FixedImportsRewrite(handlers: seq<string>, name: string)
    requires CleanNames(handlers) && CleanName(name)
    ensures ReplaceAll(FixedImportsPiece(handlers), ImportsMarker, ImportLine(name) + "\n" + ImportsMarker)
         == FixedImportsPiece(handlers + [name])
  {
    var v := ImportLine(name) + "\n" + ImportsMarker;
    ImportLinesClean(handlers);
    LastLineReplace(ImportLines(handlers), ImportsMarker, ImportsMarker, v);
    MarkerShape(ImportsMarker);
    ReplaceWhole(ImportsMarker, v);
    UnlinesSplitLast(ImportLines(handlers), ImportLine(name), ImportsMarker);
    assert (handlers + [name])[..|handlers|] == handlers;
    assert ImportLines(handlers) + [ImportLine(name), ImportsMarker]
        == ImportLines(handlers + [name]) + [ImportsMarker];
  }

  lemma FixedCallsRewrite(handlers: seq<string>, name: string)
    requires CleanNames(handlers) && CleanName(name)
    ensures ReplaceAll(FixedHandlersPiece(handlers), HandlersMarker, "register_" + name + "(dp)\n    " + HandlersMarker)
         == FixedHandlersPiece(handlers + [name])
  {
    var v := "register_" + name + "(dp)\n    " + HandlersMarker;
    CallLinesClean(handlers);
    LastLineReplace(CallLines(handlers), "    " + HandlersMarker, HandlersMarker, v);
    MarkerLine("    ", HandlersMarker, HandlersMarker, v);
    CallLineSplit(name);
    UnlinesSplitLast(CallLines(handlers), CallLine(name), "    " + HandlersMarker);
    assert (handlers + [name])[..|handlers|] == handlers;
    assert CallLines(handlers) + [CallLine(name), "    " + HandlersMarker]
        == CallLines(handlers + [name]) + ["    " + HandlersMarker];
  }

  lemma CallLineSplit(name: string)
    ensures "    " + ("register_" + name + "(dp)\n    " + HandlersMarker) == CallLine(name) + "\n" + ("    " + HandlersMarker)
  {
    var x, y := "    register_" + name, HandlersMarker;
    assert "    " + ("register_" + name + "(dp)\n    " + y) == x + "(dp)\n    " + y;
    assert x + "(dp)\n    " + y == (x + "(dp)") + "\n" + ("    " + y);
  }

  /** The corrected pieces hold no marker but their own. */
  lemma FixedPiecesKept(handlers: seq<string>, k: string, v: string)
    requires CleanNames(handlers) && IsMarker(k)
    ensures k != ImportsMarker ==> ReplaceAll(FixedImportsPiece(handlers), k, v) == FixedImportsPiece(handlers)
    ensures k != HandlersMarker ==> ReplaceAll(FixedHandlersPiece(handlers), k, v) == FixedHandlersPiece(handlers)
  {
    ImportLinesClean(handlers);
    CallLinesClean(handlers);
    LastLineReplace(ImportLines(handlers), ImportsMarker, k, v);
    LastLineReplace(CallLines(handlers), "    " + HandlersMarker, k, v);
    MarkerLine("", ImportsMarker, k, v);
    assert "" + ImportsMarker == ImportsMarker;
    MarkerLine("    ", HandlersMarker, k, v);
  }

  lemma FixedImportsPass(sk: Skeleton, pm: string, handlers: seq<string>, commands: seq<Command>, name: string)
    requires Sound(sk) && Clean(pm) && CleanNames(handlers) && CleanCommands(commands) && CleanName(name)
    ensures ReplaceAll(FixedBotFile(sk, pm, handlers, commands), ImportsMarker, ImportLine(name) + "\n" + ImportsMarker)
         == Unlines(Layout(sk, pm, FixedImportsPiece(handlers + [name]), CommandsPrefix(commands) + CommandsMarker,
                           FixedHandlersPiece(handlers)))
  {
    var v := ImportLine(name) + "\n" + ImportsMarker;
    MarkerLetters();
    LayoutReplace(sk, pm, FixedImportsPiece(handlers), CommandsPrefix(commands) + CommandsMarker,
                  FixedHandlersPiece(handlers), ImportsMarker, v);
    FixedImportsRewrite(handlers, name);
    FixedPiecesKept(handlers, ImportsMarker, v);
    OtherPiecesKept(handlers, commands, ImportsMarker, v);
  }

  lemma FixedCallsPass(sk: Skeleton, pm: string, handlers: seq<string>, commands: seq<Command>, name: string)
    requires Sound(sk) && Clean(pm) && CleanNames(handlers) && CleanCommands(commands) && CleanName(name)
    ensures ReplaceAll(Unlines(Layout(sk, pm, FixedImportsPiece(handlers + [name]), CommandsPrefix(commands) + CommandsMarker,
                                      FixedHandlersPiece(handlers))),
                       HandlersMarker, "register_" + name + "(dp)\n    " + HandlersMarker)
         == FixedBotFile(sk, pm, handlers + [name], commands)
  {
    var v := "register_" + name + "(dp)\n    " + HandlersMarker;
    MarkerLetters();
    LayoutReplace(sk, pm, FixedImportsPiece(handlers + [name]), CommandsPrefix(commands) + CommandsMarker,
                  FixedHandlersPiece(handlers), HandlersMarker, v);
    assert CleanNames(handlers + [name]);
    FixedPiecesKept(handlers + [name], HandlersMarker, v);
    FixedCallsRewrite(handlers, name);
    OtherPiecesKept(handlers, commands, HandlersMarker, v);
  }

  /**
   * With the corrected table, `make_handler(name)` adds the handler's import
   * line above the imports marker and its call line above the handlers
   * marker, and keeps both markers for the next handler.
   */
  lemma FixedHandlerStep(sk: Skeleton, pm: string, handlers: seq<string>, commands: seq<Command>, name: string)
    requires Sound(sk) && Clean(pm) && CleanNames(handlers) && CleanCommands(commands) && CleanName(name)
    ensures ApplyAll(FixedBotFile(sk, pm, handlers, commands), FixedHandlerReplacements(name))
         == FixedBotFile(sk, pm, handlers + [name], commands)
  {
    ApplyTwo(FixedBotFile(sk, pm, handlers, commands),
             (ImportsMarker, ImportLine(name) + "\n" + ImportsMarker),
             (HandlersMarker, "register_" + name + "(dp)\n    " + HandlersMarker));
    FixedImportsPass(sk, pm, handlers, commands, name);
    FixedCallsPass(sk, pm, handlers, commands, name);
  }

  /** Clean lines and one marker line: the marker line's count is the block's. */
  lemma LastLineCount(ls: seq<string>, last: string, k: string)
    requires forall i :: 0 <= i < |ls| ==> Clean(ls[i])
    requires IsMarker(k)
    ensures Count(Unlines(ls + [last]), k) == Count(last, k)
  {
    if ls != [] {
      UnlinesAppend(ls, [last]);
      assert Unlines([last]) == last;
      CleanUnlines(ls);
      CleanBlockCount(Unlines(ls), last, k);
    } else {
      assert ls + [last] == [last];
    }
  }

  lemma CleanBlockCount(block: string, last: string, k: string)
    requires Clean(block) && IsMarker(k)
    ensures Count(block + "\n" + last, k) == Count(last, k)
  {
    PlainClean("\n");
    CleanConcat(block, "\n");
    CleanSkip(block + "\n", last, k, "");
  }

  /** With the corrected table every marker occurs exactly once, however many handlers were added. */
  lemma FixedMarkers(sk: Skeleton, pm: string, handlers: seq<string>, commands: seq<Command>, k: string)
    requires Sound(sk) && Clean(pm) && CleanNames(handlers) && CleanCommands(commands) && IsMarker(k)
    ensures Count(FixedBotFile(sk, pm, handlers, commands), k) == 1
  {
    LayoutCount(sk, pm, FixedImportsPiece(handlers), CommandsPrefix(commands) + CommandsMarker,
                FixedHandlersPiece(handlers), k);
    ImportLinesClean(handlers);
    CallLinesClean(handlers);
    LastLineCount(ImportLines(handlers), ImportsMarker, k);
    LastLineCount(CallLines(handlers), "    " + HandlersMarker, k);
    MarkerLineCount("", ImportsMarker, k);
    assert "" + ImportsMarker == ImportsMarker;
    MarkerLineCount("    ", HandlersMarker, k);
    CommandEntriesClean(commands);
    MarkerLineCount(CommandsPrefix(commands), CommandsMarker, k);
    MarkerLetters();
  }

  lemma {:induction false} CallLinesNoNewline(handlers: seq<string>)
    requires forall i :: 0 <= i < |handlers| ==> '\n' !in handlers[i]
    ensures forall i :: 0 <= i < |handlers| ==> '\n' !in CallLines(handlers)[i]
    decreases |handlers|
  {
    if handlers != [] {
      var name := handlers[|handlers| - 1];
      CallLinesNoNewline(handlers[..|handlers| - 1]);
      assert '\n' !in name;
      assert CallLine(name) == "    register_" + name + "(dp)";
    }
  }

  lemma {:induction false} ImportLinesNoNewline(handlers: seq<string>)
    requires forall i :: 0 <= i < |handlers| ==> '\n' !in handlers[i]
    ensures forall i :: 0 <= i < |handlers| ==> '\n' !in ImportLines(handlers)[i]
    decreases |handlers|
  {
    if handlers != [] {
      var name := handlers[|handlers| - 1];
      ImportLinesNoNewline(handlers[..|handlers| - 1]);
      assert '\n' !in name;
      assert ImportLine(name) == "from tgbot.handlers." + name + " import register_" + name;
    }
  }

  /**
   * With the corrected table the handler pieces read back line by line:
   * one import per handler and one call per handler, in the order they
   * were added, each followed by its marker line.
   */
  lemma FixedOneLineEach(handlers: seq<string>)
    requires forall i :: 0 <= i < |handlers| ==> '\n' !in handlers[i]
    ensures Split(FixedImportsPiece(handlers), '\n') == ImportLines(handlers) + [ImportsMarker]
    ensures Split(FixedHandlersPiece(handlers), '\n') == CallLines(handlers) + ["    " + HandlersMarker]
  {
    ImportLinesNoNewline(handlers);
    CallLinesNoNewline(handlers);
    MarkerShape(ImportsMarker);
    MarkerShape(HandlersMarker);
    SplitLines(ImportLines(handlers), ImportsMarker);
    SplitLines(CallLines(handlers), "    " + HandlersMarker);
  }

  lemma SplitLines(ls: seq<string>, last: string)
    requires forall i :: 0 <= i < |ls| ==> '\n' !in ls[i]
    requires '\n' !in last
    ensures Split(Unlines(ls + [last]), '\n') == ls + [last]
  {
    var xs := ls + [last];
    forall i | 0 <= i < |xs| ensures '\n' !in xs[i] {
      if i < |ls| {
        assert xs[i] == ls[i];
      }
    }
    SplitJoin(xs, '\n');
  }
}
