/**
 * The `aiogram_boost` command line: `startproject` and the `new` commands
 * that reach a builder, each with the guard it checks before acting. The
 * answers to Click's prompts are parameters; a guard that echoes a message
 * and returns becomes a `Refused` reply that leaves the tree alone.
 */
module Cli {
  import opened Wrappers
  import opened PyFormat
  import opened FileTree
  import opened Utils
  import opened BotLayout
  import opened Registration
  import opened BotTemplate
  import opened Create
  import opened CreateProps

  /** The choices of the parse-mode prompt, spelled as offered (`Markdowv` included). */
  datatype ParseMode = HTML | Markdowv | MarkdownV2

  /** The string Click hands back for a choice, whatever case the user typed. */
  function ModeName(m: ParseMode): string
  {
    match m
    case HTML => "HTML"
    case Markdowv => "Markdowv"
    case MarkdownV2 => "MarkdownV2"
  }

  /** Why a command echoes a message and returns without calling a builder. */
  datatype Refusal =
    | NotEmpty(path: Path)         // "<path> directory is not empty"
    | NotADir(path: Path)          // "<path> is not a directory"
    | AlreadyExists(name: string)  // "<name> already exists"

  datatype Reply = Refused(reason: Refusal) | Finished

  /** A builder's run as the reply of the command that called it. */
  function Answered<T>(r: Run<T>): Run<Reply>
  {
    match r
    case Ran(_, t) => Ran(Finished, t)
    case Raised(e, t) => Raised(e, t)
  }

  // ---------------------------------------------------------------------
  // The commands, on a tree
  // ---------------------------------------------------------------------

  /**
   * `startproject path`: refuse a non-empty directory or a non-directory;
   * otherwise create the directory when it is missing, then the project.
   */
  function StartprojectRun(t: Tree, tm: Templates, p: Path, mode: ParseMode, useRedis: bool, useDb: bool): Run<Reply>
  {
    if Exists(t, p) && IsDir(t, p) && !IsDirEmpty(t, p) then Ran(Refused(NotEmpty(p)), t)
    else if Exists(t, p) && !IsDir(t, p) then Ran(Refused(NotADir(p)), t)
    else if Exists(t, p) then Answered(ProjectCreated(t, tm, p, useRedis, useDb, Str(ModeName(mode))))
    else match FolderCreated(t, p)
      case Raised(e, t1) => Raised(e, t1)
      case Ran(_, t1) => Answered(ProjectCreated(t1, tm, p, useRedis, useDb, Str(ModeName(mode))))
  }

  /** The file `new handler` looks for before calling `make_handler`. */
  function HandlerProbe(p: Path, name: string): Path { HandlersDir(p) + [HandlerFileName(name)] }

  /** The file `new state` looks for before calling `make_state`. */
  function StateProbe(p: Path, name: string): Path { p + [Tgbot, "misc", StateFileName(name)] }

  /** `new handler name path --type kind`. */
  function NewHandlerRun(t: Tree, tm: Templates, p: Path, name: string, kind: string): Run<Reply>
  {
    if Exists(t, HandlerProbe(p, name)) then Ran(Refused(AlreadyExists(name)), t)
    else Answered(HandlerMade(t, tm, p, name, kind))
  }

  /** `new state name path`. */
  function NewStateRun(t: Tree, tm: Templates, p: Path, name: string): Run<Reply>
  {
    if Exists(t, StateProbe(p, name)) then Ran(Refused(AlreadyExists(name)), t)
    else Answered(StateMade(t, tm, p, name))
  }

  /** `new keyboard name path [--inline]`: no guard. */
  function NewKeyboardRun(t: Tree, tm: Templates, p: Path, inline: bool, name: string): Run<Reply>
  {
    Answered(KeyboardMade(t, tm, p, inline, name))
  }

  /** `new command name description path`: no guard. */
  function NewCommandRun(t: Tree, p: Path, name: string, description: string): Run<Reply>
  {
    Answered(CommandMade(t, p, Command(name, description)))
  }

  // ---------------------------------------------------------------------
  // The commands, on the file system
  // ---------------------------------------------------------------------

  /** `startproject`; the prompts' answers are the parameters, `createVenv` is never read. */
  method Startproject(fs: FileSystem, p: Path, mode: ParseMode, useRedis: bool, useDb: bool, createVenv: bool)
    returns (r: Result<Reply, Error>)
    modifies fs
    ensures AsRun(r, fs.entries) == StartprojectRun(old(fs.entries), fs.templates, p, mode, useRedis, useDb)
  {
    if Exists(fs.entries, p) {
      if IsDir(fs.entries, p) {
        if !IsDirEmpty(fs.entries, p) {
          return Success(Refused(NotEmpty(p)));
        }
      } else {
        return Success(Refused(NotADir(p)));
      }
    }
    if !Exists(fs.entries, p) {
      var _ :- fs.CreateFolder(p);
    }
    var _ :- fs.CreateAllProjectFile(p, useRedis, useDb, createVenv, Str(ModeName(mode)));
    return Success(Finished);
  }

  method NewHandler(fs: FileSystem, p: Path, name: string, kind: string) returns (r: Result<Reply, Error>)
    modifies fs
    ensures AsRun(r, fs.entries) == NewHandlerRun(old(fs.entries), fs.templates, p, name, kind)
  {
    if Exists(fs.entries, HandlerProbe(p, name)) {
      return Success(Refused(AlreadyExists(name)));
    }
    var _ :- fs.MakeHandler(p, name, kind);
    return Success(Finished);
  }

  method NewState(fs: FileSystem, p: Path, name: string) returns (r: Result<Reply, Error>)
    modifies fs
    ensures AsRun(r, fs.entries) == NewStateRun(old(fs.entries), fs.templates, p, name)
  {
    if Exists(fs.entries, StateProbe(p, name)) {
      return Success(Refused(AlreadyExists(name)));
    }
    var _ :- fs.MakeState(p, name);
    return Success(Finished);
  }

  method NewKeyboard(fs: FileSystem, p: Path, inline: bool, name: string) returns (r: Result<Reply, Error>)
    modifies fs
    ensures AsRun(r, fs.entries) == NewKeyboardRun(old(fs.entries), fs.templates, p, inline, name)
  {
    var _ :- fs.MakeKeyboard(p, inline, name);
    return Success(Finished);
  }

  method NewCommand(fs: FileSystem, p: Path, name: string, description: string) returns (r: Result<Reply, Error>)
    modifies fs
    ensures AsRun(r, fs.entries) == NewCommandRun(old(fs.entries), p, name, description)
  {
    var _ :- fs.MakeCommand(p, name, description);
    return Success(Finished);
  }

  // ---------------------------------------------------------------------
  // Properties
  // ---------------------------------------------------------------------

  /**
   * `startproject` refuses exactly an existing path that is a file or a
   * non-empty directory, and a refusal changes nothing.
   */
  lemma StartprojectRefusal(t: Tree, tm: Templates, p: Path, mode: ParseMode, useRedis: bool, useDb: bool)
    ensures var r := StartprojectRun(t, tm, p, mode, useRedis, useDb);
      (r.Ran? && r.value.Refused?) <==> Exists(t, p) && (!IsDir(t, p) || !IsDirEmpty(t, p))
    ensures var r := StartprojectRun(t, tm, p, mode, useRedis, useDb);
      r.Ran? && r.value.Refused? ==>
        r.tree == t && r.value.reason == (if IsDir(t, p) then NotEmpty(p) else NotADir(p))
  {
  }

  /** A path missing from a well-formed tree has nothing below it. */
  lemma MissingHasNothingBelow(t: Tree, p: Path)
    requires WellFormed(t) && p != [] && p !in t
    ensures forall q :: q in t ==> !Below(q, p)
  {
    forall q | q in t && Below(q, p)
      ensures false
    {
      AncestorPresent(t, q, |p|);
    }
  }

  /** Adding the directory itself keeps everything below it absent. */
  lemma NewDirHasNothingBelow(t: Tree, p: Path)
    requires WellFormed(t) && p != [] && p !in t
    ensures forall q :: q in t[p := Dir] ==> !Below(q, p)
  {
    MissingHasNothingBelow(t, p);
  }

  /**
   * `startproject` on an empty directory, with templates that render:
   * it finishes with exactly the project's manifest added.
   */
  lemma StartprojectInEmptyDir(t: Tree, tm: Templates, p: Path, mode: ParseMode, useRedis: bool, useDb: bool)
    requires WellFormed(t) && IsDir(t, p) && IsDirEmpty(t, p)
    requires TemplatesRender(tm, useRedis, useDb, Str(ModeName(mode)))
    ensures StartprojectRun(t, tm, p, mode, useRedis, useDb) ==
      Ran(Finished, ProjectTree(t, p, Render(tm["env.env"], EnvBindings(useRedis)).value,
                                Render(tm["requirements.txt"], RequirementsBindings(useRedis, useDb)).value,
                                Render(tm["bot.py"], BotBindings(Str(ModeName(mode)))).value, tm["config.py"]))
  {
    EmptyHasNothingBelow(t, p);
    ProjectFresh(t, tm, p, useRedis, useDb, Str(ModeName(mode)));
  }

  /**
   * `startproject` on a missing path whose parent is a directory: the
   * directory is created, then the project's manifest inside it.
   */
  lemma StartprojectInMissingDir(t: Tree, tm: Templates, p: Path, mode: ParseMode, useRedis: bool, useDb: bool)
    requires WellFormed(t) && p != [] && p !in t && IsDir(t, Parent(p))
    requires TemplatesRender(tm, useRedis, useDb, Str(ModeName(mode)))
    ensures StartprojectRun(t, tm, p, mode, useRedis, useDb) ==
      Ran(Finished, ProjectTree(t[p := Dir], p, Render(tm["env.env"], EnvBindings(useRedis)).value,
                                Render(tm["requirements.txt"], RequirementsBindings(useRedis, useDb)).value,
                                Render(tm["bot.py"], BotBindings(Str(ModeName(mode)))).value, tm["config.py"]))
  {
    MkdirSpec(t, p);
    NewDirHasNothingBelow(t, p);
    ProjectFresh(t[p := Dir], tm, p, useRedis, useDb, Str(ModeName(mode)));
  }

  /** The manifest keeps the project directory and holds the package directory. */
  lemma ProjectTreeDirs(t: Tree, p: Path, env: string, requirements: string, bot: string, config: string)
    requires IsDir(t, p)
    ensures IsDir(ProjectTree(t, p, env, requirements, bot, config), p)
    ensures IsDir(ProjectTree(t, p, env, requirements, bot, config), p + [Tgbot])
  {
    var tg := p + [Tgbot];
    ProjectDirsReady(t, p);
    assert (p + [".env"])[|p|][0] != tg[|p|][0];
    assert (p + ["requirements.txt"])[|p|][0] != tg[|p|][0];
    assert (p + ["bot.py"])[|p|][0] != tg[|p|][0];
  }

  /** Once `startproject` has built a project, a second `startproject` on it is refused. */
  lemma StartprojectTwice(t: Tree, tm: Templates, p: Path, mode: ParseMode, useRedis: bool, useDb: bool,
                          env: string, requirements: string, bot: string, config: string)
    requires IsDir(t, p)
    ensures var u := ProjectTree(t, p, env, requirements, bot, config);
      StartprojectRun(u, tm, p, mode, useRedis, useDb) == Ran(Refused(NotEmpty(p)), u)
  {
    var u := ProjectTree(t, p, env, requirements, bot, config);
    ProjectTreeDirs(t, p, env, requirements, bot, config);
    EntryMakesNonEmpty(u, p, Tgbot);
  }

  /** No parse-mode name can hold a marker. */
  lemma ModeNameClean(mode: ParseMode)
    ensures Clean(ModeName(mode)) && ModeName(mode) != []
  {
    match mode
    case HTML => assert ModeName(mode)[0] == 'H';
    case Markdowv => assert ModeName(mode)[0] == 'M';
    case MarkdownV2 => assert ModeName(mode)[0] == 'M';
  }

  /**
   * With the shipped `bot.py` template, the bot file `startproject` writes
   * is the bot file with no handler and no command yet, so that
   * `new handler` and `new command` extend it as `Registration` describes.
   */
  lemma ShippedBotFile(mode: ParseMode)
    ensures Render(Template, BotBindings(Str(ModeName(mode)))) == Success(BotFile(Shipped, ModeName(mode), [], []))
    ensures Sound(Shipped) && Clean(ModeName(mode))
  {
    TemplateRender(BotBindings(Str(ModeName(mode))));
    BotFilePristine(Shipped, ModeName(mode));
    ShippedSound();
    ModeNameClean(mode);
  }

  /** `new handler` refuses exactly when the handler's module exists, and a refusal changes nothing. */
  lemma NewHandlerRefusal(t: Tree, tm: Templates, p: Path, name: string, kind: string)
    ensures var r := NewHandlerRun(t, tm, p, name, kind);
      (r.Ran? && r.value.Refused?) <==> HandlerProbe(p, name) in t
    ensures var r := NewHandlerRun(t, tm, p, name, kind);
      r.Ran? && r.value.Refused? ==> r == Ran(Refused(AlreadyExists(name)), t)
  {
  }

  /** `new state` refuses exactly when the state module exists, and a refusal changes nothing. */
  lemma NewStateRefusal(t: Tree, tm: Templates, p: Path, name: string)
    ensures var r := NewStateRun(t, tm, p, name);
      (r.Ran? && r.value.Refused?) <==> StateProbe(p, name) in t
    ensures var r := NewStateRun(t, tm, p, name);
      r.Ran? && r.value.Refused? ==> r == Ran(Refused(AlreadyExists(name)), t)
  {
  }

  /** A copy into a directory that succeeds lands at its target and is there afterwards. */
  lemma CopyLands(t: Tree, tm: Templates, name: string, dir: Path, newName: string)
    requires IsDir(t, dir) && CopiedFromTemplate(t, tm, name, dir, newName).Ran?
    ensures var r := CopiedFromTemplate(t, tm, name, dir, newName);
      r.value == Target(dir, name, newName) && r.value in r.tree
  {
  }

  /** A format that succeeds keeps the path and every entry. */
  lemma FormatCopyKeeps(r: Run<Path>, b: Bindings)
    requires r.Ran? && FormatCopy(r, b).Ran?
    ensures FormatCopy(r, b).value == r.value
    ensures forall q :: q in r.tree ==> q in FormatCopy(r, b).tree
  {
  }

  /** A replacement that succeeds keeps every entry. */
  lemma ReplacedKeeps(t: Tree, p: Path, pairs: seq<(string, string)>)
    requires Replaced(t, p, pairs).Ran?
    ensures forall q :: q in t ==> q in Replaced(t, p, pairs).tree
  {
  }

  /** Once `new handler` has finished, running it again for the same name is refused. */
  lemma NewHandlerTwice(t: Tree, tm: Templates, p: Path, name: string, kind: string, kind2: string)
    requires IsDir(t, HandlersDir(p))
    ensures var r := NewHandlerRun(t, tm, p, name, kind);
      r.Ran? ==> NewHandlerRun(r.tree, tm, p, name, kind2) == Ran(Refused(AlreadyExists(name)), r.tree)
  {
    var r := NewHandlerRun(t, tm, p, name, kind);
    if r.Ran? && !Exists(t, HandlerProbe(p, name)) {
      var copied := CopiedFromTemplate(t, tm, "handler.py", HandlersDir(p), HandlerFileName(name));
      CopyLands(t, tm, "handler.py", HandlersDir(p), HandlerFileName(name));
      var formatted := FormatCopy(copied, HandlerBindings(name, kind));
      FormatCopyKeeps(copied, HandlerBindings(name, kind));
      ReplacedKeeps(formatted.tree, p + ["bot.py"], HandlerReplacements(name));
    }
  }

  /** Once `new state` has finished, running it again for the same name is refused. */
  lemma NewStateTwice(t: Tree, tm: Templates, p: Path, name: string)
    requires IsDir(t, p + [Tgbot, "misc"])
    ensures var r := NewStateRun(t, tm, p, name);
      r.Ran? ==> NewStateRun(r.tree, tm, p, name) == Ran(Refused(AlreadyExists(name)), r.tree)
  {
    var r := NewStateRun(t, tm, p, name);
    assert StateProbe(p, name) == (p + [Tgbot, "misc"]) + [StateFileName(name)];
    if r.Ran? && !Exists(t, StateProbe(p, name)) {
      var copied := CopiedFromTemplate(t, tm, "state.py", p + [Tgbot, "misc"], StateFileName(name));
      CopyLands(t, tm, "state.py", p + [Tgbot, "misc"], StateFileName(name));
      FormatCopyKeeps(copied, StateBindings(name));
    }
  }

  /** `new keyboard` has no guard: repeated, it rewrites its module with the same text. */
  lemma NewKeyboardTwice(t: Tree, tm: Templates, p: Path, inline: bool, name: string)
    requires "keyboard.py" in tm
    requires IsDir(t, p + [Tgbot, "keyboards"]) && !IsDir(t, p + [Tgbot, "keyboards", "keyboard.py"])
    requires !IsDir(t, p + [Tgbot, "keyboards", KeyboardFileName(name, inline)])
    ensures var r := NewKeyboardRun(t, tm, p, inline, name);
      r.Ran? ==> NewKeyboardRun(r.tree, tm, p, inline, name) == r
  {
    KeyboardTwice(t, tm, p, inline, name);
  }

  /** The project at `p` has a bot file recording handlers `hs` and commands `cs`. */
  predicate BotAt(t: Tree, p: Path, sk: Skeleton, pm: string, hs: seq<string>, cs: seq<Command>)
  {
    && Sound(sk) && Clean(pm) && CleanNames(hs) && CleanCommands(cs)
    && IsDir(t, p) && p + ["bot.py"] in t && t[p + ["bot.py"]] == File(BotFile(sk, pm, hs, cs))
  }

  /** `new command` on a bot file appends the command and changes nothing else. */
  lemma NewCommandOnce(t: Tree, p: Path, c: Command, sk: Skeleton, pm: string, hs: seq<string>, cs: seq<Command>)
    requires BotAt(t, p, sk, pm, hs, cs) && Clean(CommandEntry(c))
    ensures NewCommandRun(t, p, c.name, c.description) == Ran(Finished, t[p + ["bot.py"] := File(BotFile(sk, pm, hs, cs + [c]))])
    ensures BotAt(t[p + ["bot.py"] := File(BotFile(sk, pm, hs, cs + [c]))], p, sk, pm, hs, cs + [c])
  {
    CommandRegisters(t, p, c, sk, pm, hs, cs);
    CleanCommandsAppend(cs, c);
  }

  /** `new command` has no guard: repeated, the command is registered twice. */
  lemma NewCommandTwice(t: Tree, p: Path, name: string, description: string,
                        sk: Skeleton, pm: string, hs: seq<string>, cs: seq<Command>)
    requires BotAt(t, p, sk, pm, hs, cs) && Clean(CommandEntry(Command(name, description)))
    ensures var c := Command(name, description);
      var r := NewCommandRun(t, p, name, description);
      r.Ran? && NewCommandRun(r.tree, p, name, description) ==
        Ran(Finished, t[p + ["bot.py"] := File(BotFile(sk, pm, hs, cs + [c] + [c]))])
  {
    var c := Command(name, description);
    NewCommandOnce(t, p, c, sk, pm, hs, cs);
    var u := t[p + ["bot.py"] := File(BotFile(sk, pm, hs, cs + [c]))];
    NewCommandOnce(u, p, c, sk, pm, hs, cs + [c]);
  }

  lemma CleanCommandsAppend(cs: seq<Command>, c: Command)
    requires CleanCommands(cs) && Clean(CommandEntry(c))
    ensures CleanCommands(cs + [c])
  {
    assert forall i :: 0 <= i < |cs| ==> (cs + [c])[i] == cs[i];
  }
}
