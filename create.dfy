/**
 * The builders of the scaffolder: each call of the file-system layer and
 * each builder on top of it, first as a function from a tree to the tree
 * it leaves behind (with the return value or the exception raised), then
 * as a method of `FileSystem` that performs the same calls in the same
 * order on its `entries` and is proved to match that function.
 */
module Create {
  import opened Wrappers
  import opened PyStr
  import opened PyFormat
  import opened FileTree
  import opened Registration

  /** What a builder raises: an `OSError`, a missing template (also `FileNotFoundError`), or a `str.format` error. */
  datatype Error = Os(os: OsError) | TemplateMissing(name: string) | Format(format: FormatError)

  /**
   * The state after a call: its return value and the tree, or the
   * exception it raised and the tree as the calls before it left it.
   */
  datatype Run<T> = Ran(value: T, tree: Tree) | Raised(error: Error, tree: Tree)

  /** The package's `template` directory: file name to text. */
  type Templates = map<string, string>

  function AsRun<T>(r: Result<T, Error>, t: Tree): Run<T>
  {
    if r.Success? then Ran(r.value, t) else Raised(r.error, t)
  }

  function Unit<T>(r: Run<T>): Run<()>
  {
    match r
    case Ran(_, t) => Ran((), t)
    case Raised(e, t) => Raised(e, t)
  }

  // ---------------------------------------------------------------------
  // Names and bindings
  // ---------------------------------------------------------------------

  const Tgbot := "tgbot"

  function HandlerFileName(name: string): string { name + ".py" }

  function StateFileName(name: string): string { name + "_state.py" }

  /** The handlers package of the project at `p`. */
  function HandlersDir(p: Path): Path { p + [Tgbot, "handlers"] }

  /** `type` and `btn` of `make_keyboard`. */
  function KeyboardKind(inline: bool): (string, string)
  {
    if inline then ("inline", "inline") else ("reply", "")
  }

  function KeyboardFileName(name: string, inline: bool): string
  {
    name + "_" + KeyboardKind(inline).0 + ".py"
  }

  function HandlerBindings(name: string, kind: string): Bindings
  {
    map["name" := Str(name), "type" := Str(kind), "type_title" := Str(Title(kind))]
  }

  function StateBindings(name: string): Bindings
  {
    map["name" := Str(Capitalize(name))]
  }

  function KeyboardBindings(name: string, inline: bool): Bindings
  {
    var (kind, btn) := KeyboardKind(inline);
    map["name" := Str(name), "btn_type" := Str(btn), "type" := Str(Capitalize(kind))]
  }

  /** The list `create_requirements_file` builds: `sqlalchemy` for a database, then `aioredis` for Redis. */
  function OptionalRequirements(useRedis: bool, useDb: bool): seq<string>
  {
    (if useDb then ["sqlalchemy"] else []) + (if useRedis then ["aioredis"] else [])
  }

  function RequirementsBindings(useRedis: bool, useDb: bool): Bindings
  {
    map["optional_dependencies" := Str(Join(OptionalRequirements(useRedis, useDb), '\n'))]
  }

  function EnvBindings(useRedis: bool): Bindings
  {
    map["use_redis" := Bool(useRedis)]
  }

  function BotBindings(parseMode: Value): Bindings
  {
    map["parse_mode" := parseMode]
  }

  // ---------------------------------------------------------------------
  // What each call does to the tree
  // ---------------------------------------------------------------------

  /** `create_folder(p)`. */
  function FolderCreated(t: Tree, p: Path): Run<Path>
  {
    match Mkdir(t, p)
    case Failure(e) => Raised(Os(e), t)
    case Success(t1) => Ran(p, t1)
  }

  /** `create_empty_file(p)`. */
  function EmptyFileCreated(t: Tree, p: Path): Run<Path>
  {
    match OpenAppend(t, p)
    case Failure(e) => Raised(Os(e), t)
    case Success(t1) => Ran(p, t1)
  }

  /**
   * `copy_file_from_template(name, dir, newName)`, where `newName == ""`
   * stands for `None` (the code tests its truth value, so both behave
   * alike): copy into `dir`, then rename the copy inside its directory.
   */
  function CopiedFromTemplate(t: Tree, tm: Templates, name: string, dir: Path, newName: string): Run<Path>
  {
    if name !in tm then Raised(TemplateMissing(name), t)
    else match Copy(t, tm[name], name, dir)
      case Failure(e) => Raised(Os(e), t)
      case Success(c) =>
        if newName == "" then Ran(c.0, c.1)
        else
          var dst := Parent(c.0) + [newName];
          match Rename(c.1, c.0, dst)
          case Failure(e) => Raised(Os(e), c.1)
          case Success(t2) => Ran(dst, t2)
  }

  /** `format_file(p, **b)`: open for appending (creating it empty), format the whole text, write it back. */
  function Formatted(t: Tree, p: Path, b: Bindings): Run<()>
  {
    match OpenAppend(t, p)
    case Failure(e) => Raised(Os(e), t)
    case Success(t1) =>
      match Render(t1[p].text, b)
      case Failure(e) => Raised(Format(e), t1)
      case Success(s) => Ran((), t1[p := File(s)])
  }

  /** `format_with_replace(p, dict(pairs))`. */
  function Replaced(t: Tree, p: Path, pairs: seq<(string, string)>): Run<()>
  {
    match OpenAppend(t, p)
    case Failure(e) => Raised(Os(e), t)
    case Success(t1) => Ran((), t1[p := File(ApplyAll(t1[p].text, pairs))])
  }

  /** A copy followed by `format_file` on the copy, returning the copy's path. */
  function FormatCopy(r: Run<Path>, b: Bindings): Run<Path>
  {
    match r
    case Raised(e, t) => Raised(e, t)
    case Ran(q, t1) =>
      match Formatted(t1, q, b)
      case Raised(e, t2) => Raised(e, t2)
      case Ran(_, t2) => Ran(q, t2)
  }

  /** `create_requirements_file(p, useRedis, useDb)`. */
  function RequirementsCreated(t: Tree, tm: Templates, p: Path, useRedis: bool, useDb: bool): Run<Path>
  {
    FormatCopy(CopiedFromTemplate(t, tm, "requirements.txt", p, ""), RequirementsBindings(useRedis, useDb))
  }

  /** `create_env_file(p, useRedis)`. */
  function EnvCreated(t: Tree, tm: Templates, p: Path, useRedis: bool): Run<Path>
  {
    FormatCopy(CopiedFromTemplate(t, tm, "env.env", p, ".env"), EnvBindings(useRedis))
  }

  /** Lines 82-88 of `create_all_project_file`: the package `tg` and its six sub-packages. */
  function PackagePaths(tg: Path): seq<Path>
  {
    [tg, tg + ["handlers"], tg + ["filters"], tg + ["middlewares"], tg + ["keyboards"], tg + ["misc"], tg + ["services"]]
  }

  /** Lines 90-96: the `__init__.py` of each of those packages. */
  function InitPaths(tg: Path): seq<Path>
  {
    [ tg + ["__init__.py"], tg + ["handlers", "__init__.py"], tg + ["filters", "__init__.py"],
      tg + ["middlewares", "__init__.py"], tg + ["keyboards", "__init__.py"], tg + ["misc", "__init__.py"],
      tg + ["services", "__init__.py"] ]
  }

  /** `create_folder` on each path in turn; once one has raised, the rest are skipped. */
  function FoldersCreated(r: Run<()>, paths: seq<Path>): Run<()>
    decreases |paths|
  {
    if paths == [] || r.Raised? then r
    else FoldersCreated(Unit(FolderCreated(r.tree, paths[0])), paths[1..])
  }

  /** `create_empty_file` on each path in turn; once one has raised, the rest are skipped. */
  function EmptyFilesCreated(r: Run<()>, paths: seq<Path>): Run<()>
    decreases |paths|
  {
    if paths == [] || r.Raised? then r
    else EmptyFilesCreated(Unit(EmptyFileCreated(r.tree, paths[0])), paths[1..])
  }

  /** Lines 98-104: `.env`, `requirements.txt`, `bot.py` formatted with the parse mode, `config.py` in the package. */
  function ProjectFilesCreated(t: Tree, tm: Templates, p: Path, useRedis: bool, useDb: bool, parseMode: Value): Run<()>
  {
    match EnvCreated(t, tm, p, useRedis)
    case Raised(e, t1) => Raised(e, t1)
    case Ran(_, t1) =>
      match RequirementsCreated(t1, tm, p, useRedis, useDb)
      case Raised(e, t2) => Raised(e, t2)
      case Ran(_, t2) =>
        match FormatCopy(CopiedFromTemplate(t2, tm, "bot.py", p, ""), BotBindings(parseMode))
        case Raised(e, t3) => Raised(e, t3)
        case Ran(_, t3) => Unit(CopiedFromTemplate(t3, tm, "config.py", p + [Tgbot], ""))
  }

  /** `create_all_project_file(p, useRedis, useDb, createVenv, parseMode)`. */
  function ProjectCreated(t: Tree, tm: Templates, p: Path, useRedis: bool, useDb: bool, parseMode: Value): Run<()>
  {
    match EmptyFilesCreated(FoldersCreated(Ran((), t), PackagePaths(p + [Tgbot])), InitPaths(p + [Tgbot]))
    case Raised(e, t1) => Raised(e, t1)
    case Ran(_, t1) => ProjectFilesCreated(t1, tm, p, useRedis, useDb, parseMode)
  }

  /** One `create_folder` of a list: what it gives decides whether the rest run. */
  lemma AdvanceFolders(t: Tree, paths: seq<Path>, r: Run<Path>)
    requires paths != [] && r == FolderCreated(t, paths[0])
    ensures FoldersCreated(Ran((), t), paths) == if r.Raised? then Unit(r) else FoldersCreated(Unit(r), paths[1..])
  {
  }

  /** One `create_empty_file` of a list: what it gives decides whether the rest run. */
  lemma AdvanceEmptyFiles(t: Tree, paths: seq<Path>, r: Run<Path>)
    requires paths != [] && r == EmptyFileCreated(t, paths[0])
    ensures EmptyFilesCreated(Ran((), t), paths) == if r.Raised? then Unit(r) else EmptyFilesCreated(Unit(r), paths[1..])
  {
  }

  /** `make_handler(p, name, kind)`: the handler module, then the two replacements in `bot.py`. */
  function HandlerMade(t: Tree, tm: Templates, p: Path, name: string, kind: string): Run<Path>
  {
    var copied := CopiedFromTemplate(t, tm, "handler.py", HandlersDir(p), HandlerFileName(name));
    match FormatCopy(copied, HandlerBindings(name, kind))
    case Raised(e, t1) => Raised(e, t1)
    case Ran(q, t1) =>
      match Replaced(t1, p + ["bot.py"], HandlerReplacements(name))
      case Raised(e, t2) => Raised(e, t2)
      case Ran(_, t2) => Ran(q, t2)
  }

  /** `make_command(p, name, description)`. */
  function CommandMade(t: Tree, p: Path, c: Command): Run<Path>
  {
    match Replaced(t, p + ["bot.py"], CommandReplacements(c))
    case Raised(e, t1) => Raised(e, t1)
    case Ran(_, t1) => Ran(p + ["bot.py"], t1)
  }

  /** `make_state(p, name)`. */
  function StateMade(t: Tree, tm: Templates, p: Path, name: string): Run<Path>
  {
    FormatCopy(CopiedFromTemplate(t, tm, "state.py", p + [Tgbot, "misc"], StateFileName(name)), StateBindings(name))
  }

  /** `make_keyboard(p, inline, name)`. */
  function KeyboardMade(t: Tree, tm: Templates, p: Path, inline: bool, name: string): Run<Path>
  {
    FormatCopy(CopiedFromTemplate(t, tm, "keyboard.py", p + [Tgbot, "keyboards"], KeyboardFileName(name, inline)),
               KeyboardBindings(name, inline))
  }

  /**
   * What `copy_file_from_template` evidently means to do: write the copy
   * straight under its final name, so that no other entry of `dir` is
   * touched. The code as written copies to `dir/name` first and renames
   * afterwards (`CopiedFromTemplate`).
   */
  function CopiedToTarget(t: Tree, tm: Templates, name: string, dir: Path, newName: string): Run<Path>
  {
    var target := dir + [if newName == "" then name else newName];
    if name !in tm then Raised(TemplateMissing(name), t)
    else match Copy(t, tm[name], name, target)
      case Failure(e) => Raised(Os(e), t)
      case Success(c) => Ran(c.0, c.1)
  }

  /** `make_handler` with the handler module copied straight to its final name. */
  function FixedHandlerMade(t: Tree, tm: Templates, p: Path, name: string, kind: string): Run<Path>
  {
    var copied := CopiedToTarget(t, tm, "handler.py", HandlersDir(p), HandlerFileName(name));
    match FormatCopy(copied, HandlerBindings(name, kind))
    case Raised(e, t1) => Raised(e, t1)
    case Ran(q, t1) =>
      match Replaced(t1, p + ["bot.py"], HandlerReplacements(name))
      case Raised(e, t2) => Raised(e, t2)
      case Ran(_, t2) => Ran(q, t2)
  }

  // ---------------------------------------------------------------------
  // The calls, on a mutable file system
  // ---------------------------------------------------------------------

  class FileSystem {
    var entries: Tree
    const templates: Templates

    constructor(entries: Tree, templates: Templates)
      ensures this.entries == entries && this.templates == templates
    {
      this.entries := entries;
      this.templates := templates;
    }

    method CreateFolder(p: Path) returns (r: Result<Path, Error>)
      modifies this
      ensures AsRun(r, entries) == FolderCreated(old(entries), p)
    {
      var made := Mkdir(entries, p);
      if made.Failure? {
        return Failure(Os(made.error));
      }
      entries := made.value;
      return Success(p);
    }

    method CreateEmptyFile(p: Path) returns (r: Result<Path, Error>)
      modifies this
      ensures AsRun(r, entries) == EmptyFileCreated(old(entries), p)
    {
      var appended := OpenAppend(entries, p);
      if appended.Failure? {
        return Failure(Os(appended.error));
      }
      entries := appended.value;
      return Success(p);
    }

    method CopyFileFromTemplate(name: string, dir: Path, newName: string) returns (r: Result<Path, Error>)
      modifies this
      ensures AsRun(r, entries) == CopiedFromTemplate(old(entries), templates, name, dir, newName)
    {
      if name !in templates {
        return Failure(TemplateMissing(name));
      }
      var copied := Copy(entries, templates[name], name, dir);
      if copied.Failure? {
        return Failure(Os(copied.error));
      }
      var copyPath := copied.value.0;
      entries := copied.value.1;
      if newName == "" {
        return Success(copyPath);
      }
      var dst := Parent(copyPath) + [newName];
      var renamed := Rename(entries, copyPath, dst);
      if renamed.Failure? {
        return Failure(Os(renamed.error));
      }
      entries := renamed.value;
      return Success(dst);
    }

    method FormatFile(p: Path, b: Bindings) returns (r: Result<(), Error>)
      modifies this
      ensures AsRun(r, entries) == Formatted(old(entries), p, b)
    {
      var appended := OpenAppend(entries, p);
      if appended.Failure? {
        return Failure(Os(appended.error));
      }
      entries := appended.value;
      var text := entries[p].text;
      var formatted := Render(text, b);
      if formatted.Failure? {
        return Failure(Format(formatted.error));
      }
      entries := entries[p := File(formatted.value)];
      return Success(());
    }

    method FormatWithReplace(p: Path, pairs: seq<(string, string)>) returns (r: Result<(), Error>)
      modifies this
      ensures AsRun(r, entries) == Replaced(old(entries), p, pairs)
    {
      var appended := OpenAppend(entries, p);
      if appended.Failure? {
        return Failure(Os(appended.error));
      }
      entries := appended.value;
      var text := entries[p].text;
      ghost var original := text;
      var i := 0;
      while i < |pairs|
        invariant 0 <= i <= |pairs|
        invariant text == ApplyAll(original, pairs[..i])
      {
        text := ReplaceAll(text, pairs[i].0, pairs[i].1);
        i := i + 1;
        assert pairs[..i][..i - 1] == pairs[..i - 1];
      }
      assert pairs[..i] == pairs;
      entries := entries[p := File(text)];
      return Success(());
    }

    method CreateRequirementsFile(p: Path, useRedis: bool, useDb: bool) returns (r: Result<Path, Error>)
      modifies this
      ensures AsRun(r, entries) == RequirementsCreated(old(entries), templates, p, useRedis, useDb)
    {
      var path :- CopyFileFromTemplate("requirements.txt", p, "");
      var optional: seq<string> := [];
      if useDb {
        optional := optional + ["sqlalchemy"];
      }
      if useRedis {
        optional := optional + ["aioredis"];
      }
      var formatted := FormatFile(path, map["optional_dependencies" := Str(Join(optional, '\n'))]);
      if formatted.Failure? {
        return Failure(formatted.error);
      }
      return Success(path);
    }

    method CreateEnvFile(p: Path, useRedis: bool) returns (r: Result<Path, Error>)
      modifies this
      ensures AsRun(r, entries) == EnvCreated(old(entries), templates, p, useRedis)
    {
      var path :- CopyFileFromTemplate("env.env", p, ".env");
      var formatted := FormatFile(path, map["use_redis" := Bool(useRedis)]);
      if formatted.Failure? {
        return Failure(formatted.error);
      }
      return Success(path);
    }

    /**
     * `create_all_project_file`; its three blocks of calls are the methods
     * below. `createVenv` is accepted and never read, as in the code.
     */
    method CreateAllProjectFile(p: Path, useRedis: bool, useDb: bool, createVenv: bool, parseMode: Value)
      returns (r: Result<(), Error>)
      modifies this
      ensures AsRun(r, entries) == ProjectCreated(old(entries), templates, p, useRedis, useDb, parseMode)
    {
      var botFolder :- CreatePackageFolders(p + [Tgbot]);
      var _ :- CreatePackageInits(botFolder);
      r := CreateProjectFiles(p, botFolder, useRedis, useDb, parseMode);
    }

    /** Lines 82-88: returns the package folder. */
    method CreatePackageFolders(tg: Path) returns (r: Result<Path, Error>)
      modifies this
      ensures Unit(AsRun(r, entries)) == FoldersCreated(Ran((), old(entries)), PackagePaths(tg))
      ensures r.Success? ==> r.value == tg
    {
      ghost var paths := PackagePaths(tg);
      ghost var before := entries;
      var botFolder := CreateFolder(tg);
      AdvanceFolders(before, paths, AsRun(botFolder, entries));
      if botFolder.Failure? { return Failure(botFolder.error); }
      before := entries;
      var handlersFolder := CreateFolder(botFolder.value + ["handlers"]);
      AdvanceFolders(before, paths[1..], AsRun(handlersFolder, entries));
      if handlersFolder.Failure? { return Failure(handlersFolder.error); }
      before := entries;
      var filtersFolder := CreateFolder(botFolder.value + ["filters"]);
      AdvanceFolders(before, paths[2..], AsRun(filtersFolder, entries));
      if filtersFolder.Failure? { return Failure(filtersFolder.error); }
      before := entries;
      var middlewaresFolder := CreateFolder(botFolder.value + ["middlewares"]);
      AdvanceFolders(before, paths[3..], AsRun(middlewaresFolder, entries));
      if middlewaresFolder.Failure? { return Failure(middlewaresFolder.error); }
      before := entries;
      var keyboardsFolder := CreateFolder(botFolder.value + ["keyboards"]);
      AdvanceFolders(before, paths[4..], AsRun(keyboardsFolder, entries));
      if keyboardsFolder.Failure? { return Failure(keyboardsFolder.error); }
      before := entries;
      var miscFolder := CreateFolder(botFolder.value + ["misc"]);
      AdvanceFolders(before, paths[5..], AsRun(miscFolder, entries));
      if miscFolder.Failure? { return Failure(miscFolder.error); }
      before := entries;
      var servicesFolder := CreateFolder(botFolder.value + ["services"]);
      AdvanceFolders(before, paths[6..], AsRun(servicesFolder, entries));
      if servicesFolder.Failure? { return Failure(servicesFolder.error); }
      return Success(botFolder.value);
    }

    /** Lines 90-96. */
    method CreatePackageInits(tg: Path) returns (r: Result<(), Error>)
      modifies this
      ensures AsRun(r, entries) == EmptyFilesCreated(Ran((), old(entries)), InitPaths(tg))
    {
      ghost var paths := InitPaths(tg);
      ghost var before := entries;
      var botInit := CreateEmptyFile(tg + ["__init__.py"]);
      AdvanceEmptyFiles(before, paths, AsRun(botInit, entries));
      if botInit.Failure? { return Failure(botInit.error); }
      before := entries;
      var handlersInit := CreateEmptyFile(tg + ["handlers", "__init__.py"]);
      AdvanceEmptyFiles(before, paths[1..], AsRun(handlersInit, entries));
      if handlersInit.Failure? { return Failure(handlersInit.error); }
      before := entries;
      var filtersInit := CreateEmptyFile(tg + ["filters", "__init__.py"]);
      AdvanceEmptyFiles(before, paths[2..], AsRun(filtersInit, entries));
      if filtersInit.Failure? { return Failure(filtersInit.error); }
      before := entries;
      var middlewaresInit := CreateEmptyFile(tg + ["middlewares", "__init__.py"]);
      AdvanceEmptyFiles(before, paths[3..], AsRun(middlewaresInit, entries));
      if middlewaresInit.Failure? { return Failure(middlewaresInit.error); }
      before := entries;
      var keyboardsInit := CreateEmptyFile(tg + ["keyboards", "__init__.py"]);
      AdvanceEmptyFiles(before, paths[4..], AsRun(keyboardsInit, entries));
      if keyboardsInit.Failure? { return Failure(keyboardsInit.error); }
      before := entries;
      var miscInit := CreateEmptyFile(tg + ["misc", "__init__.py"]);
      AdvanceEmptyFiles(before, paths[5..], AsRun(miscInit, entries));
      if miscInit.Failure? { return Failure(miscInit.error); }
      before := entries;
      var servicesInit := CreateEmptyFile(tg + ["services", "__init__.py"]);
      AdvanceEmptyFiles(before, paths[6..], AsRun(servicesInit, entries));
      if servicesInit.Failure? { return Failure(servicesInit.error); }
      return Success(());
    }

    /** Lines 98-104. */
    method CreateProjectFiles(p: Path, botFolder: Path, useRedis: bool, useDb: bool, parseMode: Value)
      returns (r: Result<(), Error>)
      requires botFolder == p + [Tgbot]
      modifies this
      ensures AsRun(r, entries) == ProjectFilesCreated(old(entries), templates, p, useRedis, useDb, parseMode)
    {
      var _ :- CreateEnvFile(p, useRedis);
      var _ :- CreateRequirementsFile(p, useRedis, useDb);
      var bot :- CopyFileFromTemplate("bot.py", p, "");
      var _ :- FormatFile(bot, map["parse_mode" := parseMode]);
      var _ :- CopyFileFromTemplate("config.py", botFolder, "");
      return Success(());
    }

    method MakeHandler(p: Path, name: string, kind: string) returns (r: Result<Path, Error>)
      modifies this
      ensures AsRun(r, entries) == HandlerMade(old(entries), templates, p, name, kind)
    {
      var handler :- CopyFileFromTemplate("handler.py", HandlersDir(p), HandlerFileName(name));
      var formatted := FormatFile(handler, HandlerBindings(name, kind));
      if formatted.Failure? {
        return Failure(formatted.error);
      }
      var replaced := FormatWithReplace(p + ["bot.py"], HandlerReplacements(name));
      if replaced.Failure? {
        return Failure(replaced.error);
      }
      return Success(handler);
    }

    method MakeCommand(p: Path, name: string, description: string) returns (r: Result<Path, Error>)
      modifies this
      ensures AsRun(r, entries) == CommandMade(old(entries), p, Command(name, description))
    {
      var bot := p + ["bot.py"];
      var replaced := FormatWithReplace(bot, CommandReplacements(Command(name, description)));
      if replaced.Failure? {
        return Failure(replaced.error);
      }
      return Success(bot);
    }

    method MakeState(p: Path, name: string) returns (r: Result<Path, Error>)
      modifies this
      ensures AsRun(r, entries) == StateMade(old(entries), templates, p, name)
    {
      var stateFold := p + [Tgbot, "misc"];
      var file :- CopyFileFromTemplate("state.py", stateFold, StateFileName(name));
      var formatted := FormatFile(file, StateBindings(name));
      if formatted.Failure? {
        return Failure(formatted.error);
      }
      return Success(file);
    }

    method MakeKeyboard(p: Path, inline: bool, name: string) returns (r: Result<Path, Error>)
      modifies this
      ensures AsRun(r, entries) == KeyboardMade(old(entries), templates, p, inline, name)
    {
      var keyboardFold := p + [Tgbot, "keyboards"];
      var kind, btn;
      if inline {
        kind := "inline";
        btn := "inline";
      } else {
        kind := "reply";
        btn := "";
      }
      var file :- CopyFileFromTemplate("keyboard.py", keyboardFold, name + "_" + kind + ".py");
      var formatted := FormatFile(file, map["name" := Str(name), "btn_type" := Str(btn), "type" := Str(Capitalize(kind))]);
      if formatted.Failure? {
        return Failure(formatted.error);
      }
      return Success(file);
    }
  }
}
