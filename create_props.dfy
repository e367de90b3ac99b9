/**
 * What the builders of `create.py` do to a project tree, stated against
 * independent descriptions of the result: where a template lands and what
 * else changes, what a failed format leaves behind, the names files get,
 * and how `bot.py` evolves under `make_handler` and `make_command`.
 */
module CreateProps {
  import opened Wrappers
  import opened PyStr
  import opened PyFormat
  import opened FileTree
  import opened BotLayout
  import opened Registration
  import opened Create
  import opened Utils

  // ---------------------------------------------------------------------
  // Templates
  // ---------------------------------------------------------------------

  /** Where `copy_file_from_template(name, dir, newName)` leaves the copy. */
  function Target(dir: Path, name: string, newName: string): Path
  {
    dir + [if newName == "" then name else newName]
  }

  /**
   * The tree after a copy of `text` reached its target: the target holds
   * the text and, when the copy was renamed, nothing is left at `dir/name`.
   */
  function Placed(t: Tree, dir: Path, name: string, newName: string, text: string): Tree
  {
    if newName == "" || newName == name then t[dir + [name] := File(text)]
    else (t - {dir + [name]})[dir + [newName] := File(text)]
  }

  /** A template that is missing raises before anything is written. */
  lemma CopyMissingTemplate(t: Tree, tm: Templates, name: string, dir: Path, newName: string)
    requires name !in tm
    ensures CopiedFromTemplate(t, tm, name, dir, newName) == Raised(TemplateMissing(name), t)
  {
  }

  /**
   * Copying into a directory: the copy ends at `Target` with the template's
   * text, an existing file there is overwritten, and a rename removes the
   * intermediate `dir/name`, whatever was there before.
   */
  lemma CopyPlaced(t: Tree, tm: Templates, name: string, dir: Path, newName: string)
    requires name in tm && IsDir(t, dir)
    requires !IsDir(t, dir + [name]) && !IsDir(t, Target(dir, name, newName))
    ensures CopiedFromTemplate(t, tm, name, dir, newName) == Ran(Target(dir, name, newName), Placed(t, dir, name, newName, tm[name]))
  {
    var c := dir + [name];
    var t1 := t[c := File(tm[name])];
    assert Copy(t, tm[name], name, dir) == Success((c, t1));
    if newName != "" && newName != name {
      var d := dir + [newName];
      assert Parent(c) + [newName] == d;
      assert d != c;
      assert Rename(t1, c, d) == Success((t1 - {c})[d := File(tm[name])]);
      assert (t1 - {c})[d := File(tm[name])] == (t - {c})[d := File(tm[name])];
    } else if newName == name {
      assert Parent(c) + [newName] == c;
    }
  }

  /** The target holds the text; writing it again with other text gives the tree placed with that text. */
  lemma PlacedTarget(t: Tree, dir: Path, name: string, newName: string, text: string, s: string)
    ensures var q := Target(dir, name, newName);
      q != [] && Parent(q) == dir && IsFile(Placed(t, dir, name, newName, text), q) &&
      Placed(t, dir, name, newName, text)[q].text == text &&
      Placed(t, dir, name, newName, text)[q := File(s)] == Placed(t, dir, name, newName, s)
  {
    var q := Target(dir, name, newName);
    assert Parent(q) == dir;
    if newName == "" || newName == name {
      assert q == dir + [name];
    }
  }

  /**
   * A copy formatted in place: the target ends up with the rendered text;
   * when rendering fails the raw template stays there and the error is raised.
   */
  lemma FormattedCopyPlaced(t: Tree, tm: Templates, name: string, dir: Path, newName: string, b: Bindings)
    requires name in tm && IsDir(t, dir)
    requires !IsDir(t, dir + [name]) && !IsDir(t, Target(dir, name, newName))
    ensures var r := FormatCopy(CopiedFromTemplate(t, tm, name, dir, newName), b);
      match Render(tm[name], b)
      case Success(s) => r == Ran(Target(dir, name, newName), Placed(t, dir, name, newName, s))
      case Failure(e) => r == Raised(Format(e), Placed(t, dir, name, newName, tm[name]))
  {
    CopyPlaced(t, tm, name, dir, newName);
    var q := Target(dir, name, newName);
    var t1 := Placed(t, dir, name, newName, tm[name]);
    var rendered := Render(tm[name], b);
    PlacedTarget(t, dir, name, newName, tm[name], if rendered.Success? then rendered.value else "");
    FormatSpec(t1, q, b);
  }

  // ---------------------------------------------------------------------
  // format_file and format_with_replace
  // ---------------------------------------------------------------------

  /**
   * `format_file` on an existing file writes the rendered text, or raises
   * and leaves the file as it was; on a missing file it creates an empty one
   * (the `a+` mode) and succeeds, an empty text having nothing to format.
   */
  lemma FormatSpec(t: Tree, p: Path, b: Bindings)
    requires p != [] && IsDir(t, Parent(p))
    ensures IsFile(t, p) ==>
      Formatted(t, p, b) == match Render(t[p].text, b)
        case Success(s) => Ran((), t[p := File(s)])
        case Failure(e) => Raised(Format(e), t)
    ensures p !in t ==> Formatted(t, p, b) == Ran((), t[p := File("")])
    ensures IsDir(t, p) ==> Formatted(t, p, b) == Raised(Os(IsADirectory(p)), t)
  {
  }

  /** Replacing in an empty text yields the empty text, as long as no key is empty. */
  lemma {:induction false} ApplyAllEmpty(pairs: seq<(string, string)>)
    requires forall i :: 0 <= i < |pairs| ==> pairs[i].0 != []
    ensures ApplyAll("", pairs) == ""
    decreases |pairs|
  {
    if pairs != [] {
      ApplyAllEmpty(pairs[..|pairs| - 1]);
    }
  }

  /**
   * `format_with_replace` applies the table to an existing file; a missing
   * file is created and stays empty.
   */
  lemma ReplaceSpec(t: Tree, p: Path, pairs: seq<(string, string)>)
    requires p != [] && IsDir(t, Parent(p))
    requires forall i :: 0 <= i < |pairs| ==> pairs[i].0 != []
    ensures IsFile(t, p) ==> Replaced(t, p, pairs) == Ran((), t[p := File(ApplyAll(t[p].text, pairs))])
    ensures p !in t ==> Replaced(t, p, pairs) == Ran((), t[p := File("")])
    ensures IsDir(t, p) ==> Replaced(t, p, pairs) == Raised(Os(IsADirectory(p)), t)
  {
    ApplyAllEmpty(pairs);
  }

  // ---------------------------------------------------------------------
  // Names and bindings
  // ---------------------------------------------------------------------

  /** `"\n".join` of the optional requirements, for the four combinations of the two flags. */
  lemma RequirementsText(useRedis: bool, useDb: bool)
    ensures Join(OptionalRequirements(useRedis, useDb), '\n') ==
      if useDb && useRedis then "sqlalchemy\naioredis"
      else if useDb then "sqlalchemy"
      else if useRedis then "aioredis"
      else ""
  {
    if useDb && useRedis {
      assert OptionalRequirements(useRedis, useDb) == ["sqlalchemy", "aioredis"];
    }
  }

  /**
   * Keyboard modules never share a file: the name and the kind are both
   * recoverable from the file name, so an inline and a reply keyboard of
   * the same name are two files.
   */
  lemma KeyboardFileNamesDistinct(n1: string, i1: bool, n2: string, i2: bool)
    ensures KeyboardFileName(n1, i1) == KeyboardFileName(n2, i2) <==> n1 == n2 && i1 == i2
  {
    var s1 := KeyboardFileName(n1, i1);
    var s2 := KeyboardFileName(n2, i2);
    if s1 == s2 {
      var k1 := KeyboardKind(i1).0;
      var k2 := KeyboardKind(i2).0;
      assert s1[|s1| - 4] == k1[|k1| - 1];
      assert s2[|s2| - 4] == k2[|k2| - 1];
      assert i1 == i2;
      assert n1 == s1[..|n1|];
      assert n2 == s2[..|n2|];
    }
  }

  /** Handler modules are named after the handler, and two handlers never share one. */
  lemma HandlerFileNamesDistinct(n1: string, n2: string)
    ensures HandlerFileName(n1) == HandlerFileName(n2) <==> n1 == n2
  {
    if HandlerFileName(n1) == HandlerFileName(n2) {
      assert n1 == HandlerFileName(n1)[..|n1|];
    }
  }

  /** Two states never share a module. */
  lemma StateFileNamesDistinct(n1: string, n2: string)
    ensures StateFileName(n1) == StateFileName(n2) <==> n1 == n2
  {
    if StateFileName(n1) == StateFileName(n2) {
      assert n1 == StateFileName(n1)[..|n1|];
    }
  }

  /** The bindings of the keyboard template: the button type and the capitalised kind. */
  lemma KeyboardBindingValues(name: string)
    ensures KeyboardBindings(name, true) == map["name" := Str(name), "btn_type" := Str("inline"), "type" := Str("Inline")]
    ensures KeyboardBindings(name, false) == map["name" := Str(name), "btn_type" := Str(""), "type" := Str("Reply")]
  {
    CapitalizeShape("inline");
    CapitalizeShape("reply");
    assert Capitalize("inline") == "Inline";
    assert Capitalize("reply") == "Reply";
  }

  /** For a one-word type such as the default `message`, `type_title` is the capitalised type. */
  lemma HandlerTypeTitle(name: string, kind: string)
    requires forall i :: 0 <= i < |kind| ==> IsLetter(kind[i])
    ensures HandlerBindings(name, kind)["type_title"] == Str(Capitalize(kind))
  {
    TitleOfWord(kind);
  }

  // ---------------------------------------------------------------------
  // make_handler, make_command, make_state, make_keyboard
  // ---------------------------------------------------------------------

  /**
   * `make_handler` on a project whose `bot.py` is a bot file: the handler
   * module is the rendered template under the handler's name, `bot.py`
   * records one more handler, and nothing else changes but the removal of
   * the intermediate copy.
   */
  lemma HandlerRegisters(t: Tree, tm: Templates, p: Path, name: string, kind: string,
                         sk: Skeleton, pm: string, hs: seq<string>, cs: seq<Command>)
    requires Sound(sk) && Clean(pm) && CleanNames(hs) && CleanCommands(cs) && CleanName(name)
    requires IsDir(t, p) && p + ["bot.py"] in t && t[p + ["bot.py"]] == File(BotFile(sk, pm, hs, cs))
    requires "handler.py" in tm && Render(tm["handler.py"], HandlerBindings(name, kind)).Success?
    requires IsDir(t, HandlersDir(p)) && !IsDir(t, HandlersDir(p) + ["handler.py"])
    requires !IsDir(t, HandlersDir(p) + [HandlerFileName(name)])
    ensures HandlerMade(t, tm, p, name, kind) ==
      Ran(HandlersDir(p) + [HandlerFileName(name)],
          Placed(t, HandlersDir(p), "handler.py", HandlerFileName(name), Render(tm["handler.py"], HandlerBindings(name, kind)).value)
            [p + ["bot.py"] := File(BotFile(sk, pm, hs + [name], cs))])
  {
    HandlerStep(sk, pm, hs, cs, name);
    HandlerPlaced(t, tm, p, name, kind, BotFile(sk, pm, hs, cs), BotFile(sk, pm, hs + [name], cs));
  }

  /** `make_handler` on any `bot.py` whose text its table takes to `after`. */
  lemma HandlerPlaced(t: Tree, tm: Templates, p: Path, name: string, kind: string, before: string, after: string)
    requires IsDir(t, p) && p + ["bot.py"] in t && t[p + ["bot.py"]] == File(before)
    requires ApplyAll(before, HandlerReplacements(name)) == after
    requires "handler.py" in tm && Render(tm["handler.py"], HandlerBindings(name, kind)).Success?
    requires IsDir(t, HandlersDir(p)) && !IsDir(t, HandlersDir(p) + ["handler.py"])
    requires !IsDir(t, HandlersDir(p) + [HandlerFileName(name)])
    ensures HandlerMade(t, tm, p, name, kind) ==
      Ran(HandlersDir(p) + [HandlerFileName(name)],
          Placed(t, HandlersDir(p), "handler.py", HandlerFileName(name), Render(tm["handler.py"], HandlerBindings(name, kind)).value)
            [p + ["bot.py"] := File(after)])
  {
    var hd := HandlersDir(p);
    var bot := p + ["bot.py"];
    var text := Render(tm["handler.py"], HandlerBindings(name, kind)).value;
    FormattedCopyPlaced(t, tm, "handler.py", hd, HandlerFileName(name), HandlerBindings(name, kind));
    var t1 := Placed(t, hd, "handler.py", HandlerFileName(name), text);
    assert |bot| < |hd + ["handler.py"]| && |bot| < |Target(hd, "handler.py", HandlerFileName(name))|;
    assert t1[bot] == t[bot];
    ReplaceSpec(t1, bot, HandlerReplacements(name));
  }

  /**
   * `make_command` on a project whose `bot.py` is a bot file: the command
   * is appended to the command list and nothing else changes.
   */
  lemma CommandRegisters(t: Tree, p: Path, c: Command, sk: Skeleton, pm: string, hs: seq<string>, cs: seq<Command>)
    requires Sound(sk) && Clean(pm) && CleanNames(hs) && CleanCommands(cs)
    requires IsDir(t, p) && p + ["bot.py"] in t && t[p + ["bot.py"]] == File(BotFile(sk, pm, hs, cs))
    ensures CommandMade(t, p, c) == Ran(p + ["bot.py"], t[p + ["bot.py"] := File(BotFile(sk, pm, hs, cs + [c]))])
  {
    ReplaceSpec(t, p + ["bot.py"], CommandReplacements(c));
    CommandStep(sk, pm, hs, cs, c);
  }

  /** `make_command` in a directory without `bot.py` reports success and leaves an empty `bot.py` behind. */
  lemma CommandWithoutBot(t: Tree, p: Path, c: Command)
    requires IsDir(t, p) && p + ["bot.py"] !in t
    ensures CommandMade(t, p, c) == Ran(p + ["bot.py"], t[p + ["bot.py"] := File("")])
  {
    ReplaceSpec(t, p + ["bot.py"], CommandReplacements(c));
  }

  /**
   * As written, `make_handler` copies the template to `handlers/handler.py`
   * before renaming it: a handler module named `handler` made earlier is
   * overwritten and then moved away, whatever happens afterwards.
   */
  lemma HandlerTemplateClobbers(t: Tree, tm: Templates, p: Path, name: string, kind: string)
    requires "handler.py" in tm && name != "handler"
    requires IsDir(t, HandlersDir(p)) && IsFile(t, HandlersDir(p) + ["handler.py"])
    requires !IsDir(t, HandlersDir(p) + [HandlerFileName(name)])
    ensures HandlersDir(p) + ["handler.py"] !in HandlerMade(t, tm, p, name, kind).tree
  {
    var hd := HandlersDir(p);
    HandlerFileNamesDistinct(name, "handler");
    assert HandlerFileName("handler") == "handler.py";
    FormattedCopyPlaced(t, tm, "handler.py", hd, HandlerFileName(name), HandlerBindings(name, kind));
    assert |p + ["bot.py"]| < |hd + ["handler.py"]|;
  }

  /**
   * With the copy written straight to its final name, `make_handler`
   * changes only the handler's own module and `bot.py`: every other entry,
   * a module named `handler` included, is kept, whether or not the call
   * raises.
   */
  lemma FixedHandlerKeepsOthers(t: Tree, tm: Templates, p: Path, name: string, kind: string)
    requires IsDir(t, HandlersDir(p)) && !IsDir(t, HandlersDir(p) + [HandlerFileName(name)])
    ensures var u := FixedHandlerMade(t, tm, p, name, kind).tree;
      forall q :: q in t && q != HandlersDir(p) + [HandlerFileName(name)] && q != p + ["bot.py"] ==> q in u && u[q] == t[q]
  {
    var hd := HandlersDir(p);
    var q0 := hd + [HandlerFileName(name)];
    assert Parent(q0) == hd;
    var copied := CopiedToTarget(t, tm, "handler.py", hd, HandlerFileName(name));
    if copied.Ran? {
      assert copied.value == q0 && copied.tree == t[q0 := File(tm["handler.py"])];
      var t1 := copied.tree;
      assert IsFile(t1, q0) && OpenAppend(t1, q0) == Success(t1);
    }
  }

  /** `make_state` where the package exists: the rendered state module, named after the state. */
  lemma StateModule(t: Tree, tm: Templates, p: Path, name: string)
    requires "state.py" in tm && Render(tm["state.py"], StateBindings(name)).Success?
    requires IsDir(t, p + [Tgbot, "misc"]) && !IsDir(t, p + [Tgbot, "misc", "state.py"])
    requires !IsDir(t, p + [Tgbot, "misc", StateFileName(name)])
    ensures StateMade(t, tm, p, name) ==
      Ran(p + [Tgbot, "misc", StateFileName(name)],
          Placed(t, p + [Tgbot, "misc"], "state.py", StateFileName(name), Render(tm["state.py"], StateBindings(name)).value))
  {
    var d := p + [Tgbot, "misc"];
    assert d + ["state.py"] == p + [Tgbot, "misc", "state.py"];
    assert Target(d, "state.py", StateFileName(name)) == p + [Tgbot, "misc", StateFileName(name)];
    FormattedCopyPlaced(t, tm, "state.py", d, StateFileName(name), StateBindings(name));
  }

  /** Placing the same text a second time changes nothing. */
  lemma PlacedTwice(t: Tree, dir: Path, name: string, newName: string, text: string)
    ensures Placed(Placed(t, dir, name, newName, text), dir, name, newName, text) == Placed(t, dir, name, newName, text)
  {
    if newName != "" && newName != name {
      assert (dir + [name])[|dir|] != (dir + [newName])[|dir|];
    }
  }

  /**
   * `make_keyboard` is not guarded: run twice with the same arguments it
   * overwrites its own module with the same text, so the second run leaves
   * the tree as the first left it.
   */
  lemma KeyboardTwice(t: Tree, tm: Templates, p: Path, inline: bool, name: string)
    requires "keyboard.py" in tm
    requires IsDir(t, p + [Tgbot, "keyboards"]) && !IsDir(t, p + [Tgbot, "keyboards", "keyboard.py"])
    requires !IsDir(t, p + [Tgbot, "keyboards", KeyboardFileName(name, inline)])
    ensures var r := KeyboardMade(t, tm, p, inline, name);
      r.Ran? ==> KeyboardMade(r.tree, tm, p, inline, name) == r
  {
    var d := p + [Tgbot, "keyboards"];
    var f := KeyboardFileName(name, inline);
    var b := KeyboardBindings(name, inline);
    assert d + ["keyboard.py"] == p + [Tgbot, "keyboards", "keyboard.py"];
    assert d + [f] == p + [Tgbot, "keyboards", f];
    FormattedCopyPlaced(t, tm, "keyboard.py", d, f, b);
    if Render(tm["keyboard.py"], b).Success? {
      var s := Render(tm["keyboard.py"], b).value;
      var t1 := Placed(t, d, "keyboard.py", f, s);
      PlacedTarget(t, d, "keyboard.py", f, s, s);
      assert IsDir(t1, d) && !IsDir(t1, d + ["keyboard.py"]);
      FormattedCopyPlaced(t1, tm, "keyboard.py", d, f, b);
      PlacedTwice(t, d, "keyboard.py", f, s);
    }
  }

  // ---------------------------------------------------------------------
  // create_all_project_file
  // ---------------------------------------------------------------------

  /** A second run on the same project raises at its first `mkdir` and changes nothing. */
  lemma ProjectTwice(t: Tree, tm: Templates, p: Path, useRedis: bool, useDb: bool, parseMode: Value)
    requires IsDir(t, p) && p + [Tgbot] in t
    ensures ProjectCreated(t, tm, p, useRedis, useDb, parseMode) == Raised(Os(FileExists(p + [Tgbot])), t)
  {
    var r := Raised(Os(FileExists(p + [Tgbot])), t);
    assert FoldersCreated(Ran((), t), PackagePaths(p + [Tgbot])) == FoldersCreated(r, PackagePaths(p + [Tgbot])[1..]);
    assert EmptyFilesCreated(r, InitPaths(p + [Tgbot])) == r;
  }

  /** The same node at each of `paths`. */
  function NodesAt(paths: seq<Path>, n: Node): Tree
  {
    map q | q in paths :: n
  }

  predicate Distinct(paths: seq<Path>)
  {
    forall i, j :: 0 <= i < j < |paths| ==> paths[i] != paths[j]
  }

  /** Each path is new and hangs below an existing directory or an earlier path of the list. */
  predicate FreshFolders(t: Tree, paths: seq<Path>)
  {
    Distinct(paths) &&
    forall i :: 0 <= i < |paths| ==>
      paths[i] != [] && paths[i] !in t && (IsDir(t, Parent(paths[i])) || Parent(paths[i]) in paths[..i])
  }

  /** Each path is new and hangs below an existing directory. */
  predicate FreshFiles(t: Tree, paths: seq<Path>)
  {
    Distinct(paths) &&
    forall i :: 0 <= i < |paths| ==> paths[i] != [] && paths[i] !in t && IsDir(t, Parent(paths[i]))
  }

  /** Adding the first node on its own, then the rest. */
  lemma NodesAtFirst(t: Tree, paths: seq<Path>, n: Node)
    requires paths != []
    ensures t[paths[0] := n] + NodesAt(paths[1..], n) == t + NodesAt(paths, n)
  {
    assert forall q :: q in paths <==> q == paths[0] || q in paths[1..];
  }

  lemma FreshFoldersRest(t: Tree, paths: seq<Path>)
    requires paths != [] && FreshFolders(t, paths)
    ensures FreshFolders(t[paths[0] := Dir], paths[1..])
  {
    var p0 := paths[0];
    var t1 := t[p0 := Dir];
    var rest := paths[1..];
    forall i | 0 <= i < |rest|
      ensures rest[i] != [] && rest[i] !in t1 && (IsDir(t1, Parent(rest[i])) || Parent(rest[i]) in rest[..i])
    {
      assert rest[i] == paths[i + 1];
      assert paths[0] != paths[i + 1];
      if !IsDir(t, Parent(rest[i])) && Parent(rest[i]) != p0 {
        assert Parent(rest[i]) in paths[..i + 1];
        assert paths[..i + 1] == [p0] + rest[..i];
      }
    }
  }

  lemma FreshFilesRest(t: Tree, paths: seq<Path>)
    requires paths != [] && FreshFiles(t, paths)
    ensures FreshFiles(t[paths[0] := File("")], paths[1..])
  {
    var rest := paths[1..];
    forall i | 0 <= i < |rest|
      ensures rest[i] != [] && rest[i] !in t[paths[0] := File("")] && IsDir(t[paths[0] := File("")], Parent(rest[i]))
    {
      assert rest[i] == paths[i + 1];
      assert paths[0] != paths[i + 1];
    }
  }

  /** `create_folder` on fresh paths, in an order that makes each parent first, adds exactly those directories. */
  lemma {:induction false} FoldersFresh(t: Tree, paths: seq<Path>)
    requires FreshFolders(t, paths)
    ensures FoldersCreated(Ran((), t), paths) == Ran((), t + NodesAt(paths, Dir))
    decreases |paths|
  {
    if paths != [] {
      assert paths[..0] == [];
      assert FolderCreated(t, paths[0]) == Ran(paths[0], t[paths[0] := Dir]);
      FreshFoldersRest(t, paths);
      FoldersFresh(t[paths[0] := Dir], paths[1..]);
      NodesAtFirst(t, paths, Dir);
    }
  }

  /** `create_empty_file` on fresh paths below existing directories adds exactly those empty files. */
  lemma {:induction false} EmptyFilesFresh(t: Tree, paths: seq<Path>)
    requires FreshFiles(t, paths)
    ensures EmptyFilesCreated(Ran((), t), paths) == Ran((), t + NodesAt(paths, File("")))
    decreases |paths|
  {
    if paths != [] {
      assert EmptyFileCreated(t, paths[0]) == Ran(paths[0], t[paths[0] := File("")]);
      FreshFilesRest(t, paths);
      EmptyFilesFresh(t[paths[0] := File("")], paths[1..]);
      NodesAtFirst(t, paths, File(""));
    }
  }

  /** The package folders of a project directory with nothing below it are fresh, parents first. */
  lemma PackagePathsFresh(t: Tree, p: Path)
    requires IsDir(t, p) && forall q :: q in t ==> !Below(q, p)
    ensures FreshFolders(t, PackagePaths(p + [Tgbot]))
  {
    var tg := p + [Tgbot];
    var ps := PackagePaths(tg);
    forall i | 0 <= i < |ps|
      ensures ps[i] != [] && ps[i] !in t && (IsDir(t, Parent(ps[i])) || Parent(ps[i]) in ps[..i])
    {
      assert Below(ps[i], p);
      if i > 0 {
        assert Parent(ps[i]) == tg == ps[..i][0];
      }
    }
    forall i, j | 0 <= i < j < |ps| ensures ps[i] != ps[j]
    {
      if i > 0 {
        assert ps[i][|tg|] != ps[j][|tg|];
      }
    }
  }

  /** ... and so are their `__init__.py` files once the folders exist. */
  lemma InitPathsFresh(t: Tree, p: Path)
    requires forall q :: q in t ==> !Below(q, p)
    ensures FreshFiles(t + NodesAt(PackagePaths(p + [Tgbot]), Dir), InitPaths(p + [Tgbot]))
  {
    var tg := p + [Tgbot];
    var t2 := t + NodesAt(PackagePaths(tg), Dir);
    var ps := InitPaths(tg);
    forall i | 0 <= i < |ps|
      ensures ps[i] != [] && ps[i] !in t2 && IsDir(t2, Parent(ps[i]))
    {
      assert Below(ps[i], p);
      assert Parent(ps[i]) == PackagePaths(tg)[i];
      assert ps[i][|ps[i]| - 1] == "__init__.py";
    }
    forall i, j | 0 <= i < j < |ps| ensures ps[i] != ps[j]
    {
      if i > 0 {
        assert ps[i][|tg|] != ps[j][|tg|];
      }
    }
  }

  /**
   * The project `create_all_project_file` lays out, as a manifest: the
   * package and its six sub-packages, an empty `__init__.py` in each,
   * `.env`, `requirements.txt` and `bot.py` in the project directory and
   * `config.py` in the package, on top of what was there.
   */
  function ProjectTree(t: Tree, p: Path, env: string, requirements: string, bot: string, config: string): Tree
  {
    var tg := p + [Tgbot];
    (t + NodesAt(PackagePaths(tg), Dir) + NodesAt(InitPaths(tg), File("")))
      [p + [".env"] := File(env)]
      [p + ["requirements.txt"] := File(requirements)]
      [p + ["bot.py"] := File(bot)]
      [p + [Tgbot, "config.py"] := File(config)]
  }

  /** The templates are there and each renders with the bindings it is given. */
  predicate TemplatesRender(tm: Templates, useRedis: bool, useDb: bool, parseMode: Value)
  {
    && "env.env" in tm && Render(tm["env.env"], EnvBindings(useRedis)).Success?
    && "requirements.txt" in tm && Render(tm["requirements.txt"], RequirementsBindings(useRedis, useDb)).Success?
    && "bot.py" in tm && Render(tm["bot.py"], BotBindings(parseMode)).Success?
    && "config.py" in tm
  }

  /** `create_env_file` where neither `env.env` nor `.env` exists: just the rendered `.env`. */
  lemma EnvFresh(t: Tree, tm: Templates, p: Path, useRedis: bool)
    requires "env.env" in tm && Render(tm["env.env"], EnvBindings(useRedis)).Success?
    requires IsDir(t, p) && p + ["env.env"] !in t && p + [".env"] !in t
    ensures EnvCreated(t, tm, p, useRedis) == Ran(p + [".env"], t[p + [".env"] := File(Render(tm["env.env"], EnvBindings(useRedis)).value)])
  {
    FormattedCopyPlaced(t, tm, "env.env", p, ".env", EnvBindings(useRedis));
    assert t - {p + ["env.env"]} == t;
  }

  /** A template copied into `dir` under its own name and formatted: just the rendered file. */
  lemma FormattedFresh(t: Tree, tm: Templates, name: string, dir: Path, b: Bindings)
    requires name in tm && Render(tm[name], b).Success?
    requires IsDir(t, dir) && !IsDir(t, dir + [name])
    ensures FormatCopy(CopiedFromTemplate(t, tm, name, dir, ""), b) == Ran(dir + [name], t[dir + [name] := File(Render(tm[name], b).value)])
  {
    FormattedCopyPlaced(t, tm, name, dir, "", b);
  }

  /** The four file steps on a tree that has the package but none of the files. */
  lemma ProjectFilesFresh(t: Tree, tm: Templates, p: Path, useRedis: bool, useDb: bool, parseMode: Value)
    requires TemplatesRender(tm, useRedis, useDb, parseMode)
    requires IsDir(t, p) && IsDir(t, p + [Tgbot])
    requires p + ["env.env"] !in t && p + [".env"] !in t && p + ["requirements.txt"] !in t && p + ["bot.py"] !in t
    requires p + [Tgbot, "config.py"] !in t
    ensures ProjectFilesCreated(t, tm, p, useRedis, useDb, parseMode) ==
      Ran((), t[p + [".env"] := File(Render(tm["env.env"], EnvBindings(useRedis)).value)]
               [p + ["requirements.txt"] := File(Render(tm["requirements.txt"], RequirementsBindings(useRedis, useDb)).value)]
               [p + ["bot.py"] := File(Render(tm["bot.py"], BotBindings(parseMode)).value)]
               [p + [Tgbot, "config.py"] := File(tm["config.py"])])
  {
    var tg := p + [Tgbot];
    EnvFresh(t, tm, p, useRedis);
    var t1 := t[p + [".env"] := File(Render(tm["env.env"], EnvBindings(useRedis)).value)];
    FormattedFresh(t1, tm, "requirements.txt", p, RequirementsBindings(useRedis, useDb));
    var t2 := t1[p + ["requirements.txt"] := File(Render(tm["requirements.txt"], RequirementsBindings(useRedis, useDb)).value)];
    FormattedFresh(t2, tm, "bot.py", p, BotBindings(parseMode));
    var t3 := t2[p + ["bot.py"] := File(Render(tm["bot.py"], BotBindings(parseMode)).value)];
    assert tg + ["config.py"] == p + [Tgbot, "config.py"];
    CopyPlaced(t3, tm, "config.py", tg, "");
  }

  /** Every package path is the package or one of its sub-packages, whose names start with one of `hfmks`. */
  lemma PackagePathsShape(tg: Path)
    ensures forall q :: q in PackagePaths(tg) ==>
      |tg| <= |q| <= |tg| + 1 && q[..|tg|] == tg && (|q| == |tg| + 1 ==> q[|tg|] != [] && q[|tg|][0] in "hfmks")
  {
  }

  /** Every init path ends in a name that starts with `_`. */
  lemma InitPathsShape(tg: Path)
    ensures forall q :: q in InitPaths(tg) ==> q != [] && q[|q| - 1] != [] && q[|q| - 1][0] == '_'
  {
  }

  /** A key outside both the tree and the added paths stays outside their union. */
  lemma NotAdded(t: Tree, paths: seq<Path>, n: Node, q: Path)
    requires q !in t && q !in paths
    ensures q !in t + NodesAt(paths, n)
  {
  }

  /** A tree with nothing below `p` holds no path below `p`. */
  lemma BelowAbsent(t: Tree, p: Path, f: Path)
    requires forall q :: q in t ==> !Below(q, p)
    requires Below(f, p)
    ensures f !in t
  {
  }

  /** A path whose last name has no leading `_` is no init path. */
  lemma NotInit(tg: Path, f: Path)
    requires f != [] && f[|f| - 1] != [] && f[|f| - 1][0] != '_'
    ensures f !in InitPaths(tg)
  {
    InitPathsShape(tg);
  }

  /** A path off the package, or inside it under a name not starting with one of `hfmks`, is no package path. */
  lemma NotPackage(tg: Path, f: Path)
    requires |f| == |tg| + 1 && f[..|tg|] == tg && f[|tg|] != [] && f[|tg|][0] !in "hfmks"
    ensures f !in PackagePaths(tg)
  {
    PackagePathsShape(tg);
  }

  /**
   * A path of the project directory or the package, named without a
   * leading `_`, is neither a package nor an init file, and so is absent
   * once those are added to a tree with nothing below the project.
   */
  lemma EntryAbsent(t: Tree, p: Path, f: Path)
    requires forall q :: q in t ==> !Below(q, p)
    requires Below(f, p) && f[|f| - 1] != [] && f[|f| - 1][0] != '_'
    requires f !in PackagePaths(p + [Tgbot])
    ensures f !in t + NodesAt(PackagePaths(p + [Tgbot]), Dir) + NodesAt(InitPaths(p + [Tgbot]), File(""))
  {
    var tg := p + [Tgbot];
    BelowAbsent(t, p, f);
    NotInit(tg, f);
    NotAdded(t, PackagePaths(tg), Dir, f);
    NotAdded(t + NodesAt(PackagePaths(tg), Dir), InitPaths(tg), File(""), f);
  }

  /** An entry the added paths miss keeps its node. */
  lemma KeptBy(t: Tree, paths: seq<Path>, n: Node, q: Path)
    requires q in t && q !in paths
    ensures q in t + NodesAt(paths, n) && (t + NodesAt(paths, n))[q] == t[q]
  {
  }

  /** An added path holds the added node. */
  lemma AddedBy(t: Tree, paths: seq<Path>, n: Node, q: Path)
    requires q in paths
    ensures q in t + NodesAt(paths, n) && (t + NodesAt(paths, n))[q] == n
  {
  }

  /** The project directory and the package are directories once the packages are added. */
  lemma ProjectDirsReady(t: Tree, p: Path)
    requires IsDir(t, p)
    ensures var tg := p + [Tgbot];
      var t3 := t + NodesAt(PackagePaths(tg), Dir) + NodesAt(InitPaths(tg), File(""));
      IsDir(t3, p) && IsDir(t3, tg)
  {
    var tg := p + [Tgbot];
    var t2 := t + NodesAt(PackagePaths(tg), Dir);
    PackageDirAdded(t, p);
    if p != [] {
      PackagePathsShape(tg);
      assert p !in PackagePaths(tg);
      KeptBy(t, PackagePaths(tg), Dir, p);
      InitPathsLonger(tg);
      KeptBy(t2, InitPaths(tg), File(""), p);
    }
  }

  /** The package directory is among the added package paths and no init path. */
  lemma PackageDirAdded(t: Tree, p: Path)
    ensures var tg := p + [Tgbot];
      var t3 := t + NodesAt(PackagePaths(tg), Dir) + NodesAt(InitPaths(tg), File(""));
      IsDir(t3, tg)
  {
    var tg := p + [Tgbot];
    InitPathsShape(tg);
    assert tg[|tg| - 1] == Tgbot;
    AddedBy(t, PackagePaths(tg), Dir, tg);
    KeptBy(t + NodesAt(PackagePaths(tg), Dir), InitPaths(tg), File(""), tg);
  }

  /** Every init path is longer than the package path. */
  lemma InitPathsLonger(tg: Path)
    ensures forall q :: q in InitPaths(tg) ==> |tg| < |q|
  {
  }

  /** A name of the project directory other than the package, with no leading `_`, stays free. */
  lemma TopEntryAbsent(t: Tree, p: Path, name: string)
    requires forall q :: q in t ==> !Below(q, p)
    requires name != Tgbot && name != [] && name[0] != '_'
    ensures p + [name] !in t + NodesAt(PackagePaths(p + [Tgbot]), Dir) + NodesAt(InitPaths(p + [Tgbot]), File(""))
  {
    var f := p + [name];
    var tg := p + [Tgbot];
    assert f[..|p|] == p;
    assert f[|f| - 1] == name;
    PackagePathsShape(tg);
    assert f !in PackagePaths(tg);
    EntryAbsent(t, p, f);
  }

  /** A name inside the package not starting with one of `hfmks` or `_` stays free. */
  lemma PackageEntryAbsent(t: Tree, p: Path, name: string)
    requires forall q :: q in t ==> !Below(q, p)
    requires name != [] && name[0] !in "hfmks_"
    ensures p + [Tgbot, name] !in t + NodesAt(PackagePaths(p + [Tgbot]), Dir) + NodesAt(InitPaths(p + [Tgbot]), File(""))
  {
    var tg := p + [Tgbot];
    var f := p + [Tgbot, name];
    assert f == tg + [name];
    assert f[..|p|] == p;
    assert f[|f| - 1] == name;
    NotPackage(tg, f);
    EntryAbsent(t, p, f);
  }

  /** Once the packages and their `__init__.py` exist, no file step's path is taken. */
  lemma ManifestAbsent(t: Tree, p: Path)
    requires IsDir(t, p) && forall q :: q in t ==> !Below(q, p)
    ensures var tg := p + [Tgbot];
      var t3 := t + NodesAt(PackagePaths(tg), Dir) + NodesAt(InitPaths(tg), File(""));
      IsDir(t3, p) && IsDir(t3, tg) &&
      p + ["env.env"] !in t3 && p + [".env"] !in t3 && p + ["requirements.txt"] !in t3 && p + ["bot.py"] !in t3 &&
      p + [Tgbot, "config.py"] !in t3
  {
    ProjectDirsReady(t, p);
    TopEntryAbsent(t, p, "env.env");
    TopEntryAbsent(t, p, ".env");
    TopEntryAbsent(t, p, "requirements.txt");
    TopEntryAbsent(t, p, "bot.py");
    PackageEntryAbsent(t, p, "config.py");
  }

  /**
   * `create_all_project_file` on an existing directory with nothing below
   * it, with every template present and rendering: it succeeds and adds
   * exactly the project's manifest.
   */
  lemma ProjectFresh(t: Tree, tm: Templates, p: Path, useRedis: bool, useDb: bool, parseMode: Value)
    requires TemplatesRender(tm, useRedis, useDb, parseMode)
    requires IsDir(t, p) && forall q :: q in t ==> !Below(q, p)
    ensures ProjectCreated(t, tm, p, useRedis, useDb, parseMode) ==
      Ran((), ProjectTree(t, p, Render(tm["env.env"], EnvBindings(useRedis)).value,
                          Render(tm["requirements.txt"], RequirementsBindings(useRedis, useDb)).value,
                          Render(tm["bot.py"], BotBindings(parseMode)).value, tm["config.py"]))
  {
    var tg := p + [Tgbot];
    PackagePathsFresh(t, p);
    FoldersFresh(t, PackagePaths(tg));
    InitPathsFresh(t, p);
    EmptyFilesFresh(t + NodesAt(PackagePaths(tg), Dir), InitPaths(tg));
    ManifestAbsent(t, p);
    ProjectFilesFresh(t + NodesAt(PackagePaths(tg), Dir) + NodesAt(InitPaths(tg), File("")), tm, p, useRedis, useDb, parseMode);
  }
}
