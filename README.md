# aiogram_boost scaffolder, modelled in Dafny

`aiogram_boost` is a command-line generator for aiogram Telegram-bot
projects. `startproject` lays out a project directory: the `tgbot` package
and six sub-packages, each with an empty `__init__.py`, then `.env`,
`requirements.txt`, `bot.py` and `tgbot/config.py`, each copied from a
bundled template and formatted with the answers to the prompts. The `new`
commands add pieces to an existing project:
- `new handler` copies a handler module and registers it in `bot.py` by
  rewriting the `# extended imports` and `# extended handlers` markers;
- `new command` adds a `BotCommand` entry at the `# extended commands`
  marker;
- `new state` and `new keyboard` copy a formatted module into
  `tgbot/misc` and `tgbot/keyboards`.

This project models that core as follows.

- **`FileTree`** (`filetree.dfy`): the file system, as a map from paths to
  directories and files. It holds the four POSIX calls the code makes,
  each with the `OSError` it raises:
  - `Path.mkdir`;
  - `open(…, "a")` and `open(…, "a+")`;
  - `shutil.copy`;
  - `Path.rename`.
- **`PyStr` and `PyFormat`** (`pystr.dfy`, `pyformat.dfy`): the Python
  string operations the builders rely on:
  - `str.replace` and `str.count`;
  - `"\n".join` and `str.split`;
  - ASCII `str.capitalize` and `str.title`;
  - `str.format(**kwargs)` for plain keyword fields, with every error it
    raises.
- **`Utils`** (`utils.dfy`): `is_dir_empty`.
- **`BotLayout` and `BotTemplate`** (`bot_layout.dfy`, `bot_template.dfy`):
  - the shipped `template/bot.py`, held as text and cut into fifteen
    pieces;
  - its five marker comments and its one format field, `{parse_mode}`.
- **`Registration`** (`registration.dfy`):
  - `BotFile(sk, pm, handlers, commands)` is the `bot.py` that results from
    any sequence of `make_handler` and `make_command` calls whose emitted
    text is *clean*: no `#` in a `BotCommand` entry, an import line or a
    registration call begins `# extended ` (the start of every marker), or
    a prefix of it at the end of that text. A `#` anywhere else in a name
    or description, as in `Fix item #5` or `Learn C#`, is allowed;
  - the proofs show that each call's replacement table takes one bot file
    to the next;
  - it also holds the corrected replacement tables (see Findings).
- **`Create`** (`create.dfy`): every builder of `create.py`, in two forms:
  - as a function from a tree to a `Run` (the return value, or the
    exception raised, together with the tree the call leaves behind);
  - as a method of the class `FileSystem`, whose `entries` field it updates
    call by call, in the code's order. The method is proved to match the
    function.
- **`CreateProps`** (`create_props.dfy`): what the builders do on the trees
  a user meets:
  - a fresh project directory;
  - a project whose `bot.py` is a bot file;
  - a second run of the same command.
- **`Cli`** (`cli.dfy`): `startproject` and the `new` commands:
  - the answers to Click's prompts are parameters;
  - a guard that echoes a message and returns is a `Refused` reply that
    leaves the tree unchanged.

The model follows the code where the code and its documentation disagree:
- `str.replace` with a marker that is absent changes nothing and raises
  nothing, so no "anchor not found" error exists.
- `format_file` and `format_with_replace` open with `"a+"`. A missing
  target is therefore created empty, and the call succeeds:
  `CommandWithoutBot`.
- The parse-mode prompt offers `HTML`, `Markdowv` and `MarkdownV2`.
  `Markdowv` is the code's spelling. The parameter is annotated `bool` but
  is the chosen string.
- The `# extended imports` marker is consumed by the first `make_handler`.
  It is not re-emitted (Findings).
- "already exists", "not empty" and "not a directory" are messages that
  the command echoes before returning normally. They are not exceptions.
- `create_venv` is passed along but never read.
- When `format_file` raises, the raw template copy it was formatting stays
  in place.

## Model

| member | source | states |
|---|---|---|
| FileTree.DirError | aiogram_boost/create.py:15 | resolving a parent gives no error exactly when it is a directory; otherwise ENOENT or ENOTDIR naming the target |
| FileTree.MkdirSpec | aiogram_boost/create.py:12-16 | `mkdir` succeeds iff the parent is a directory and the name is free, and then adds exactly that directory; an existing name under a directory fails with EEXIST |
| FileTree.OpenAppendSpec | aiogram_boost/create.py:19-24 | append-open succeeds iff the parent is a directory and the path is not a directory; an existing file is untouched; a missing one is created empty |
| FileTree.OpenAppend | aiogram_boost/create.py:22 | a successful append-open leaves a file at the path |
| FileTree.Copy | aiogram_boost/create.py:7-9 | a successful copy writes the text to one non-root path and changes nothing else |
| FileTree.MissingParent | aiogram_boost/create.py:15 | below a missing directory the call fails with ENOENT, or ENOTDIR when an ancestor is a file; always ENOENT when the tree holds no files |
| FileTree.MkdirWellFormed | aiogram_boost/create.py:15 | `mkdir` keeps every entry below a directory |
| FileTree.OpenAppendWellFormed | aiogram_boost/create.py:22 | append-open keeps every entry below a directory |
| FileTree.CopyWellFormed | aiogram_boost/create.py:9 | `shutil.copy` keeps every entry below a directory |
| FileTree.RenameWellFormed | aiogram_boost/create.py:43 | renaming a file keeps every entry below a directory |
| Utils.EntryMakesNonEmpty | aiogram_boost/utils.py:4-5 | a directory with a named entry is not empty |
| Utils.MkdirMakesNonEmpty | aiogram_boost/utils.py:4-5 | after a successful `mkdir` inside `p`, `p` is not empty |
| Utils.OpenAppendMakesNonEmpty | aiogram_boost/utils.py:4-5 | after creating a file inside `p`, `p` is not empty |
| Utils.EmptyHasNothingBelow | aiogram_boost/utils.py:4-5 | in a well-formed tree, an empty directory has no entry at any depth below it |
| Utils.BelowMakesNonEmpty | aiogram_boost/utils.py:4-5 | an entry anywhere below `p` makes `p` non-empty |
| Utils.AncestorPresent | aiogram_boost/utils.py:4-5 | every non-empty prefix of an entry of a well-formed tree is itself an entry |
| PyStr.ReplaceLength | aiogram_boost/create.py:114 | `replace` changes the length by `count × (len(v) − len(k))` |
| PyStr.ReplaceSelf | aiogram_boost/create.py:114 | replacing a string by itself is the identity |
| PyStr.ReplaceAbsent | aiogram_boost/create.py:114 | a text that lacks a character of the key is unchanged, with zero matches |
| PyStr.ReplaceEmptyLength | aiogram_boost/create.py:114 | `s.replace("", v)` inserts `v` at each of the `len(s)+1` positions |
| PyStr.ReplaceEmptyNothing | aiogram_boost/create.py:114 | `s.replace("", "")` is `s` |
| PyStr.ReplaceNoMatch | aiogram_boost/create.py:114 | a key that `count` does not find leaves the text unchanged under `replace` |
| PyStr.ReplaceSkip | aiogram_boost/create.py:114 | a prefix without the key's first character passes through unchanged |
| PyStr.ReplaceWhole | aiogram_boost/create.py:114 | the key alone is replaced once |
| PyStr.ReplaceOther | aiogram_boost/create.py:114 | a text that does not start with the key and lacks the key's first character later on is unchanged |
| PyStr.ReplaceAcross | aiogram_boost/create.py:114 | replacing across a separator that is not in the key works piecewise, and the counts add |
| PyStr.ReplaceLines | aiogram_boost/create.py:114 | replacing a newline-free key in joined lines is replacing it line by line |
| PyStr.CountLines | aiogram_boost/create.py:114 | the count of a newline-free key in joined lines is the sum of the per-line counts |
| PyStr.NotInUnlines | aiogram_boost/create.py:66 | joined lines contain a non-newline character only when some line does |
| PyStr.UnlinesAppend | aiogram_boost/create.py:66 | joining two non-empty line lists puts one newline between the parts |
| PyStr.JoinSplit | aiogram_boost/create.py:66 | joining the pieces of `s.split(sep)` with `sep` gives back `s` |
| PyStr.SplitJoin | aiogram_boost/create.py:66 | splitting a join of separator-free parts gives back the parts |
| PyStr.SplitPlain | aiogram_boost/create.py:66 | a text without the separator splits into itself alone |
| PyStr.LowerAll | aiogram_boost/create.py:147 | lower-casing keeps the length and lower-cases each character |
| PyStr.CapitalizeShape | aiogram_boost/create.py:147 | `capitalize` keeps the length, upper-cases the first character and lower-cases the rest |
| PyStr.TitleOfWord | aiogram_boost/create.py:126 | on a word of letters, `title()` equals `capitalize()` |
| PyStr.TitleAfterWord | aiogram_boost/create.py:126 | after a letter, `title()` lower-cases a run of letters |
| PyFormat.Digits | aiogram_boost/create.py:53 | `str(n)` is a non-empty string of decimal digits |
| PyFormat.FieldLength | aiogram_boost/create.py:53 | a field name runs to the first `}`, `{`, `!`, `:`, `.` or `[`, and only that far |
| PyFormat.RenderPlain | aiogram_boost/create.py:53 | text without braces formats to itself, whatever the bindings |
| PyFormat.RenderEscape | aiogram_boost/create.py:53 | formatting undoes brace doubling: a round trip for any text |
| PyFormat.RenderField | aiogram_boost/create.py:53 | a bound `{name}` is replaced by the value's `str()`, and formatting continues after it |
| PyFormat.RenderMissing | aiogram_boost/create.py:53 | an unbound `{name}` raises `KeyError(name)` |
| PyFormat.RenderConcat | aiogram_boost/create.py:53 | formatting a concatenation whose first part formats is formatting the parts in turn |
| PyFormat.RenderMoreBindings | aiogram_boost/create.py:53 | extra keyword arguments do not change a successful format |
| PyFormat.FieldLengthOfName | aiogram_boost/create.py:53 | a field name ends exactly at its closing brace |
| BotLayout.Layout | aiogram_boost/template/bot.py:1-68 | a bot file is fifteen pieces, with the imports, commands, handlers and parse-mode parts at fixed places |
| BotLayout.MarkersDiffer | aiogram_boost/template/bot.py:9-32 | no marker comment is a prefix of another |
| BotLayout.InertUnchanged | aiogram_boost/template/bot.py:1-68 | a piece without `#` is untouched by a marker replacement and holds no marker |
| BotLayout.CleanConcat | aiogram_boost/create.py:114 | clean texts joined are clean: no marker can start in the first and run on into the second |
| BotLayout.CleanSkip | aiogram_boost/create.py:114 | no match of a marker starts inside clean text: `replace` copies it through and `count` finds nothing there, whatever follows |
| BotLayout.CleanUnchanged | aiogram_boost/create.py:114 | clean text is unchanged by a marker replacement and holds no marker |
| BotLayout.MarkerLine | aiogram_boost/template/bot.py:9-32 | an indented marker line is rewritten only by its own marker, exactly once |
| BotLayout.LayoutReplace | aiogram_boost/create.py:113-114 | replacing any marker but middlewares or filters in a sound bot file rewrites only the three variable pieces |
| BotLayout.LayoutCount | aiogram_boost/template/bot.py:9-32 | a marker's count in a bot file is its count in the variable pieces, plus one for the middlewares and filters markers |
| BotLayout.PristineCount | aiogram_boost/template/bot.py:9-32 | in the pristine layout each of the five markers occurs exactly once |
| BotLayout.LayoutRender | aiogram_boost/create.py:101-103 | formatting a brace-free layout with `{name}` bound puts the value's `str()` in the parse-mode slot |
| BotLayout.LayoutRenderMissing | aiogram_boost/create.py:101-103 | formatting it with `{name}` unbound raises `KeyError(name)` |
| BotTemplate.ShippedSound | aiogram_boost/template/bot.py:1-68 | the shipped fixed text has no marker and no brace outside the parse-mode field |
| BotTemplate.TemplateMarkers | aiogram_boost/template/bot.py:9-32 | the shipped template holds each of the five markers exactly once |
| BotTemplate.TemplateRender | aiogram_boost/template/bot.py:44 | formatting the template substitutes `parse_mode` and nothing else, or raises `KeyError('parse_mode')` when unbound |
| BotTemplate.ExtensionPoints | aiogram_boost/template/bot.py:9-32 | the markers appear in the order imports, commands, middlewares, filters, handlers; the command list's body lies between `set_my_commands([` and `])` |
| BotTemplate.OrdinaryUnlines | aiogram_boost/template/bot.py:1-68 | lines without `#`, newline or brace join into text without them |
| Registration.ApplyTwo | aiogram_boost/create.py:113-114 | a two-entry table is applied first entry first, in dict order |
| Registration.BotFilePristine | aiogram_boost/template/bot.py:1-68 | with no handlers and no commands, the bot file is the pristine layout |
| Registration.ImportsRewrite | aiogram_boost/create.py:127-129 | the imports replacement puts in the first handler's import; after that, the piece is unchanged |
| Registration.OtherPiecesKept | aiogram_boost/create.py:127-141 | replacing one marker leaves the other variable pieces unchanged |
| Registration.HandlerStep | aiogram_boost/create.py:127-132 | `make_handler`'s table takes `BotFile(handlers)` to `BotFile(handlers + [name])` |
| Registration.CommandStep | aiogram_boost/create.py:138-141 | `make_command`'s table appends the command: `BotFile(commands)` becomes `BotFile(commands + [c])` |
| Registration.BotFileMarkers | aiogram_boost/create.py:127-141 | every marker stays in the bot file exactly once, except the imports marker, which is gone once a handler was added |
| Registration.NameClean | aiogram_boost/create.py:127-131 | a name without a marker-starting `#` gives a clean import line and clean registration calls |
| Registration.CommandEntryClean | aiogram_boost/create.py:139-140 | a clean name and a clean description give a clean `BotCommand` entry |
| Registration.HandlerCallsClean | aiogram_boost/create.py:130-131 | the registration calls of clean handler names join into a clean line prefix, which holds no marker |
| Registration.CommandEntriesClean | aiogram_boost/create.py:139-140 | clean command entries join into a clean command-list body, which holds no marker |
| Registration.HashInDescription | aiogram_boost/create.py:136-141 | a description with a `#` that starts no marker (`Fix item #5`) gives a clean entry, and a later `make_command` still appends after it |
| Registration.HashAtEndOfDescription | aiogram_boost/create.py:136-141 | a description ending in `#` (`Learn C#`) is not clean itself, but its entry is, and a later `make_command` still appends after it |
| Registration.MarkerInDescription | aiogram_boost/create.py:138-141 | a description that holds the commands marker gives an entry that is not clean, and leaves that marker twice in the bot file |
| Registration.LaterImportLost | aiogram_boost/create.py:128-129 | once a handler is added, a later one is registered but never imported |
| Registration.CallsOnOneLine | aiogram_boost/create.py:130-131 | all registration calls share the marker's line |
| Registration.SecondHandlerNotImported | aiogram_boost/create.py:127-132 | two `make_handler` calls on a fresh bot file import only the first handler and put both calls on one line |
| Registration.FixedHandlerStep | aiogram_boost/create.py:127-132 | the corrected table takes `FixedBotFile(handlers)` to `FixedBotFile(handlers + [name])` |
| Registration.FixedMarkers | aiogram_boost/create.py:127-132 | with the corrected table, every marker stays exactly once, after any number of handlers and commands |
| Registration.FixedOneLineEach | aiogram_boost/create.py:127-132 | with the corrected table, each import and each registration call is a line of its own |
| Create.FileSystem.CreateFolder | aiogram_boost/create.py:12-16 | the new entries and the result are those `FolderCreated` gives for the old entries |
| Create.FileSystem.CreateEmptyFile | aiogram_boost/create.py:19-24 | the new entries and the result are those `EmptyFileCreated` gives |
| Create.FileSystem.CopyFileFromTemplate | aiogram_boost/create.py:27-45 | copy, then rename when a new name is given; the state matches `CopiedFromTemplate`, including the tree left behind when the rename fails |
| Create.FileSystem.FormatFile | aiogram_boost/create.py:48-56 | append-open, format, write back; the state matches `Formatted` |
| Create.FileSystem.FormatWithReplace | aiogram_boost/create.py:108-117 | append-open, replace each pair in order, write back; the state matches `Replaced` |
| Create.FileSystem.CreateRequirementsFile | aiogram_boost/create.py:59-67 | the state matches `RequirementsCreated` |
| Create.FileSystem.CreateEnvFile | aiogram_boost/create.py:70-73 | the state matches `EnvCreated` |
| Create.FileSystem.CreatePackageFolders | aiogram_boost/create.py:82-88 | the seven `create_folder` calls in order, stopping at the first that raises; the result is the `tgbot` path |
| Create.FileSystem.CreatePackageInits | aiogram_boost/create.py:90-96 | the seven `create_empty_file` calls in order, stopping at the first that raises |
| Create.FileSystem.CreateProjectFiles | aiogram_boost/create.py:98-104 | `.env`, `requirements.txt`, the formatted `bot.py`, then `config.py`; the state matches `ProjectFilesCreated` |
| Create.FileSystem.CreateAllProjectFile | aiogram_boost/create.py:76-104 | the state matches `ProjectCreated` |
| Create.FileSystem.MakeHandler | aiogram_boost/create.py:120-133 | the state matches `HandlerMade` |
| Create.FileSystem.MakeCommand | aiogram_boost/create.py:136-142 | the state matches `CommandMade` |
| Create.FileSystem.MakeState | aiogram_boost/create.py:144-148 | the state matches `StateMade` |
| Create.FileSystem.MakeKeyboard | aiogram_boost/create.py:151-162 | the state matches `KeyboardMade` |
| Create.AdvanceFolders | aiogram_boost/create.py:82-88 | one `create_folder` of the sequence decides whether the rest run |
| Create.AdvanceEmptyFiles | aiogram_boost/create.py:90-96 | one `create_empty_file` of the sequence decides whether the rest run |
| CreateProps.CopyMissingTemplate | aiogram_boost/create.py:34-40 | a missing template raises and changes nothing |
| CreateProps.CopyPlaced | aiogram_boost/create.py:27-45 | copying into a directory puts the template text at the target; with a rename, the intermediate `dir/name` is gone afterwards |
| CreateProps.FormattedCopyPlaced | aiogram_boost/create.py:40-56 | a formatted copy holds the rendered text, or the raw template together with the format error |
| CreateProps.FormatSpec | aiogram_boost/create.py:48-56 | `format_file` writes the rendered text or raises leaving the file intact; a missing file becomes an empty one; a directory raises EISDIR |
| CreateProps.ReplaceSpec | aiogram_boost/create.py:108-117 | `format_with_replace` writes the replaced text; a missing file becomes an empty one; a directory raises EISDIR |
| CreateProps.RequirementsText | aiogram_boost/create.py:61-66 | the optional dependencies are `sqlalchemy`, then `aioredis`, newline-separated, each only when chosen |
| CreateProps.KeyboardFileNamesDistinct | aiogram_boost/create.py:153-160 | two keyboards share a file name iff they have the same name and kind |
| CreateProps.HandlerFileNamesDistinct | aiogram_boost/create.py:124 | handler file names are distinct for distinct names |
| CreateProps.StateFileNamesDistinct | aiogram_boost/create.py:146 | state file names are distinct for distinct names |
| CreateProps.KeyboardBindingValues | aiogram_boost/create.py:153-161 | inline gives `btn_type` "inline" and `type` "Inline"; reply gives "" and "Reply" |
| CreateProps.HandlerTypeTitle | aiogram_boost/create.py:126 | for a word of letters, `type_title` is the capitalised type |
| CreateProps.HandlerPlaced | aiogram_boost/create.py:120-133 | `make_handler` writes the rendered module under the handler's name and gives `bot.py` the text its table produces; nothing else changes |
| CreateProps.HandlerRegisters | aiogram_boost/create.py:120-133 | on a project with a bot file, `make_handler` writes the rendered module and advances `bot.py` by that handler; nothing else changes |
| CreateProps.CommandRegisters | aiogram_boost/create.py:136-142 | on a project with a bot file, `make_command` appends the command to `bot.py`; nothing else changes |
| CreateProps.CommandWithoutBot | aiogram_boost/create.py:136-142 | without `bot.py`, `make_command` reports success and leaves an empty `bot.py` |
| CreateProps.HandlerTemplateClobbers | aiogram_boost/create.py:122-125 | as written, `make_handler` for another name removes an existing `handlers/handler.py` |
| CreateProps.FixedHandlerKeepsOthers | aiogram_boost/create.py:122-125 | with the copy written straight to its final name, every other entry is kept |
| CreateProps.StateModule | aiogram_boost/create.py:144-148 | `make_state` writes the rendered state module at `misc/<name>_state.py` |
| CreateProps.PlacedTwice | aiogram_boost/create.py:27-45 | placing the same text twice is placing it once |
| CreateProps.KeyboardTwice | aiogram_boost/create.py:151-162 | a second `make_keyboard` with the same arguments gives the same result and tree |
| CreateProps.ProjectTwice | aiogram_boost/create.py:82 | creating a project where `tgbot` exists raises EEXIST and changes nothing |
| CreateProps.FoldersFresh | aiogram_boost/create.py:82-88 | over fresh paths, the folder sequence adds exactly those directories |
| CreateProps.EmptyFilesFresh | aiogram_boost/create.py:90-96 | over fresh paths, the file sequence adds exactly those empty files |
| CreateProps.PackagePathsFresh | aiogram_boost/create.py:82-88 | in a directory with nothing below it, each package folder's parent is ready in turn |
| CreateProps.InitPathsFresh | aiogram_boost/create.py:90-96 | after the folders, each `__init__.py` is fresh and has its package as its parent |
| CreateProps.EnvFresh | aiogram_boost/create.py:70-73 | with no `env.env` or `.env`, the result is just the rendered `.env` |
| CreateProps.FormattedFresh | aiogram_boost/create.py:101-104 | a fresh formatted copy adds just the rendered file |
| CreateProps.ProjectFilesFresh | aiogram_boost/create.py:98-104 | in a fresh project, the four files are written with their rendered texts |
| CreateProps.ProjectFresh | aiogram_boost/create.py:76-104 | in an empty directory, `create_all_project_file` succeeds and leaves exactly the project tree: seven packages, seven `__init__.py`, `.env`, `requirements.txt`, `bot.py`, `config.py` |
| Cli.StartprojectRefusal | aiogram_boost/cli.py:20-27 | `startproject` refuses iff the path exists and is a file or a non-empty directory; a refusal gives the reason and changes nothing |
| Cli.StartprojectInEmptyDir | aiogram_boost/cli.py:42-48 | in an existing empty directory, the project tree is created |
| Cli.StartprojectInMissingDir | aiogram_boost/cli.py:42-48 | a missing directory is created first, then the project tree inside it |
| Cli.StartprojectTwice | aiogram_boost/cli.py:20-24 | `startproject` on a generated project is refused as not empty |
| Cli.ShippedBotFile | aiogram_boost/cli.py:29-48 | each offered parse mode formats the shipped template into the pristine bot file |
| Cli.NewHandlerRefusal | aiogram_boost/cli.py:63-68 | `new handler` refuses iff `handlers/<name>.py` exists, and a refusal changes nothing |
| Cli.NewStateRefusal | aiogram_boost/cli.py:76-82 | `new state` refuses iff `misc/<name>_state.py` exists, and a refusal changes nothing |
| Cli.NewHandlerTwice | aiogram_boost/cli.py:63-68 | after a successful `new handler`, the same name is refused |
| Cli.NewStateTwice | aiogram_boost/cli.py:76-82 | after a successful `new state`, the same name is refused |
| Cli.NewKeyboardTwice | aiogram_boost/cli.py:111-115 | `new keyboard` has no guard; repeating it is idempotent |
| Cli.NewCommandOnce | aiogram_boost/cli.py:122-126 | on a project whose `bot.py` is a bot file, `new command` appends the command, changes nothing else, and leaves a bot file again |
| Cli.NewCommandTwice | aiogram_boost/cli.py:122-126 | `new command` has no guard; repeating it registers the command twice |
| Cli.Startproject | aiogram_boost/cli.py:16-48 | the guards, the optional `create_folder`, then `create_all_project_file`; the state matches `StartprojectRun` |
| Cli.NewHandler | aiogram_boost/cli.py:61-68 | the state matches `NewHandlerRun` |
| Cli.NewState | aiogram_boost/cli.py:74-82 | the state matches `NewStateRun` |
| Cli.NewKeyboard | aiogram_boost/cli.py:111-115 | the state matches `NewKeyboardRun` |
| Cli.NewCommand | aiogram_boost/cli.py:122-126 | the state matches `NewCommandRun` |

## Left out

- Output from `click.echo` is not modelled, because the model has no
  console. Click's prompts, argument parsing and decorators are not
  modelled either: the prompt answers are parameters of the model.
- `new model`, `new filter` and `new middleware` are left out. They only
  echo a fixed text and touch no file.
- Only part of the operating system is modelled:
  - permissions, disk-full conditions and symbolic links are left out;
  - file attributes that `shutil.copy` carries over are left out;
  - concurrent writers are left out;
  - relative paths are resolved against the working directory by the
    caller, so a path is a list of names from the root.
- The templates other than `bot.py` (`handler.py`, `state.py`,
  `keyboard.py`, `env.env`, `requirements.txt`, `config.py`) are not part
  of this model. They are a parameter, a map from file name to text, and
  the lemmas state the result in terms of whatever they render to.
- `str.format` conversions (`!r`), format specifications (`:>8`), indexing
  and attribute fields are not modelled in full. They are recognised and
  reported as `Unsupported`, because no template uses them.
- `Capitalize` and `Title` are modelled for ASCII only. Python's full
  Unicode case mapping, for example `ß` upper-cased to `SS`, is left out.
- The generated bot is never run. What aiogram does with the file is out
  of scope.
- A file's text is a Python `str`. Text encodings and newline translation
  are left out.
- Registration.OtherPiecesKept, Registration.HandlerStep,
  Registration.CommandStep, Registration.BotFileMarkers,
  Registration.FixedHandlerStep, Registration.FixedMarkers,
  CreateProps.HandlerRegisters, CreateProps.CommandRegisters,
  Cli.NewCommandOnce and Cli.NewCommandTwice are stated for clean emitted
  text only. Clean is a sufficient condition, chosen because it survives
  concatenation. It leaves out:
  - every entry, import line or call that holds a marker. The next call
    rewrites that copy too, so the bot file no longer has the `BotFile`
    shape; Registration.MarkerInDescription exhibits such a case;
  - an entry holding `# extended ` followed by anything else, for example
    `# extended notes`, which holds no marker and which the code handles
    correctly;
  - a handler name that ends on a start of `# extended `, such as `a#`.
    The import line ends with the name, so the line is not clean, although
    it holds no marker. Such a name is not
    a Python identifier, and the import line it produces is broken anyway.
- Create.HandlerFileName, Create.StateFileName, Create.KeyboardFileName,
  Create.FileSystem.MakeHandler, Create.FileSystem.MakeState,
  Create.FileSystem.MakeKeyboard, Cli.NewHandler, Cli.NewState and
  Cli.NewKeyboard take each name as one path segment. A name holding `/`,
  or equal to `.` or `..`, would make Python's path `/` operator reach
  another directory; those names are not modelled.

## Findings

| source | as written | input that shows it | evidently intended | confidence | as-written member | corrected member |
|---|---|---|---|---|---|---|
| aiogram_boost/create.py:128-129 | the imports marker is replaced by the import line and not re-emitted | `new handler a`, then `new handler b`: `b`'s import line is never written. The first failure of that file is the syntax error of the next row; once the calls are on separate lines, `register_all_handlers` raises `NameError` for `register_b` | each handler's import on its own line, with the marker kept for the next one | high (not executed) | Registration.SecondHandlerNotImported | Registration.FixedHandlerStep |
| aiogram_boost/create.py:130-131 | the handlers marker is re-emitted after four spaces on the same line | two `new handler` calls give `register_a(dp)    register_b(dp)    # extended handlers` on one line, which is a syntax error | one registration call per line | high (not executed) | Registration.CallsOnOneLine | Registration.FixedOneLineEach |
| aiogram_boost/create.py:122-125 | the template is copied to `handlers/handler.py` and then renamed | a project with a handler named `handler`, then `new handler start`: the user's `handler.py` is overwritten by the template copy, which is then renamed to `start.py`, so the user's module is lost | copy straight to `handlers/<name>.py`, leaving other modules alone | high (not executed) | CreateProps.HandlerTemplateClobbers | CreateProps.FixedHandlerKeepsOthers |
