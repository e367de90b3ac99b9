/**
 * The `bot.py` template shipped in `aiogram_boost/template/`, held as text,
 * one constant per line, and cut into the fixed pieces of a `Skeleton`:
 * the template is the layout of `BotLayout` with the field `{parse_mode}`
 * and the five bare marker lines in the places that vary.
 */
module BotTemplate {
  import opened Wrappers
  import opened PyStr
  import opened PyFormat
  import opened BotLayout

  // ---------------------------------------------------------------------
  // The lines of bot.py that never change (empty lines are written "" below)
  // ---------------------------------------------------------------------

  const Line1 := "import asyncio"
  const Line2 := "import logging"
  const Line4 := "from aiogram import Bot, Dispatcher"
  const Line5 := "from aiogram.types import BotCommand"
  const Line8 := "from tgbot.config import load_config"
  const Line11 := "logger = logging.getLogger(__name__)"
  const Line14 := "async def register_all_commands(bot: Bot):"
  const Line15 := "    await bot.set_my_commands(["
  const Line17 := "    ])"
  const Line20 := "def register_all_middlewares(dp):"
  const Line21 := "    \"register all middlewares\""
  const Line25 := "def register_all_filters(dp):"
  const Line26 := "    \"register all filters\""
  const Line30 := "def register_all_handlers(dp):"
  const Line31 := "    \"register all handlers\""
  const Line35 := "async def main():"
  const Line36 := "    logging.basicConfig("
  const Line37 := "        level=logging.INFO,"
  const Line39 := "    )"
  const Line40 := "    logger.info(\"Starting bot\")"
  const Line41 := "    config = load_config(\".env\")"
  const Line45 := "    dp = Dispatcher(bot, storage=storage)"
  const Line47 := "    bot['config'] = config"
  const Line49 := "    register_all_middlewares(dp)"
  const Line50 := "    register_all_filters(dp)"
  const Line51 := "    register_all_handlers(dp)"
  const Line52 := "    await register_all_commands(bot)"
  const Line53 := "    "
  const Line55 := "    # start"
  const Line56 := "    try:"
  const Line57 := "        await dp.start_polling()"
  const Line58 := "    finally:"
  const Line59 := "        await dp.storage.close()"
  const Line60 := "        await dp.storage.wait_closed()"
  const Line61 := "        await bot.session.close()"
  const Line64 := "if __name__ == '__main__':"
  const Line65 := "    try:"
  const Line66 := "        asyncio.run(main())"
  const Line67 := "    except (KeyboardInterrupt, SystemExit):"
  const Line68 := "        logger.error(\"Bot stopped!\")"
  const Line6: string := Line6a + Line6b + Line6c
  const Line6a := "from "
  const Line6b := "aiogram.contrib.fsm_storage.memory "
  const Line6c := "import MemoryStorage"
  const Line38: string := Line38a + Line38b + Line38c + Line38d
  const Line38a := "        "
  const Line38b := "format=u'%(filename)s:%(lineno)d "
  const Line38c := "#%(levelname)-8s [%(asctime)s] - "
  const Line38d := "%(name)s - %(message)s',"
  const Line43: string := Line43a + Line43b + Line43c
  const Line43a := "    storage = RedisStorage2() if "
  const Line43b := "config.tg_bot.use_redis else "
  const Line43c := "MemoryStorage()"
  /** Line 44 around its `{parse_mode}` field. */
  const Line44Head: string := Line44a + Line44b
  const Line44a := "    bot = Bot(token=config.tg_bot.token, "
  const Line44b := "parse_mode=\""
  const Line44Tail := "\")"

  // ---------------------------------------------------------------------
  // The fixed pieces between the places that vary
  // ---------------------------------------------------------------------

  /** Lines 1-8: imports. */
  const HeadLines: seq<string> := [Line1, Line2, "", Line4, Line5, Line6, "", Line8]
  const Head: string := Unlines(HeadLines)

  /** Lines 10-15: the logger and the head of `register_all_commands`, up to the open command list. */
  const Block1Lines: seq<string> := ["", Line11, "", "", Line14, Line15]
  const Block1: string := Unlines(Block1Lines)

  /** Lines 17-21: the closed command list and the head of `register_all_middlewares`. */
  const Block2Lines: seq<string> := [Line17, "", "", Line20, Line21]
  const Block2: string := Unlines(Block2Lines)

  /** Lines 23-26: the head of `register_all_filters`. */
  const Block3Lines: seq<string> := ["", "", Line25, Line26]
  const Block3: string := Unlines(Block3Lines)

  /** Lines 28-31: the head of `register_all_handlers`. */
  const Block4Lines: seq<string> := ["", "", Line30, Line31]
  const Block4: string := Unlines(Block4Lines)

  /** Lines 33-37: the head of `main`. */
  const MainHeadLines: seq<string> := ["", "", Line35, Line36, Line37]
  const MainHead: string := Unlines(MainHeadLines)

  /** Line 38: the logging format, which holds a `#` but no marker. */
  const LogFormatLine: string := Line38

  /** Lines 39-43: logging and the storage choice. */
  const MainBodyLines: seq<string> := [Line39, Line40, Line41, "", Line43]
  const MainBody: string := Unlines(MainBodyLines)

  /** Lines 45-54: the dispatcher and the registration calls (line 53 holds four spaces, line 54 is empty). */
  const MainRunLines: seq<string> := [Line45, "", Line47, "", Line49, Line50, Line51, Line52, Line53, ""]
  const MainRun: string := Unlines(MainRunLines)

  /** The parse-mode piece, lines 39-54, around the parse mode. */
  const MainBodyBefore: string := MainBody + "\n" + Line44Head
  const MainBodyAfter: string := Line44Tail + "\n" + MainRun

  /** Line 55: a comment with a `#` that is not a marker. */
  const StartComment: string := Line55

  /** Lines 56-68: polling and the entry point. */
  const MainTailLines: seq<string> := [Line56, Line57, Line58, Line59, Line60, Line61, "", "", Line64, Line65, Line66, Line67, Line68]
  const MainTail: string := Unlines(MainTailLines)

  // ---------------------------------------------------------------------
  // Character facts: no marker and no brace hides in the fixed text
  // ---------------------------------------------------------------------

  /** Text without the character `c` and without braces. */
  predicate Ordinary(s: string, c: char)
  {
    forall i | 0 <= i < |s| :: s[i] != c && s[i] != '{' && s[i] != '}'
  }

  // One lemma per line: the verifier checks a literal character by character,
  // and keeping each literal in its own proof keeps that cheap.
  lemma Line1Ordinary() ensures Ordinary(Line1, '#') {}
  lemma Line2Ordinary() ensures Ordinary(Line2, '#') {}
  lemma Line4Ordinary() ensures Ordinary(Line4, '#') {}
  lemma Line5Ordinary() ensures Ordinary(Line5, '#') {}
  lemma Line8Ordinary() ensures Ordinary(Line8, '#') {}
  lemma Line11Ordinary() ensures Ordinary(Line11, '#') {}
  lemma Line14Ordinary() ensures Ordinary(Line14, '#') {}
  lemma Line15Ordinary() ensures Ordinary(Line15, '#') {}
  lemma Line17Ordinary() ensures Ordinary(Line17, '#') {}
  lemma Line20Ordinary() ensures Ordinary(Line20, '#') {}
  lemma Line21Ordinary() ensures Ordinary(Line21, '#') {}
  lemma Line25Ordinary() ensures Ordinary(Line25, '#') {}
  lemma Line26Ordinary() ensures Ordinary(Line26, '#') {}
  lemma Line30Ordinary() ensures Ordinary(Line30, '#') {}
  lemma Line31Ordinary() ensures Ordinary(Line31, '#') {}
  lemma Line35Ordinary() ensures Ordinary(Line35, '#') {}
  lemma Line36Ordinary() ensures Ordinary(Line36, '#') {}
  lemma Line37Ordinary() ensures Ordinary(Line37, '#') {}
  lemma Line39Ordinary() ensures Ordinary(Line39, '#') {}
  lemma Line40Ordinary() ensures Ordinary(Line40, '#') {}
  lemma Line41Ordinary() ensures Ordinary(Line41, '#') {}
  lemma Line45Ordinary() ensures Ordinary(Line45, '#') {}
  lemma Line47Ordinary() ensures Ordinary(Line47, '#') {}
  lemma Line49Ordinary() ensures Ordinary(Line49, '#') {}
  lemma Line50Ordinary() ensures Ordinary(Line50, '#') {}
  lemma Line51Ordinary() ensures Ordinary(Line51, '#') {}
  lemma Line52Ordinary() ensures Ordinary(Line52, '#') {}
  lemma Line53Ordinary() ensures Ordinary(Line53, '#') {}
  lemma Line55Ordinary() ensures Ordinary(Line55, 'x') {}
  lemma Line56Ordinary() ensures Ordinary(Line56, '#') {}
  lemma Line57Ordinary() ensures Ordinary(Line57, '#') {}
  lemma Line58Ordinary() ensures Ordinary(Line58, '#') {}
  lemma Line59Ordinary() ensures Ordinary(Line59, '#') {}
  lemma Line60Ordinary() ensures Ordinary(Line60, '#') {}
  lemma Line61Ordinary() ensures Ordinary(Line61, '#') {}
  lemma Line64Ordinary() ensures Ordinary(Line64, '#') {}
  lemma Line65Ordinary() ensures Ordinary(Line65, '#') {}
  lemma Line66Ordinary() ensures Ordinary(Line66, '#') {}
  lemma Line67Ordinary() ensures Ordinary(Line67, '#') {}
  lemma Line68Ordinary() ensures Ordinary(Line68, '#') {}
  lemma Line6aOrdinary() ensures Ordinary(Line6a, '#') {}
  lemma Line6bOrdinary() ensures Ordinary(Line6b, '#') {}
  lemma Line6cOrdinary() ensures Ordinary(Line6c, '#') {}
  lemma Line38aOrdinary() ensures Ordinary(Line38a, 'x') {}
  lemma Line38bOrdinary() ensures Ordinary(Line38b, 'x') {}
  lemma Line38cOrdinary() ensures Ordinary(Line38c, 'x') {}
  lemma Line38dOrdinary() ensures Ordinary(Line38d, 'x') {}
  lemma Line43aOrdinary() ensures Ordinary(Line43a, '#') {}
  lemma Line43bOrdinary() ensures Ordinary(Line43b, '#') {}
  lemma Line43cOrdinary() ensures Ordinary(Line43c, '#') {}
  lemma Line44aOrdinary() ensures Ordinary(Line44a, '#') {}
  lemma Line44bOrdinary() ensures Ordinary(Line44b, '#') {}
  lemma Line44TailOrdinary() ensures Ordinary(Line44Tail, '#') {}

  /** `Ordinary` survives concatenation. */
  lemma OrdinaryAppend(a: string, b: string, c: char)
    requires Ordinary(a, c) && Ordinary(b, c)
    ensures Ordinary(a + b, c)
  {
    forall i | 0 <= i < |a + b| ensures (a + b)[i] != c && (a + b)[i] != '{' && (a + b)[i] != '}' {
      if i < |a| {
        assert (a + b)[i] == a[i];
      } else {
        assert (a + b)[i] == b[i - |a|];
      }
    }
  }

  /** Lines that are all ordinary join into ordinary text. */
  lemma {:induction false} OrdinaryUnlines(ls: seq<string>, c: char)
    requires c != '\n'
    requires forall i | 0 <= i < |ls| :: Ordinary(ls[i], c)
    ensures Ordinary(Unlines(ls), c)
    decreases |ls|
  {
    if |ls| >= 2 {
      OrdinaryUnlines(ls[1..], c);
      OrdinaryAppend(ls[0], "\n", c);
      OrdinaryAppend(ls[0] + "\n", Unlines(ls[1..]), c);
    }
  }

  /** Ordinary text holds neither `c` nor a brace. */
  lemma OrdinaryLacks(s: string, c: char)
    requires Ordinary(s, c)
    ensures c !in s && Braceless(s)
  {
  }

  lemma Line6Ordinary() ensures Ordinary(Line6, '#') { Line6aOrdinary(); Line6bOrdinary(); Line6cOrdinary(); OrdinaryAppend(Line6a, Line6b, '#'); OrdinaryAppend(Line6a + Line6b, Line6c, '#'); }
  lemma Line38Ordinary() ensures Ordinary(Line38, 'x') { Line38aOrdinary(); Line38bOrdinary(); Line38cOrdinary(); Line38dOrdinary(); OrdinaryAppend(Line38a, Line38b, 'x'); OrdinaryAppend(Line38a + Line38b, Line38c, 'x'); OrdinaryAppend(Line38a + Line38b + Line38c, Line38d, 'x'); }
  lemma Line43Ordinary() ensures Ordinary(Line43, '#') { Line43aOrdinary(); Line43bOrdinary(); Line43cOrdinary(); OrdinaryAppend(Line43a, Line43b, '#'); OrdinaryAppend(Line43a + Line43b, Line43c, '#'); }
  lemma Line44HeadOrdinary() ensures Ordinary(Line44Head, '#') { Line44aOrdinary(); Line44bOrdinary(); OrdinaryAppend(Line44a, Line44b, '#'); }

  lemma HeadOrdinary()
    ensures Ordinary(Head, '#')
  {
    Line1Ordinary(); Line2Ordinary(); Line4Ordinary(); Line5Ordinary(); Line6Ordinary(); Line8Ordinary();
    OrdinaryUnlines(HeadLines, '#');
  }

  lemma Block1Ordinary()
    ensures Ordinary(Block1, '#')
  {
    Line11Ordinary(); Line14Ordinary(); Line15Ordinary();
    OrdinaryUnlines(Block1Lines, '#');
  }

  lemma Block2Ordinary()
    ensures Ordinary(Block2, '#')
  {
    Line17Ordinary(); Line20Ordinary(); Line21Ordinary();
    OrdinaryUnlines(Block2Lines, '#');
  }

  lemma Block3Ordinary()
    ensures Ordinary(Block3, '#')
  {
    Line25Ordinary(); Line26Ordinary();
    OrdinaryUnlines(Block3Lines, '#');
  }

  lemma Block4Ordinary()
    ensures Ordinary(Block4, '#')
  {
    Line30Ordinary(); Line31Ordinary();
    OrdinaryUnlines(Block4Lines, '#');
  }

  lemma MainHeadOrdinary()
    ensures Ordinary(MainHead, '#')
  {
    Line35Ordinary(); Line36Ordinary(); Line37Ordinary();
    OrdinaryUnlines(MainHeadLines, '#');
  }

  lemma MainBodyOrdinary()
    ensures Ordinary(MainBody, '#')
  {
    Line39Ordinary(); Line40Ordinary(); Line41Ordinary(); Line43Ordinary();
    OrdinaryUnlines(MainBodyLines, '#');
  }

  lemma MainRunOrdinary()
    ensures Ordinary(MainRun, '#')
  {
    Line45Ordinary(); Line47Ordinary(); Line49Ordinary(); Line50Ordinary(); Line51Ordinary(); Line52Ordinary(); Line53Ordinary();
    OrdinaryUnlines(MainRunLines, '#');
  }

  lemma MainTailOrdinary()
    ensures Ordinary(MainTail, '#')
  {
    Line56Ordinary(); Line57Ordinary(); Line58Ordinary(); Line59Ordinary(); Line60Ordinary(); Line61Ordinary(); Line64Ordinary(); Line65Ordinary(); Line66Ordinary(); Line67Ordinary(); Line68Ordinary();
    OrdinaryUnlines(MainTailLines, '#');
  }

  lemma MainBodyBeforeOrdinary()
    ensures Ordinary(MainBodyBefore, '#')
  {
    MainBodyOrdinary();
    Line44HeadOrdinary();
    OrdinaryAppend(MainBody, "\n", '#');
    OrdinaryAppend(MainBody + "\n", Line44Head, '#');
  }

  lemma MainBodyAfterOrdinary()
    ensures Ordinary(MainBodyAfter, '#')
  {
    MainRunOrdinary();
    Line44TailOrdinary();
    OrdinaryAppend(Line44Tail, "\n", '#');
    OrdinaryAppend(Line44Tail + "\n", MainRun, '#');
  }


  // ---------------------------------------------------------------------
  // The template as shipped
  // ---------------------------------------------------------------------

  /** The fixed text of every bot file. */
  const Shipped := Skeleton(Head, Block1, Block2, Block3, Block4, MainHead, LogFormatLine,
                            MainBodyBefore, MainBodyAfter, StartComment, MainTail)

  /** The fixed text holds no marker and no brace. */
  lemma ShippedSound()
    ensures Sound(Shipped)
  {
    HeadOrdinary(); OrdinaryLacks(Head, '#');
    Block1Ordinary(); OrdinaryLacks(Block1, '#');
    Block2Ordinary(); OrdinaryLacks(Block2, '#');
    Block3Ordinary(); OrdinaryLacks(Block3, '#');
    Block4Ordinary(); OrdinaryLacks(Block4, '#');
    MainHeadOrdinary(); OrdinaryLacks(MainHead, '#');
    Line38Ordinary(); OrdinaryLacks(LogFormatLine, 'x');
    MainBodyBeforeOrdinary(); OrdinaryLacks(MainBodyBefore, '#');
    MainBodyAfterOrdinary(); OrdinaryLacks(MainBodyAfter, '#');
    Line55Ordinary(); OrdinaryLacks(StartComment, 'x');
    MainTailOrdinary(); OrdinaryLacks(MainTail, '#');
  }

  /** The name of the template's one format field. */
  const ParseModeField := "parse_mode"

  /** The template file as shipped. */
  const Template := Unlines(Layout(Shipped, "{" + ParseModeField + "}", PristineImports, PristineCommands, PristineHandlers))

  /** Each of the five markers occurs exactly once in the shipped template. */
  lemma TemplateMarkers(k: string)
    requires IsMarker(k)
    ensures Count(Template, k) == 1
  {
    ShippedSound();
    PristineCount(Shipped, "{" + ParseModeField + "}", k);
  }

  lemma ParseModeFieldName()
    ensures FieldName(ParseModeField)
  {
    assert ParseModeField[0] == 'p';
  }

  lemma PristineBraceless()
    ensures Braceless(PristineImports) && Braceless(PristineCommands) && Braceless(PristineHandlers)
  {
    assert PristineImports == "" + ImportsMarker;
    MarkerLineBraceless("", ImportsMarker);
    MarkerLineBraceless("        ", CommandsMarker);
    MarkerLineBraceless("    ", HandlersMarker);
  }

  /**
   * `format_file(bot, parse_mode=...)` on the shipped template: the result
   * is the pristine bot file with `str` of the bound value as parse mode,
   * and KeyError when `parse_mode` is not bound.
   */
  lemma TemplateRender(b: Bindings)
    ensures ParseModeField in b ==>
      Render(Template, b) == Success(Unlines(Layout(Shipped, ToStr(b[ParseModeField]), PristineImports, PristineCommands, PristineHandlers)))
    ensures ParseModeField !in b ==> Render(Template, b) == Failure(MissingKey(ParseModeField))
  {
    ShippedSound();
    ParseModeFieldName();
    PristineBraceless();
    if ParseModeField in b {
      LayoutRender(Shipped, ParseModeField, PristineImports, PristineCommands, PristineHandlers, b);
    } else {
      LayoutRenderMissing(Shipped, ParseModeField, PristineImports, PristineCommands, PristineHandlers, b);
    }
  }

  /**
   * The extension points in file order: the shipped bot file's marker
   * lines are its pieces 1, 3, 5, 7 and 9 (imports, commands, middlewares,
   * filters, handlers), and whatever the command-list piece holds sits
   * between the line opening `set_my_commands([` and the line closing it.
   */
  lemma ExtensionPoints(pm: string, im: string, cm: string, hm: string)
    ensures var ps := Layout(Shipped, pm, PristineImports, PristineCommands, PristineHandlers);
      ps[1] == ImportsMarker && ps[3] == "        " + CommandsMarker && ps[5] == "    " + MiddlewaresMarker &&
      ps[7] == "    " + FiltersMarker && ps[9] == "    " + HandlersMarker
    ensures var ps := Layout(Shipped, pm, im, cm, hm);
      ps[CommandsAt - 1] == Unlines(Block1Lines) && Block1Lines[|Block1Lines| - 1] == Line15 &&
      ps[CommandsAt] == cm &&
      ps[CommandsAt + 1] == Unlines(Block2Lines) && Block2Lines[0] == Line17
  {
  }
}
