/** The line preprocessing of the Markdown convertor: tag filtering by
    output format, the ordered substitution passes applied to each line, and
    the locale table that supplies the quotation marks. Regular-expression
    substitution is the foreign engine `sub`: `sub(rule, line)` is the line
    after `re.sub(rule.pattern, rule.replacement, line)`. The rule tables
    are kept verbatim as data; the model never looks inside them. */
module Convertor {
  import opened Common

  datatype Rule = Rule(pattern: string, replacement: string)

  /** One substitution pass of the regular-expression engine. */
  type Sub = (Rule, string) -> string

  datatype KeyError = KeyError(key: string)

  /** One row of the locale table. */
  datatype Language = Language(name: string, locale: string, quoteOpen: string, quoteClose: string,
                               figure: Option<string>)

  const Low9 := "\U{201E}"      // „
  const High6 := "\U{201C}"     // “
  const High9 := "\U{201D}"     // ”
  const GuillemetOpen := "\U{00AB}" // «
  const GuillemetClose := "\U{00BB}" // »
  const NarrowSpace := "\U{202F}"

  /** The `languages` table, keyed by locale code. */
  function Languages(code: string): (r: Option<Language>)
    ensures r.Some? <==> code in {"sk", "cs", "en", "ru", "pl", "hu", "fr", "es", "qq"}
  {
    match code
    case "sk" => Some(Language("slovak", "sk-SK", Low9, High6, Some("Obr\U{00E1}zok")))
    case "cs" => Some(Language("czech", "cs-CZ", Low9, High6, Some("Obr\U{00E1}zek")))
    case "en" => Some(Language("english", "en-US", High6, High9, Some("Picture")))
    case "ru" => Some(Language("russian", "ru-RU", GuillemetOpen, GuillemetClose, None))
    case "pl" => Some(Language("polish", "pl-PL", Low9, High6, None))
    case "hu" => Some(Language("hungarian", "hu-HU", Low9, High6, None))
    case "fr" => Some(Language("french", "fr-FR", GuillemetOpen + NarrowSpace, NarrowSpace + GuillemetClose, None))
    case "es" => Some(Language("spanish", "es-ES", GuillemetOpen, GuillemetClose, None))
    case "qq" => Some(Language("test", "sk-SK", "(", ")", None))
    case _ => None
  }

  /** Substitutions run after pandoc, per output format. */
  function PostRules(format: string): Option<seq<Rule>>
  {
    match format
    case "latex" => Some([
      Rule("``", High6),
      Rule("''", High9),
      Rule("\\\\includegraphics\\[(.*)\\]{(.*)\\.(svg|gp)}", "\\\\insertPicture[\\g<1>]{\\g<2>.pdf}"),
      Rule("\\\\includegraphics\\[(.*)\\]{(.*)\\.(png|jpg|pdf)}", "\\\\insertPicture[\\g<1>]{\\g<2>.\\g<3>}"),
      Rule("^\\\\caption{}(\\\\label{.*})?\\n", "")])
    case "html" => Some([
      Rule("<img src=\"(.*)\" (.*)id=\"(.*)\" style=\"height:([0-9.]*)mm\" (.*)>",
           "<img src=\"\\g<1>\" \\g<2>id=\"\\g<3>\" style=\"max-width: 100%; max-height: calc(1.7 * \\g<4>mm); margin: auto; display: block;\" \\g<5>>"),
      Rule("<figcaption>Figure (\\d*): (.*)</figcaption>",
           "<figcaption style=\"text-align: center;\">Obr\U{00E1}zok \\g<1>: <span style=\"font-style: italic;\">\\g<2></span></figcaption>")])
    case _ => None
  }

  /** The aligned-math shortcuts, for every format. */
  const MathRules: seq<Rule> := [
    Rule("^(\\s*)\\$\\${$", "\\g<1>$$\\n\\\\begin{aligned}"),
    Rule("^(\\s*)}\\$\\$", "\\g<1>\\\\end{aligned}\\n$$")]

  /** Custom tags and pictures replaced before pandoc, per output format. */
  function ReplaceRules(format: string): Option<seq<Rule>>
  {
    match format
    case "latex" => Some([
      Rule("^@E\\s*(.*)$", "\\\\errorMessage{\\g<1>}"),
      Rule("^@L\\s*(.*)$", "\\g<1>"),
      Rule("^@TODO\\s*(.*)$", "\\\\todoMessage{\\g<1>}")])
    case "html" => Some([
      Rule("^@E\\s*(.*)$", "Error: \\g<1>"),
      Rule("^@H\\s*(.*)$", "\\g<1>"),
      Rule("^!\\[(?P<caption>.*)\\]\\((?P<filename>.*)\\.(?P<extension>jpg|png|svg)\\){(?P<extras>.*)}$",
           "![\\g<caption>](obrazky/\\g<filename>.\\g<extension>){\\g<extras>}"),
      Rule("^!\\[(?P<caption>.*)\\]\\((?P<filename>.*)\\.(?P<extension>gp)\\){(?P<extras>.*)}$",
           "![\\g<caption>](obrazky/\\g<filename>.png){\\g<extras>}")])
    case _ => None
  }

  /** Straight double quotes turned into the locale's marks. */
  function QuotesRules(open: string, close: string): (rules: seq<Rule>)
    ensures |rules| == 5
  {
    [ Rule("\"(_)", close + "\\g<1>"),
      Rule("\"(\\b)", open + "\\g<1>"),
      Rule("(\\b)\"", "\\g<1>" + close),
      Rule("(\\S)\"", "\\g<1>" + close),
      Rule("\"(\\S)", open + "\\g<1>") ]
  }

  /** A configured convertor: what `__init__` stores. */
  datatype Convertor = Convertor(
    format: string,
    localeCode: string,
    locale: Language,
    quoteOpen: string,
    quoteClose: string,
    quotesRules: seq<Rule>,
    mathRules: seq<Rule>,
    replaceRules: seq<Rule>,
    postRules: seq<Rule>)

  /** `Convertor(format, locale_code, ...)`: an unknown locale code raises
      KeyError first; an unknown format raises KeyError when the
      replacement table is looked up. */
  function New(format: string, localeCode: string): (r: Result<Convertor, KeyError>)
    ensures Languages(localeCode).None? ==> r == Err(KeyError(localeCode))
    ensures Languages(localeCode).Some? && format !in {"latex", "html"} ==> r == Err(KeyError(format))
    ensures r.Ok? <==> Languages(localeCode).Some? && format in {"latex", "html"}
  {
    match Languages(localeCode)
    case None => Err(KeyError(localeCode))
    case Some(language) =>
      match ReplaceRules(format)
      case None => Err(KeyError(format))
      case Some(replace) =>
        Ok(Convertor(format, localeCode, language, language.quoteOpen, language.quoteClose,
                     QuotesRules(language.quoteOpen, language.quoteClose), MathRules, replace,
                     PostRules(format).value))
  }

  /** A configured convertor keeps its locale's pair of quotation marks
      and builds its quote rules from them; the other tables are the
      format's. */
  lemma NewFields(format: string, localeCode: string)
    requires New(format, localeCode).Ok?
    ensures var c := New(format, localeCode).value;
            && c.format == format && c.localeCode == localeCode
            && c.quoteOpen == Languages(localeCode).value.quoteOpen
            && c.quoteClose == Languages(localeCode).value.quoteClose
            && c.quotesRules == QuotesRules(c.quoteOpen, c.quoteClose)
            && c.replaceRules == ReplaceRules(format).value
            && c.postRules == PostRules(format).value
            && c.mathRules == MathRules
  {
    var language := Languages(localeCode).value;
    var replace := ReplaceRules(format).value;
    assert New(format, localeCode).value
        == Convertor(format, localeCode, language, language.quoteOpen, language.quoteClose,
                     QuotesRules(language.quoteOpen, language.quoteClose), MathRules, replace,
                     PostRules(format).value);
  }

  /** The quotation marks per locale code: „ “ for Slovak, Czech, Polish
      and Hungarian, “ ” for English, guillemets for Russian and Spanish,
      guillemets with narrow no-break spaces inside for French, and
      parentheses for the test locale. */
  lemma LanguagesQuotes(code: string)
    requires Languages(code).Some?
    ensures var l := Languages(code).value;
            && (code in {"sk", "cs", "pl", "hu"} ==> l.quoteOpen == Low9 && l.quoteClose == High6)
            && (code == "en" ==> l.quoteOpen == High6 && l.quoteClose == High9)
            && (code in {"ru", "es"} ==> l.quoteOpen == GuillemetOpen && l.quoteClose == GuillemetClose)
            && (code == "fr" ==> l.quoteOpen == GuillemetOpen + NarrowSpace && l.quoteClose == NarrowSpace + GuillemetClose)
            && (code == "qq" ==> l.quoteOpen == "(" && l.quoteClose == ")")
  {
  }

  // -------------------------------------------------------------------
  // filter_tags

  predicate StartsWith(line: string, prefix: string)
  {
    |prefix| <= |line| && line[..|prefix|] == prefix
  }

  /** `filter_tags`: comment lines go for every format, '@H' lines unless
      the output is HTML, '@L' lines unless it is LaTeX; a dropped line
      becomes "". */
  function FilterTags(format: string, line: string): string
  {
    if StartsWith(line, "%")
       || (StartsWith(line, "@H") && format != "html")
       || (StartsWith(line, "@L") && format != "latex")
    then ""
    else line
  }

  lemma FilterTagsSpec(format: string, line: string)
    ensures FilterTags(format, line) == "" || FilterTags(format, line) == line
    ensures StartsWith(line, "%") ==> FilterTags(format, line) == ""
    ensures StartsWith(line, "@H") ==> (FilterTags(format, line) == line <==> format == "html")
    ensures StartsWith(line, "@L") ==> (FilterTags(format, line) == line <==> format == "latex")
    ensures !StartsWith(line, "%") && !StartsWith(line, "@H") && !StartsWith(line, "@L") ==>
              FilterTags(format, line) == line
  {
    if StartsWith(line, "@H") {
      assert line[0] == '@' && line[1] == 'H';
      assert !StartsWith(line, "%") && !StartsWith(line, "@L");
    }
    if StartsWith(line, "@L") {
      assert line[0] == '@' && line[1] == 'L';
      assert !StartsWith(line, "%");
    }
  }

  // -------------------------------------------------------------------
  // process_line and chain_process

  /** The rules applied left to right, each to the previous result. */
  function Processed(sub: Sub, line: string, rules: seq<Rule>): string
  {
    if rules == [] then line else sub(rules[|rules| - 1], Processed(sub, line, rules[..|rules| - 1]))
  }

  /** `process_line`. */
  method ProcessLine(sub: Sub, line: string, rules: seq<Rule>) returns (out: string)
    ensures out == Processed(sub, line, rules)
  {
    out := line;
    for k := 0 to |rules|
      invariant out == Processed(sub, line, rules[..k])
    {
      assert rules[..k + 1][..k] == rules[..k];
      out := sub(rules[k], out);
    }
    assert rules[..|rules|] == rules;
  }

  /** No rules leave the line as it is; the first rule sees the input; and
      running two lists of rules one after the other is running their
      concatenation. */
  lemma {:induction false} ProcessedAppend(sub: Sub, line: string, a: seq<Rule>, b: seq<Rule>)
    ensures Processed(sub, line, []) == line
    ensures Processed(sub, line, a + b) == Processed(sub, Processed(sub, line, a), b)
    decreases |b|
  {
    if b == [] {
      assert a + b == a;
    } else {
      var b' := b[..|b| - 1];
      ProcessedAppend(sub, line, a, b');
      assert (a + b)[..|a + b| - 1] == a + b';
    }
  }

  lemma ProcessedFirst(sub: Sub, line: string, r: Rule, rest: seq<Rule>)
    ensures Processed(sub, line, [r] + rest) == Processed(sub, sub(r, line), rest)
  {
    ProcessedAppend(sub, line, [r], rest);
    assert [r][..0] == [];
  }

  /** The rule lists applied one list after another. */
  function Chained(sub: Sub, line: string, sets: seq<seq<Rule>>): string
  {
    if sets == [] then line else Processed(sub, Chained(sub, line, sets[..|sets| - 1]), sets[|sets| - 1])
  }

  /** `chain_process`. */
  method ChainProcess(sub: Sub, line: string, sets: seq<seq<Rule>>) returns (out: string)
    ensures out == Chained(sub, line, sets)
  {
    out := line;
    for k := 0 to |sets|
      invariant out == Chained(sub, line, sets[..k])
    {
      assert sets[..k + 1][..k] == sets[..k];
      out := ProcessLine(sub, out, sets[k]);
    }
    assert sets[..|sets|] == sets;
  }

  /** Chaining rule lists is processing with their concatenation; for two
      lists A and B it is `process_line(process_line(line, A), B)`. */
  lemma {:induction false} ChainedIsConcat(sub: Sub, line: string, sets: seq<seq<Rule>>)
    ensures Chained(sub, line, sets) == Processed(sub, line, Concat(sets))
  {
    if sets != [] {
      var init := sets[..|sets| - 1];
      ChainedIsConcat(sub, line, init);
      assert init + [sets[|sets| - 1]] == sets;
      ConcatAppend(init, sets[|sets| - 1]);
      ProcessedAppend(sub, line, Concat(init), sets[|sets| - 1]);
    }
  }

  lemma ChainedTwo(sub: Sub, line: string, a: seq<Rule>, b: seq<Rule>)
    ensures Chained(sub, line, [a, b]) == Processed(sub, Processed(sub, line, a), b)
  {
    assert [a, b][..1] == [a];
    assert [a][..0] == [];
    assert Chained(sub, line, []) == line;
    assert Chained(sub, line, [a]) == Processed(sub, line, a);
  }

  // -------------------------------------------------------------------
  // preprocess, postprocess, replace_tags

  /** `preprocess`: a line the filter drops (or an empty line, which the
      filter's "" cannot be told apart from) becomes ""; any other line
      goes through the replacement, quote and math passes, in that order. */
  function Preprocessed(c: Convertor, sub: Sub, line: string): string
  {
    if FilterTags(c.format, line) != "" then Chained(sub, line, [c.replaceRules, c.quotesRules, c.mathRules])
    else ""
  }

  lemma PreprocessedSpec(c: Convertor, sub: Sub, line: string)
    ensures line == "" || StartsWith(line, "%") ==> Preprocessed(c, sub, line) == ""
    ensures FilterTags(c.format, line) != "" ==>
              Preprocessed(c, sub, line)
              == Processed(sub, Processed(sub, Processed(sub, line, c.replaceRules), c.quotesRules), c.mathRules)
    ensures FilterTags(c.format, line) != "" ==>
              Preprocessed(c, sub, line) == Processed(sub, line, c.replaceRules + c.quotesRules + c.mathRules)
  {
    var sets := [c.replaceRules, c.quotesRules, c.mathRules];
    assert sets[..2] == [c.replaceRules, c.quotesRules];
    ChainedTwo(sub, line, c.replaceRules, c.quotesRules);
    ChainedIsConcat(sub, line, sets);
    assert Concat(sets) == c.replaceRules + c.quotesRules + c.mathRules by {
      assert sets[1..][1..][1..] == [];
      assert Concat(sets[1..][1..]) == c.mathRules + [];
      assert Concat(sets[1..]) == c.quotesRules + (c.mathRules + []);
      assert c.replaceRules + (c.quotesRules + (c.mathRules + [])) == c.replaceRules + c.quotesRules + c.mathRules;
    }
  }

  /** `postprocess`: a chain holding only the post rule list. */
  function Postprocessed(c: Convertor, sub: Sub, line: string): string
  {
    Chained(sub, line, [c.postRules])
  }

  /** Post-processing is exactly the format's post rules, nothing else. */
  lemma PostprocessedSpec(c: Convertor, sub: Sub, line: string)
    ensures Postprocessed(c, sub, line) == Processed(sub, line, c.postRules)
  {
    assert [c.postRules][..0] == [];
    assert Chained(sub, line, []) == line;
  }

  /** `replace_tags`: the replacement rules alone, left to right. */
  method ReplaceTags(c: Convertor, sub: Sub, line: string) returns (out: string)
    ensures out == Processed(sub, line, c.replaceRules)
  {
    out := line;
    for k := 0 to |c.replaceRules|
      invariant out == Processed(sub, line, c.replaceRules[..k])
    {
      assert c.replaceRules[..k + 1][..k] == c.replaceRules[..k];
      out := sub(c.replaceRules[k], out);
    }
    assert c.replaceRules[..|c.replaceRules|] == c.replaceRules;
  }

  // -------------------------------------------------------------------
  // file_operation

  /** `file_operation(function)(f)`: every line of the input is passed
      through the function and the results are written in order. */
  method FileOperation(operation: string -> string, lines: seq<string>) returns (out: seq<string>)
    ensures |out| == |lines|
    ensures forall i :: 0 <= i < |lines| ==> out[i] == operation(lines[i])
  {
    out := [];
    for k := 0 to |lines|
      invariant |out| == k
      invariant forall i :: 0 <= i < k ==> out[i] == operation(lines[i])
    {
      out := out + [operation(lines[k])];
    }
  }
}
