# Náboj task-template: verified model of the document-preparation core

This project models, in Dafny, the logic behind the Náboj competition
documents in the `task-template` repository:

- the context hierarchy (`Hierarchy`): the volume context derives its
  zero-padded id, its year and its problems numbered from 1; the language
  context looks up the polyglossia name and the `rtl` flag; the venue
  context pads its teams with "Extra set" filler teams until the team count
  is a multiple of the tear-off page capacity, then numbers them, groups
  them page by page and spreads the volume's problems over the evaluators;
- the list helpers these contexts use (`Lists`): `numerate`, `add_numbers`,
  `split_div` and `split_mod`;
- the legacy preparation script (`Prepare`): the settings file, the problem
  and solution booklet recipes, the answer sheets bucketed by
  `number % 5`, the tear-off sheets for teams in triplets with page number
  `(team_id - 1) * P + k + 1`, and the barcode list `47` + `%03d` team id +
  `%03d` problem number;
- the template filters `render_list`, `textbf` and `roman` (`Filters`);
- the directory scanner and its two-phase validation (`Validator`);
- the collector of undefined template variables, its error message, and
  the output destination and exit codes of `print_template` (`Jinja`);
- the line preprocessing of the document convertor (`Convertor`): tag
  filtering per output format, the locale table of quote characters, and
  substitution lists applied in order.

`Common` holds the shared result types and the decimal formatting
(`str(n)`, `{:0Nd}`) with its round-trip lemmas.

Imperative code keeps its form: `_add_extra_teams` is a `while` loop over
the `teams` field of the `Venue` class; the `populate` methods update the
fields of `Volume`, `Language` and `Venue`; `CollectUndefined` is a class
whose `missing` list grows by one name per call; the recipe writers of the
preparation script, `process_line`, `chain_process` and `file_operation`
are methods with loops, each proved equal to a specification function whose
properties are lemmas.

A few behaviours of the code are modelled as written because they differ
from what the names suggest:

- filler teams take `venue`, `venue_id` and `venue_code` from the volume
  context, which `ContextVenue.populate` passes as the second argument of
  `_add_extra_teams`; a volume without a `code` entry makes padding fail
  with a missing-key error whenever a filler is needed;
- the scanner maps `.git` to None instead of dropping it, its
  first-character filter never excludes anything, and a symbolic link to a
  directory is scanned as a directory because the directory test comes
  first;
- `CollectUndefined` is modelled on its own: the template environment
  installs strict undefined handling, so the collector is not wired into
  rendering.

## Model

| member | source | states |
|---|---|---|
| Common.NatToStringRoundTrip | naboj/core/dgs-prepare.py:22-23 | the decimal text written for a count reads back as that count |
| Common.IntToStringInjective | modules/naboj/builder/contexts/hierarchy.py:91-96 | different integers print differently, so filler labels built from them differ |
| Common.ZeroPadNat | naboj/core/dgs-prepare.py:58 | zero padding to a width gives all digits, length max(width, digits) and reads back as the number |
| Lists.NumerateKeepsItems | modules/naboj/builder/contexts/hierarchy.py:120-122 | numbering keeps every item, in order, with its other keys, and sets the i-th item's `index` key to start + i, whether or not it had one |
| Lists.NumerateOverwrites | modules/naboj/builder/contexts/hierarchy.py:120-122 | numbering an already numbered list overwrites the earlier indices, so re-applying the same start changes nothing |
| Lists.AddNumbersDistinct | modules/naboj/builder/contexts/hierarchy.py:153 | the items keep their order and receive strictly increasing numbers, so numbers never repeat |
| Lists.SplitDivConcat | modules/naboj/builder/contexts/hierarchy.py:121-123 | the groups of `split_div`, concatenated in order, are the input |
| Lists.SplitDivExact | modules/naboj/builder/contexts/hierarchy.py:121-123 | a length divisible by the page size gives length/size groups, each of exactly that size |
| Lists.PositionsSpec | modules/naboj/builder/contexts/hierarchy.py:124-127 | bucket b of `split_mod` holds exactly the positions p with (p + first) % m == b, in increasing order |
| Lists.SplitModSizes | modules/naboj/builder/contexts/hierarchy.py:124-127 | the bucket sizes add up to the number of items, so every item is in exactly one bucket |
| Lists.SplitModPlacement | modules/naboj/builder/contexts/hierarchy.py:124-127 | the item at position p appears in bucket (p + first) % m |
| Lists.SplitModBalanced | modules/naboj/builder/contexts/hierarchy.py:124-127 | every bucket holds n/m or n/m + 1 items |
| Hierarchy.VolumeDerivations | modules/naboj/builder/contexts/hierarchy.py:148-152 | the volume id is all digits, at least two long and reads back as the number; the year is number + founded - 1, never before the founding year |
| Hierarchy.VolumeSchemaBounds | modules/naboj/builder/contexts/hierarchy.py:132-142 | for founded >= 1950 the populated volume meets its schema iff number > 0 and 0 <= start < 1440 |
| Hierarchy.VolumeProblemsFromOne | modules/naboj/builder/contexts/hierarchy.py:153 | the k-th problem is numbered k + 1 |
| Hierarchy.Volume.Populate | modules/naboj/builder/contexts/hierarchy.py:144-154 | the new state: padded id, number, year, problems numbered from 1, the loaded metadata |
| Hierarchy.RtlDefault | modules/naboj/builder/contexts/hierarchy.py:67 | `rtl` is the table's flag when present and False otherwise |
| Hierarchy.Language.Populate | modules/naboj/builder/contexts/hierarchy.py:62-67 | succeeds iff the code is in the language table; then id, polyglossia and rtl come from the entry and the schema holds; otherwise a key error for that code |
| Hierarchy.PaddingSpec | modules/naboj/builder/contexts/hierarchy.py:88 | the padding count is the least count that makes the total a multiple of per_page, and is below abs(per_page) |
| Hierarchy.PaddingStops | modules/naboj/builder/contexts/hierarchy.py:88 | the loop condition first turns false exactly at the padding count |
| Hierarchy.PaddedTeamsSpec | modules/naboj/builder/contexts/hierarchy.py:86-110 | after padding the count is a multiple of per_page; nothing is added to a multiple, fewer than per_page otherwise; the old teams stay a prefix and the k-th added team is filler k |
| Hierarchy.PaddedTeamsErrors | modules/naboj/builder/contexts/hierarchy.py:88-108 | padding fails iff per_page is 0 (division by zero) or a filler is needed and the second argument has no code |
| Hierarchy.FillerFields | modules/naboj/builder/contexts/hierarchy.py:89-109 | filler k has code SKBAS(999-k), display name "Extra set (999-k)", id 0, number 0, status R, the venue's language and the second argument's id and code |
| Hierarchy.FillerCodesDistinct | modules/naboj/builder/contexts/hierarchy.py:91-96 | different fillers have different codes and display names |
| Hierarchy.GroupingIgnoresFirstNumbering | modules/naboj/builder/contexts/hierarchy.py:120-123 | `teams_grouped` is the same whether or not the list passed to the second `numerate` already carries the indices of the first |
| Hierarchy.PaddedTeamsGroupFully | modules/naboj/builder/contexts/hierarchy.py:118-123 | after padding, `teams_grouped` consists of full pages whose concatenation is the numbered teams |
| Hierarchy.PaddingScenario | modules/naboj/builder/contexts/hierarchy.py:86-123 | seven teams on pages of three get fillers SKBAS999 and SKBAS998 and form three pages |
| Hierarchy.ProblemsScenario | modules/naboj/builder/contexts/hierarchy.py:124-127 | eleven problems over four evaluators give buckets of 2, 3, 3 and 3 problems |
| Hierarchy.Venue.AddExtraTeams | modules/naboj/builder/contexts/hierarchy.py:86-110 | the loop leaves exactly the padded teams, or fails with the padding error and leaves the teams unchanged |
| Hierarchy.Venue.Populate | modules/naboj/builder/contexts/hierarchy.py:112-128 | the venue's fields come from its metadata; teams are the padded teams of the volume, numbered, grouped by per_page, and the problems are spread by `split_mod` over the evaluators |
| Prepare.RootDirectorySpec | naboj/core/dgs-prepare.py:75 | a leading `./source/` is replaced by `./input/`; any other directory is unchanged |
| Prepare.SettingsCounts | naboj/core/dgs-prepare.py:17-23 | six settings lines, whose team and problem counts read back as the lengths of the input lists |
| Prepare.BookletRecipe | naboj/core/dgs-prepare.py:25-31 | one line per problem, the k-th with number k + 1 |
| Prepare.AnswerRecipe | naboj/core/dgs-prepare.py:33-41 | the lines written are papers 0..4 in order, each followed by one page break |
| Prepare.PaperIsSplitMod | naboj/core/dgs-prepare.py:34-36 | paper b is bucket b of `split_mod` over the problems numbered from 1, with five buckets |
| Prepare.PaperMembership | naboj/core/dgs-prepare.py:34-36 | paper b holds exactly the problems whose number % 5 == b, each with its own number, in input order |
| Prepare.AnswerWritesShape | naboj/core/dgs-prepare.py:38-41 | the answer recipe has one line per problem plus five page breaks, empty papers included |
| Prepare.TripletsAreSplitDiv | naboj/core/dgs-prepare.py:44 | the triplet comprehension equals `split_div` by 3 |
| Prepare.TripletsCover | naboj/core/dgs-prepare.py:44 | ceil(T/3) groups, all of size 3 but the last, which has 1 to 3; their concatenation is the team list |
| Prepare.PageSpec | naboj/core/dgs-prepare.py:51 | page (t-1)*P + k + 1 lies in team t's block of P pages at offset k |
| Prepare.PagesDistinct | naboj/core/dgs-prepare.py:51 | two (team, problem) pairs share a page iff they are equal |
| Prepare.WriteTripletPage | naboj/core/dgs-prepare.py:48-53 | one tear-off page: the triplet's lines joined by rules, then a page break |
| Prepare.WriteTriplet | naboj/core/dgs-prepare.py:47-53 | one page per problem for the triplet |
| Prepare.TearoffRecipe | naboj/core/dgs-prepare.py:43-53 | the pages for every triplet, in order |
| Prepare.TearoffOrder | naboj/core/dgs-prepare.py:46-53 | there are groups × problems pages and the page of group g and problem k is at g*P + k |
| Prepare.BarcodeList | naboj/core/dgs-prepare.py:55-58 | one barcode per (team, problem) pair, team-major |
| Prepare.BarcodeOrder | naboj/core/dgs-prepare.py:56-58 | there are T × P barcodes and the one for team t and problem k is at t*P + k |
| Prepare.BarcodeDecodes | naboj/core/dgs-prepare.py:58 | a barcode is 47, then three digits reading back as the team id, then three reading back as the problem number |
| Prepare.BarcodesDistinct | naboj/core/dgs-prepare.py:58 | in range, two barcodes are equal iff team and problem are equal |
| Prepare.ProcessJson | naboj/core/dgs-prepare.py:10-58 | all six outputs together: settings, booklets, answers, tear-offs, barcodes |
| Filters.ConjoinIsSentence | core/utilities/test_filters.py:9-22 | comma joining with " a " before the last item reads as "", x, "x a y", and "x, " followed by the rest |
| Filters.RenderListSpec | core/utilities/test_filters.py:6-28 | a list renders as the sentence of `func` applied to every element; a string is returned unchanged, which the tests check only with the default `func` (for other `func`s this case goes beyond them) |
| Filters.Textbf | core/utilities/test_filters.py:25 | the result is `\textbf{` + s + `}` |
| Filters.TextbfInjective | core/utilities/test_filters.py:25 | different strings stay different when wrapped |
| Filters.RenderListExamples | core/utilities/test_filters.py:6-16 | "string", "", "x" and "x a y" for the first four tests |
| Filters.RenderListThreeExample | core/utilities/test_filters.py:18-19 | three items give "x, y a z" |
| Filters.RenderListFourExample | core/utilities/test_filters.py:21-22 | four items give "Hovi, Enka, Fek a Lista" |
| Filters.RenderListTextbfExample | core/utilities/test_filters.py:24-25 | with `textbf`, every item is wrapped |
| Filters.RenderListCallExample | core/utilities/test_filters.py:27-28 | with a lambda, every item is transformed |
| Filters.Roman | core/utilities/test_filters.py:31-46 | TypeError iff the value is not an integer, ValueError iff an integer outside 1..3999, and only numeral characters otherwise |
| Filters.TokensSpec | core/utilities/test_filters.py:48-61 | the greedy numeral tokens are ordered largest first and their values add up to the number |
| Filters.RomanValue | core/utilities/test_filters.py:48-61 | an accepted number's numeral is non-empty and its token values add up to the number |
| Filters.RomanExamples | core/utilities/test_filters.py:32-55 | TypeError for a string and a float, ValueError for 0 and 123456, I for 1, XLIX for 49 |
| Filters.RomanExample1234 | core/utilities/test_filters.py:51-52 | 1234 gives MCCXXXIV |
| Filters.RomanExample1990 | core/utilities/test_filters.py:57-58 | 1990 gives MCMXC |
| Filters.RomanExample2022 | core/utilities/test_filters.py:60-61 | 2022 gives MMXXII |
| Validator.KeepChildAlways | core/builder/validator.py:8-26 | the first-character filter never excludes a child |
| Validator.ScanEntriesKeys | core/builder/validator.py:24-27 | a scanned directory's keys are exactly its entries' names |
| Validator.ScanEntriesValues | core/builder/validator.py:25-27 | each name maps to the scan of its last entry |
| Validator.ScanDirectory | core/builder/validator.py:24-27 | a directory, link or not, scans to a mapping keyed by its children; an empty one to an empty mapping |
| Validator.ScanGit | core/builder/validator.py:8-27 | `.git` scans to None and stays in its directory as a key mapped to None |
| Validator.ScanLeaf | core/builder/validator.py:28-32 | a non-directory is 'link' iff it is a link, 'file' iff a regular file that is not a link, None otherwise |
| Validator.FileSystemValidator.constructor | core/builder/validator.py:17-19 | the tree is the scan of the root |
| Validator.FileSystemValidator.Validate | core/builder/validator.py:34-36 | a failing schema is the result; otherwise the extra checks decide |
| Validator.PerformExtraChecks | core/builder/validator.py:38-43 | the default extra checks accept every tree |
| Validator.ValidateDefault | core/builder/validator.py:34-43 | with the default extra checks, validation is the schema's verdict |
| Jinja.CollectUndefined.constructor | core/builder/jinja.py:10-12 | a fresh collector has no missing names |
| Jinja.CollectUndefined.Call | core/builder/jinja.py:14-17 | one name is appended at the end, earlier names kept |
| Jinja.CollectUndefined.AssertNoMissing | core/builder/jinja.py:19-21 | passes iff no name was collected; the error carries the whole list |
| Jinja.CollectAll | core/builder/jinja.py:9-21 | after a sequence of lookups the check fails iff there was one, carrying every name in order, duplicates included |
| Jinja.MessageSpec | core/builder/jinja.py:29-30 | the message is "Missing variables: " and the list, "[]" when empty, "['x']" for one name, and its length accounts for every name |
| Jinja.PathJoin | core/builder/jinja.py:69 | an absolute name replaces the directory; otherwise the name ends the path |
| Jinja.OutputDestination | core/builder/jinja.py:69 | standard output iff no output directory is given |
| Jinja.OutputDestinationSpec | core/builder/jinja.py:69 | with a directory, the file is `new_name`, or the template's name when no new name is given, inside it |
| Jinja.PrintTemplate | core/builder/jinja.py:66-81 | an output file that cannot be opened raises before rendering; otherwise the rendered text and a newline are written iff rendering succeeds, else the process exits, and an output file ends up holding the written text, or nothing when rendering failed, since it was opened with mode 'w' first |
| Jinja.ExitCodes | core/builder/jinja.py:66-81 | exit status 41 iff the template is missing, 43 iff a variable is undefined, and an output file is then left empty |
| Convertor.Languages | core/builder/convertor.py:14-24 | exactly the nine locale codes of the table are known |
| Convertor.LanguagesQuotes | core/builder/convertor.py:14-24 | the quote pairs per code, e.g. „ and “ for sk |
| Convertor.QuotesRules | core/builder/convertor.py:85-91 | five quote substitutions |
| Convertor.New | core/builder/convertor.py:76-96 | an unknown locale is a KeyError for the locale, checked first; an unknown format a KeyError for the format; otherwise a convertor |
| Convertor.NewFields | core/builder/convertor.py:76-96 | a convertor's quotes come from the locale table and its rule lists from the format's tables |
| Convertor.FilterTagsSpec | core/builder/convertor.py:156-167 | '%' lines are dropped; '@H' lines kept iff html; '@L' lines kept iff latex; any other line unchanged |
| Convertor.ProcessLine | core/builder/convertor.py:141-145 | the loop applies the rules left to right |
| Convertor.ProcessedAppend | core/builder/convertor.py:142-145 | no rules is the identity; rules a + b apply a, then b |
| Convertor.ProcessedFirst | core/builder/convertor.py:142-145 | the first rule is applied to the line itself |
| Convertor.ChainProcess | core/builder/convertor.py:147-151 | the loop applies the rule lists in order |
| Convertor.ChainedIsConcat | core/builder/convertor.py:148-151 | chaining rule lists is processing their concatenation |
| Convertor.ChainedTwo | core/builder/convertor.py:148-151 | chaining [A, B] is processing with A, then with B |
| Convertor.PreprocessedSpec | core/builder/convertor.py:135-139 | a filtered or empty line gives ""; otherwise replace, then quote, then math substitutions |
| Convertor.PostprocessedSpec | core/builder/convertor.py:153-154 | only the format's post substitutions are applied |
| Convertor.ReplaceTags | core/builder/convertor.py:169-176 | the format's replace substitutions are applied in order |
| Convertor.FileOperation | core/builder/convertor.py:117-128 | exactly one write of `operation(line)` per input line, in input order (a write may be empty or hold several lines) |

## Left out

- `core.utilities.lists` is not part of this model: `numerate`,
  `add_numbers`, `split_div` and `split_mod` are defined from their
  documented behaviour and their call sites; the default start of
  `numerate` is a parameter of `Venue.Populate`.
- Hierarchy.Venue.Populate: requires a non-negative page capacity and a
  positive number of evaluators, because what `split_div` and `split_mod`
  do otherwise is not known; a zero page capacity is modelled (the
  division by zero in `_add_extra_teams`).
- The metadata reader, `ContextNaboj`'s `load_meta`/`add_id`/`add`, and
  the global language table are inputs: the loaded metadata and the table
  are parameters.
- The schema library: schemas are predicates; `Regex('[A-Z]{5}')` is a
  parameter of the venue schema; only the fields the derivations touch are
  constrained; the competition context is a read-only value, and its float
  and date fields are left out.
- Filters: the filter bodies are not part of this model; the definitions
  follow the tests. Filters.Roman: the upper bound 3999 is the classical
  limit, since the tests only fix 123456 as too big; Python's `bool` (an
  `int` subclass) is not modelled.
- Jinja.ListRepr: Python's `repr` escaping of quotes and backslashes inside
  names is not modelled.
- Lists.NumerateKeepsItems: `numerate` is taken to return new
  dictionaries and leave its input untouched, since its body is not part
  of this model; if it wrote the index into the shared team dictionaries,
  `teams` would show the indices of the second call, while `teams_grouped`
  stays the same either way (Hierarchy.GroupingIgnoresFirstNumbering).
- Jinja: the template environment, the renderer and `sys.exit` are left
  out; rendering is a given outcome and the exit is a status value; console
  messages are not modelled.
- Convertor: regular expressions are an uninterpreted substitution function
  over verbatim rule tables; `run`, `write`, `call_pandoc`, the pandoc
  process and temporary files are left out; a convertor is an immutable
  value.
- Validator: the filesystem is a finite tree, so symbolic-link cycles are
  not modelled; the schema and the extra checks are parameters; the
  permission failures of probing a path are left out (a missing path is
  a `Special` target, which scans to None as the source's probes give).
- Prepare: the JSON loading, argparse, console output and file opening are
  left out; each output file is the sequence of its `write` calls, and
  `settings['volume']` is given as its printed text.
- The scholar module and the command-line builders are not part of this
  model.
