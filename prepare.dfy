/** The legacy Náboj preparation script (`processJSON`): from the volume's
    settings it writes the settings file, the problem and solution booklet
    recipes, the answer-sheet recipe, the tear-off recipe and the barcode
    list. Each output file is modelled as the sequence of strings passed to
    `output.write`, in order; the file's content is their concatenation. */
module Prepare {
  import opened Common
  import opened Lists

  /** A team as listed in the settings JSON: its numeric id and language. */
  datatype Team = Team(id: int, language: string)

  /** The parts of the settings JSON the script reads. */
  datatype Settings = Settings(volume: string, teams: seq<Team>, problems: seq<string>)

  /** The write sequences of the six output files. */
  datatype Output = Output(
    settings: seq<string>,
    problemBooklet: seq<string>,
    solutionBooklet: seq<string>,
    answers: seq<string>,
    tearoff: seq<string>,
    barcodes: seq<string>)

  const NewPage := "\\newpage\n"
  const HRule := "\\hrule\n"

  // -------------------------------------------------------------------
  // Root directory and settings

  /** `re.sub('^\./source/', './input/', dirname)`. */
  function RootDirectory(dirname: string): string
  {
    if |dirname| >= 9 && dirname[..9] == "./source/" then "./input/" + dirname[9..] else dirname
  }

  /** A leading `./source/` is replaced by `./input/`, and only that. */
  lemma RootDirectorySpec(dirname: string)
    ensures forall rest :: dirname == "./source/" + rest ==> RootDirectory(dirname) == "./input/" + rest
    ensures (|dirname| < 9 || dirname[..9] != "./source/") ==> RootDirectory(dirname) == dirname
  {
    forall rest | dirname == "./source/" + rest
      ensures RootDirectory(dirname) == "./input/" + rest
    {
      assert dirname[..9] == "./source/" && dirname[9..] == rest;
    }
  }

  function CommandLine(command: string, argument: string): string
  {
    "\\RenewDocumentCommand{\\" + command + "}{}{" + argument + "}\n"
  }

  function SettingsWrites(root: string, language: string, s: Settings): seq<string>
  {
    [ CommandLine("rootDirectory", root),
      "\\loadLanguage{" + language + "}\n",
      "\\loadSeminar{fks}\n",
      CommandLine("currentVolume", s.volume),
      CommandLine("teamCount", NatToString(|s.teams|)),
      CommandLine("problemCount", NatToString(|s.problems|)) ]
  }

  /** The team and problem counts written to the settings file read back
      as the lengths of the two lists. */
  lemma SettingsCounts(root: string, language: string, s: Settings)
    ensures var w := SettingsWrites(root, language, s);
            && |w| == 6
            && (exists count :: w[4] == CommandLine("teamCount", count) && AllDigits(count)
                                && DigitsValue(count) == |s.teams|)
            && (exists count :: w[5] == CommandLine("problemCount", count) && AllDigits(count)
                                && DigitsValue(count) == |s.problems|)
  {
    NatToStringRoundTrip(|s.teams|);
    NatToStringRoundTrip(|s.problems|);
    var w := SettingsWrites(root, language, s);
    assert w[4] == CommandLine("teamCount", NatToString(|s.teams|));
    assert w[5] == CommandLine("problemCount", NatToString(|s.problems|));
  }

  // -------------------------------------------------------------------
  // Booklet recipes: problem k (from 0) is entered as number k + 1

  function RecipeLine(command: string, number: int, problem: string): string
  {
    "\\" + command + "{" + IntToString(number) + "}{" + problem + "}\n"
  }

  /** The problem booklet (`command` = "addProblem") or the solution
      booklet (`command` = "addSolution"). */
  method BookletRecipe(problems: seq<string>, command: string) returns (writes: seq<string>)
    ensures |writes| == |problems|
    ensures forall k :: 0 <= k < |problems| ==> writes[k] == RecipeLine(command, k + 1, problems[k])
  {
    writes := [];
    for k := 0 to |problems|
      invariant |writes| == k
      invariant forall i :: 0 <= i < k ==> writes[i] == RecipeLine(command, i + 1, problems[i])
    {
      writes := writes + [RecipeLine(command, k + 1, problems[k])];
    }
  }

  // -------------------------------------------------------------------
  // Answer sheets: problem number n goes on paper n % 5

  /** The contents of paper `b` once the problems `ps` have been dealt. */
  function Paper(ps: seq<string>, b: int): seq<Numbered<string>>
  {
    if ps == [] then []
    else Paper(ps[..|ps| - 1], b) + (if |ps| % 5 == b then [Numbered(ps[|ps| - 1], |ps|)] else [])
  }

  function AnswerLine(entry: Numbered<string>): string
  {
    RecipeLine("addAnswer", entry.number, entry.id)
  }

  function PaperLines(paper: seq<Numbered<string>>): seq<string>
  {
    seq(|paper|, i requires 0 <= i < |paper| => AnswerLine(paper[i]))
  }

  /** Papers 0 .. count - 1, each followed by one page break. */
  function PaperBlocks(ps: seq<string>, count: nat): seq<string>
  {
    if count == 0 then [] else PaperBlocks(ps, count - 1) + PaperLines(Paper(ps, count - 1)) + [NewPage]
  }

  function AnswerWrites(ps: seq<string>): seq<string>
  {
    PaperBlocks(ps, 5)
  }

  /** The first loop: each problem is appended to the paper of its number
      modulo 5. */
  method DealPapers(problems: seq<string>) returns (papers: seq<seq<Numbered<string>>>)
    ensures |papers| == 5
    ensures forall b :: 0 <= b < 5 ==> papers[b] == Paper(problems, b)
  {
    papers := [[], [], [], [], []];
    for k := 0 to |problems|
      invariant |papers| == 5
      invariant forall b :: 0 <= b < 5 ==> papers[b] == Paper(problems[..k], b)
    {
      var prefix := problems[..k + 1];
      assert prefix[..k] == problems[..k] && prefix[k] == problems[k];
      forall b | 0 <= b < 5
        ensures Paper(prefix, b)
                == Paper(problems[..k], b) + (if (k + 1) % 5 == b then [Numbered(problems[k], k + 1)] else [])
      {
      }
      papers := papers[(k + 1) % 5 := papers[(k + 1) % 5] + [Numbered(problems[k], k + 1)]];
    }
    assert problems[..|problems|] == problems;
  }

  /** The inner loop: one answer line per entry of a paper. */
  method WritePaper(paper: seq<Numbered<string>>) returns (lines: seq<string>)
    ensures lines == PaperLines(paper)
  {
    lines := [];
    for i := 0 to |paper|
      invariant |lines| == i
      invariant forall j :: 0 <= j < i ==> lines[j] == AnswerLine(paper[j])
    {
      lines := lines + [AnswerLine(paper[i])];
    }
  }

  method AnswerRecipe(problems: seq<string>) returns (writes: seq<string>)
    ensures writes == AnswerWrites(problems)
  {
    var papers := DealPapers(problems);
    writes := [];
    for b := 0 to 5
      invariant writes == PaperBlocks(problems, b)
    {
      var lines := WritePaper(papers[b]);
      writes := writes + lines + [NewPage];
    }
  }

  /** Paper b is exactly bucket b of `split_mod` over the problems numbered
      from 1 with `first=1`: the answer sheets are an instance of the same
      modulo bucketing the venue context uses. */
  lemma {:induction false} PaperIsSplitMod(ps: seq<string>, b: int)
    requires 0 <= b < 5
    ensures Paper(ps, b) == Bucket(AddNumbers(ps, 1), 5, 1, b)
  {
    if ps != [] {
      var n := |ps|;
      var init := ps[..n - 1];
      PaperIsSplitMod(init, b);
      var items, prefix := AddNumbers(ps, 1), AddNumbers(init, 1);
      var pos, pos' := Positions(n, 5, 1, b), Positions(n - 1, 5, 1, b);
      assert pos == pos' + (if n % 5 == b then [n - 1] else []);
      var whole, part := Bucket(items, 5, 1, b), Bucket(prefix, 5, 1, b);
      forall j | 0 <= j < |pos'| ensures whole[j] == part[j] {
        PositionsBelow(n - 1, 5, 1, b, j);
        assert pos[j] == pos'[j];
      }
      assert whole == part + (if n % 5 == b then [Numbered(ps[n - 1], n)] else []);
    }
  }

  /** Every entry of paper b is a problem whose number selects paper b;
      every such problem is on it; and the paper keeps the input order. */
  lemma {:induction false} PaperMembership(ps: seq<string>, b: int)
    requires 0 <= b < 5
    ensures forall e :: e in Paper(ps, b) ==>
              1 <= e.number <= |ps| && e.number % 5 == b && e.id == ps[e.number - 1]
    ensures forall p :: 0 <= p < |ps| && (p + 1) % 5 == b ==> Numbered(ps[p], p + 1) in Paper(ps, b)
    ensures forall i, j :: 0 <= i < j < |Paper(ps, b)| ==> Paper(ps, b)[i].number < Paper(ps, b)[j].number
  {
    if ps != [] {
      var n := |ps|;
      var init := ps[..n - 1];
      PaperMembership(init, b);
      var part := Paper(init, b);
      assert Paper(ps, b) == part + (if n % 5 == b then [Numbered(ps[n - 1], n)] else []);
      forall e | e in part ensures e.id == ps[e.number - 1] {
        assert init[e.number - 1] == ps[e.number - 1];
      }
      forall p | 0 <= p < n - 1 && (p + 1) % 5 == b ensures Numbered(ps[p], p + 1) in part {
        assert init[p] == ps[p];
      }
      forall i | 0 <= i < |part| ensures part[i].number < n {
        assert part[i] in part;
      }
    }
  }

  lemma AnswerLineNotPageBreak(e: Numbered<string>)
    ensures AnswerLine(e) != NewPage
  {
    var tail := "{" + IntToString(e.number) + "}{" + e.id + "}\n";
    assert AnswerLine(e) == "\\addAnswer" + tail;
    assert AnswerLine(e)[1] == 'a';
  }

  /** The answer recipe has one line per problem and five page breaks:
      every paper, empty or not, ends with exactly one. */
  lemma AnswerWritesShape(ps: seq<string>)
    ensures |AnswerWrites(ps)| == |ps| + 5
    ensures multiset(AnswerWrites(ps))[NewPage] == 5
  {
    BlocksShape(ps, 5);
    SplitModSizes(|ps|, 5, 1);
  }

  lemma {:induction false} BlocksShape(ps: seq<string>, count: nat)
    requires count <= 5
    ensures |PaperBlocks(ps, count)| == SizesBelow(|ps|, 5, 1, count) + count
    ensures multiset(PaperBlocks(ps, count))[NewPage] == count
  {
    if count > 0 {
      BlocksShape(ps, count - 1);
      var lines := PaperLines(Paper(ps, count - 1));
      PaperLinesShape(ps, count - 1);
      var before := PaperBlocks(ps, count - 1);
      assert PaperBlocks(ps, count) == before + lines + [NewPage];
      assert multiset(before + lines + [NewPage]) == multiset(before) + multiset(lines) + multiset([NewPage]);
    }
  }

  /** One paper's lines: as many as the bucket's positions, no page break. */
  lemma PaperLinesShape(ps: seq<string>, b: nat)
    requires b < 5
    ensures |PaperLines(Paper(ps, b))| == |Positions(|ps|, 5, 1, b)|
    ensures multiset(PaperLines(Paper(ps, b)))[NewPage] == 0
  {
    var paper := Paper(ps, b);
    PaperIsSplitMod(ps, b);
    var lines := PaperLines(paper);
    forall i | 0 <= i < |lines| ensures lines[i] != NewPage {
      AnswerLineNotPageBreak(paper[i]);
    }
    assert NewPage !in lines;
  }

  // -------------------------------------------------------------------
  // Tear-off sheets: teams in triplets, one page per problem and triplet

  function Min(a: int, b: int): int { if a < b then a else b }

  /** `[teams[i*3 : i*3 + 3] for i in range((len(teams) + 2) // 3)]`. */
  function Triplets<T>(teams: seq<T>): seq<seq<T>>
  {
    seq((|teams| + 2) / 3, i requires 0 <= i < (|teams| + 2) / 3 => teams[i * 3 .. Min(i * 3 + 3, |teams|)])
  }

  /** The comprehension is `split_div` by 3: ceil(T / 3) groups of three
      consecutive teams, the last possibly shorter, whose concatenation is
      the team list. */
  lemma {:induction false} TripletsAreSplitDiv<T>(teams: seq<T>)
    ensures Triplets(teams) == SplitDiv(teams, 3)
    decreases |teams|
  {
    var n := |teams|;
    if n == 0 {
    } else if n <= 3 {
      assert (n + 2) / 3 == 1;
      assert Triplets(teams)[0] == teams[0..n] == teams;
    } else {
      var rest := teams[3..];
      TripletsAreSplitDiv(rest);
      assert (n + 2) / 3 == (|rest| + 2) / 3 + 1;
      var whole, tail := Triplets(teams), Triplets(rest);
      forall i | 0 <= i < |whole| ensures whole[i] == ([teams[..3]] + tail)[i] {
        if i == 0 {
          assert whole[0] == teams[0..3];
        } else {
          TripletShift(teams, i);
        }
      }
      assert whole == [teams[..3]] + tail;
    }
  }

  /** Past the first triplet, the triplets are those of the remaining teams. */
  lemma TripletShift<T>(teams: seq<T>, i: nat)
    requires |teams| > 3 && 1 <= i < (|teams| + 2) / 3
    ensures i - 1 < |Triplets(teams[3..])|
    ensures Triplets(teams)[i] == Triplets(teams[3..])[i - 1]
  {
    var n, rest := |teams|, teams[3..];
    assert (n + 2) / 3 == (|rest| + 2) / 3 + 1;
    var lo := (i - 1) * 3;
    var hi := Min(lo + 3, |rest|);
    assert lo + 3 == i * 3 && hi + 3 == Min(i * 3 + 3, n);
    assert Triplets(teams)[i] == teams[lo + 3 .. hi + 3];
    assert Triplets(rest)[i - 1] == rest[lo .. hi];
    assert rest[lo .. hi] == teams[lo + 3 .. hi + 3] by {
      forall j | 0 <= j < hi - lo ensures rest[lo .. hi][j] == teams[lo + 3 .. hi + 3][j] {
        assert rest[lo + j] == teams[3 + lo + j];
      }
    }
  }

  lemma TripletsCover<T>(teams: seq<T>)
    ensures |Triplets(teams)| == (|teams| + 2) / 3
    ensures Concat(Triplets(teams)) == teams
    ensures forall i :: 0 <= i < |Triplets(teams)| ==> 0 < |Triplets(teams)[i]| <= 3
    ensures forall i :: 0 <= i < |Triplets(teams)| - 1 ==> |Triplets(teams)[i]| == 3
  {
    TripletsAreSplitDiv(teams);
    SplitDivConcat(teams, 3);
  }

  /** Tear-off page of the team with id t for problem index k (from 0). */
  function Page(t: int, k: int, problemCount: int): int
  {
    (t - 1) * problemCount + k + 1
  }

  /** Team t's tear-offs fill pages (t - 1) * P + 1 .. t * P, one per
      problem, and a page number names its team and problem uniquely. */
  lemma PageSpec(t: int, k: int, problemCount: int)
    requires 0 <= k < problemCount
    ensures (t - 1) * problemCount + 1 <= Page(t, k, problemCount) <= t * problemCount
    ensures (Page(t, k, problemCount) - 1) / problemCount == t - 1
    ensures (Page(t, k, problemCount) - 1) % problemCount == k
  {
    DivModUnique(Page(t, k, problemCount) - 1, problemCount, t - 1, k);
  }

  lemma PagesDistinct(t: int, k: int, t': int, k': int, problemCount: int)
    requires 0 <= k < problemCount && 0 <= k' < problemCount
    ensures Page(t, k, problemCount) == Page(t', k', problemCount) <==> t == t' && k == k'
  {
    PageSpec(t, k, problemCount);
    PageSpec(t', k', problemCount);
  }

  function TearoffLine(team: Team, k: nat, problem: string, problemCount: nat): string
  {
    "\\addTearoff{" + IntToString(k + 1) + "}{" + problem + "}{" + IntToString(team.id) + "}{"
      + team.language + "}{" + IntToString(Page(team.id, k, problemCount)) + "}\n"
  }

  /** The lines of one triplet for problem k. */
  function TearoffLines(triplet: seq<Team>, k: nat, problem: string, problemCount: nat): seq<string>
  {
    seq(|triplet|, j requires 0 <= j < |triplet| => TearoffLine(triplet[j], k, problem, problemCount))
  }

  /** The page of a triplet for problem k: its lines separated by rules,
      then a page break. */
  function TripletPage(triplet: seq<Team>, k: nat, problems: seq<string>): string
    requires k < |problems|
  {
    Join(HRule, TearoffLines(triplet, k, problems[k], |problems|)) + NewPage
  }

  function TripletWrites(triplet: seq<Team>, problems: seq<string>): seq<string>
  {
    seq(|problems|, k requires 0 <= k < |problems| => TripletPage(triplet, k, problems))
  }

  /** The pages of every triplet, one block of |problems| pages each. */
  function TripletBlocks(groups: seq<seq<Team>>, problems: seq<string>): seq<seq<string>>
  {
    seq(|groups|, g requires 0 <= g < |groups| => TripletWrites(groups[g], problems))
  }

  function TearoffWrites(groups: seq<seq<Team>>, problems: seq<string>): seq<string>
  {
    Concat(TripletBlocks(groups, problems))
  }

  method WriteTripletPage(triplet: seq<Team>, k: nat, problems: seq<string>) returns (page: string)
    requires k < |problems|
    ensures page == TripletPage(triplet, k, problems)
  {
    var strs := [];
    for j := 0 to |triplet|
      invariant strs == TearoffLines(triplet[..j], k, problems[k], |problems|)
    {
      strs := strs + [TearoffLine(triplet[j], k, problems[k], |problems|)];
    }
    assert triplet[..|triplet|] == triplet;
    page := Join(HRule, strs) + NewPage;
  }

  method WriteTriplet(triplet: seq<Team>, problems: seq<string>) returns (pages: seq<string>)
    ensures pages == TripletWrites(triplet, problems)
  {
    pages := [];
    for k := 0 to |problems|
      invariant |pages| == k
      invariant forall i :: 0 <= i < k ==> pages[i] == TripletPage(triplet, i, problems)
    {
      var page := WriteTripletPage(triplet, k, problems);
      pages := pages + [page];
    }
  }

  method TearoffRecipe(teams: seq<Team>, problems: seq<string>) returns (writes: seq<string>)
    ensures writes == TearoffWrites(Triplets(teams), problems)
  {
    var groups := Triplets(teams);
    writes := [];
    for g := 0 to |groups|
      invariant writes == TearoffWrites(groups[..g], problems)
    {
      var pages := WriteTriplet(groups[g], problems);
      assert TripletBlocks(groups[..g + 1], problems) == TripletBlocks(groups[..g], problems) + [pages];
      ConcatAppend(TripletBlocks(groups[..g], problems), pages);
      writes := writes + pages;
    }
    assert groups[..|groups|] == groups;
  }

  /** Tear-off pages come triplet by triplet, and within a triplet problem
      by problem: the page of group g (from 0) for problem index k is write
      g * P + k, so the recipe has one page per (triplet, problem) pair. */
  lemma TearoffOrder(groups: seq<seq<Team>>, problems: seq<string>, g: nat, k: nat)
    requires g < |groups| && k < |problems|
    ensures |TearoffWrites(groups, problems)| == |groups| * |problems|
    ensures g * |problems| + k < |groups| * |problems|
    ensures TearoffWrites(groups, problems)[g * |problems| + k] == TripletPage(groups[g], k, problems)
  {
    var blocks := TripletBlocks(groups, problems);
    ConcatLength(blocks, |problems|);
    ConcatIndex(blocks, |problems|, g, k);
  }

  // -------------------------------------------------------------------
  // Barcodes: "47", the team id and the problem number, three digits each

  function BarcodeLine(teamId: int, number: int): string
  {
    "47" + ZeroPad(teamId, 3) + ZeroPad(number, 3) + "\n"
  }

  function TeamBarcodes(team: Team, problemCount: nat): seq<string>
  {
    seq(problemCount, k requires 0 <= k < problemCount => BarcodeLine(team.id, k + 1))
  }

  /** The barcodes of every team, one block of `problemCount` lines each. */
  function TeamBlocks(teams: seq<Team>, problemCount: nat): seq<seq<string>>
  {
    seq(|teams|, t requires 0 <= t < |teams| => TeamBarcodes(teams[t], problemCount))
  }

  function BarcodeWrites(teams: seq<Team>, problemCount: nat): seq<string>
  {
    Concat(TeamBlocks(teams, problemCount))
  }

  /** The inner loop: one barcode per problem of one team. */
  method WriteTeamBarcodes(team: Team, problemCount: nat) returns (lines: seq<string>)
    ensures lines == TeamBarcodes(team, problemCount)
  {
    lines := [];
    for k := 0 to problemCount
      invariant lines == TeamBarcodes(team, k)
    {
      TeamBarcodesStep(team, k);
      lines := lines + [BarcodeLine(team.id, k + 1)];
    }
  }

  lemma TeamBarcodesStep(team: Team, k: nat)
    ensures TeamBarcodes(team, k + 1) == TeamBarcodes(team, k) + [BarcodeLine(team.id, k + 1)]
  {
    var longer := TeamBarcodes(team, k + 1);
    var shorter := TeamBarcodes(team, k) + [BarcodeLine(team.id, k + 1)];
    assert |longer| == |shorter|;
    forall j | 0 <= j < |longer| ensures longer[j] == shorter[j] {
      if j < k {
        assert longer[j] == BarcodeLine(team.id, j + 1);
      }
    }
  }

  method BarcodeList(teams: seq<Team>, problems: seq<string>) returns (writes: seq<string>)
    ensures writes == BarcodeWrites(teams, |problems|)
  {
    writes := [];
    for t := 0 to |teams|
      invariant writes == BarcodeWrites(teams[..t], |problems|)
    {
      var lines := WriteTeamBarcodes(teams[t], |problems|);
      assert TeamBlocks(teams[..t + 1], |problems|) == TeamBlocks(teams[..t], |problems|) + [lines];
      ConcatAppend(TeamBlocks(teams[..t], |problems|), lines);
      writes := writes + lines;
    }
    assert teams[..|teams|] == teams;
  }

  /** Barcodes are listed team by team: the one for team t (from 0) and
      problem index k sits at position t * P + k. */
  lemma BarcodeOrder(teams: seq<Team>, problemCount: nat, t: nat, k: nat)
    requires t < |teams| && k < problemCount
    ensures |BarcodeWrites(teams, problemCount)| == |teams| * problemCount
    ensures t * problemCount + k < |teams| * problemCount
    ensures BarcodeWrites(teams, problemCount)[t * problemCount + k] == BarcodeLine(teams[t].id, k + 1)
  {
    var blocks := TeamBlocks(teams, problemCount);
    ConcatLength(blocks, problemCount);
    ConcatIndex(blocks, problemCount, t, k);
  }

  lemma BarcodeDecodes(teamId: int, number: int)
    requires 0 <= teamId <= 999 && 1 <= number <= 999
    ensures var line := BarcodeLine(teamId, number);
            && |line| == 9 && line[..2] == "47" && line[8] == '\n'
            && AllDigits(line[2..8])
            && DigitsValue(line[2..5]) == teamId && DigitsValue(line[5..8]) == number
  {
    NatToStringLength(teamId, 3);
    NatToStringLength(number, 3);
    ZeroPadNat(teamId, 3);
    ZeroPadNat(number, 3);
    var line := BarcodeLine(teamId, number);
    assert line[2..5] == ZeroPad(teamId, 3);
    assert line[5..8] == ZeroPad(number, 3);
  }

  lemma BarcodesDistinct(t: int, n: int, t': int, n': int)
    requires 0 <= t <= 999 && 1 <= n <= 999 && 0 <= t' <= 999 && 1 <= n' <= 999
    ensures BarcodeLine(t, n) == BarcodeLine(t', n') <==> t == t' && n == n'
  {
    BarcodeDecodes(t, n);
    BarcodeDecodes(t', n');
  }

  // -------------------------------------------------------------------

  /** `processJSON` without the file handling. */
  method ProcessJson(root: string, language: string, s: Settings) returns (out: Output)
    ensures out.settings == SettingsWrites(root, language, s)
    ensures |out.problemBooklet| == |out.solutionBooklet| == |s.problems|
    ensures forall k :: 0 <= k < |s.problems| ==>
              out.problemBooklet[k] == RecipeLine("addProblem", k + 1, s.problems[k])
              && out.solutionBooklet[k] == RecipeLine("addSolution", k + 1, s.problems[k])
    ensures out.answers == AnswerWrites(s.problems)
    ensures out.tearoff == TearoffWrites(Triplets(s.teams), s.problems)
    ensures out.barcodes == BarcodeWrites(s.teams, |s.problems|)
  {
    var settings := SettingsWrites(root, language, s);
    var problemBooklet := BookletRecipe(s.problems, "addProblem");
    var solutionBooklet := BookletRecipe(s.problems, "addSolution");
    var answers := AnswerRecipe(s.problems);
    var tearoff := TearoffRecipe(s.teams, s.problems);
    var barcodes := BarcodeList(s.teams, s.problems);
    out := Output(settings, problemBooklet, solutionBooklet, answers, tearoff, barcodes);
  }
}
