/** The Náboj context hierarchy: the competition, volume, language and venue
    contexts. Each context's `data` dictionary becomes the fields of a class
    (or, for the competition, which is only read here, a value); `populate`
    writes them. Metadata files, the global language table and the schema
    library are inputs: the loaded metadata is a parameter and each schema
    is a predicate over the populated fields. */
module Hierarchy {
  import opened Common
  import opened Lists

  /** The keys of an entry of a venue's `teams` list other than `index`:
      those a filler team gets. */
  datatype TeamData = TeamData(
    id: int,
    code: string,
    contactEmail: string,
    contactName: string,
    contactPhone: string,
    contestants: string,
    displayName: string,
    inSchoolSymbol: string,
    language: string,
    name: string,
    number: int,
    school: string,
    schoolAddress: string,
    schoolId: int,
    schoolName: string,
    status: string,
    venue: string,
    venueCode: string,
    venueId: string)

  /** A team dictionary: its optional `index` key and the others. */
  type Team = Indexed<TeamData>

  /** The failures a `populate` can raise on the way. */
  datatype Error =
    | ZeroDivision             // `len(teams) % per_page` with per_page == 0
    | MissingKey(key: string)  // a dictionary lookup of an absent key

  /** What the competition context offers its children. */
  datatype Competition = Competition(id: string, founded: int, perPage: int)

  /** The two entries `_add_extra_teams` reads of its second argument:
      `data['id']` and, if the metadata supplied one, `data['code']`. */
  datatype ContextRef = ContextRef(id: string, code: Option<string>)

  /** The raw metadata of a volume, as the metadata reader returns it. */
  datatype VolumeMeta = VolumeMeta(problems: seq<string>, start: int, table: int, code: Option<string>)

  /** The raw metadata of a venue. */
  datatype VenueMeta = VenueMeta(
    code: string, name: string, language: string, teams: seq<Team>, evaluators: int, start: int)

  /** One entry of the global language table; `rtl` may be missing. */
  datatype LanguageEntry = LanguageEntry(polyglossia: string, rtl: Option<bool>)

  // -------------------------------------------------------------------
  // Schemas, as predicates over the fields they constrain

  predicate CompetitionSchema(c: Competition)
  {
    |c.id| > 0 && c.founded >= 1950
  }

  predicate ValidStart(start: int) { 0 <= start < 1440 }

  predicate VolumeSchema(id: string, number: int, start: int, year: int)
  {
    |id| > 0 && number > 0 && ValidStart(start) && year >= 1950
  }

  /** The venue schema; `codeOk` stands for the library's `Regex('[A-Z]{5}')`
      and `languages` for the keys `valid_language` accepts. */
  predicate VenueSchema(id: string, code: string, name: string, language: string, start: int,
                        codeOk: string -> bool, languages: set<string>)
  {
    |id| > 0 && codeOk(code) && |name| > 0 && language in languages && ValidStart(start)
  }

  predicate LanguageSchema(polyglossia: string, table: map<string, LanguageEntry>)
  {
    exists code :: code in table && table[code].polyglossia == polyglossia
  }

  // -------------------------------------------------------------------
  // Volume derivations

  /** The volume id `f'{volume:02d}'`: zero-padded to two characters. */
  function VolumeId(volume: int): string
  {
    ZeroPad(volume, 2)
  }

  function VolumeYear(number: int, founded: int): int
  {
    number + founded - 1
  }

  /** A positive volume number gives an all-digit id of at least two
      characters that reads back as the number, and a year no earlier than
      the founding year, so a valid competition yields a valid year. */
  lemma VolumeDerivations(volume: int, founded: int)
    requires volume > 0
    ensures AllDigits(VolumeId(volume)) && |VolumeId(volume)| >= 2
    ensures DigitsValue(VolumeId(volume)) == volume
    ensures VolumeYear(volume, founded) >= founded
    ensures founded >= 1950 ==> VolumeYear(volume, founded) >= 1950
  {
    ZeroPadNat(volume, 2);
  }

  /** For a valid competition, a populated volume meets its schema exactly
      when its number is positive and its start lies within the day. */
  lemma VolumeSchemaBounds(volume: int, founded: int, start: int)
    requires founded >= 1950
    ensures VolumeSchema(VolumeId(volume), volume, start, VolumeYear(volume, founded))
            <==> volume > 0 && 0 <= start < 1440
  {
    if volume > 0 {
      VolumeDerivations(volume, founded);
    }
  }

  /** The volume's problems are numbered 1, 2, ... in the order listed. */
  lemma VolumeProblemsFromOne(problems: seq<string>)
    ensures |AddNumbers(problems, 1)| == |problems|
    ensures forall k :: 0 <= k < |problems| ==>
              AddNumbers(problems, 1)[k] == Numbered(problems[k], k + 1)
  {
  }

  class Volume {
    var id: string
    var number: int
    var year: int
    var problems: seq<Numbered<string>>
    var start: int
    var table: int
    var code: Option<string>

    constructor ()
      ensures id == "" && problems == [] && code == None
    {
      id, number, year, problems, start, table, code := "", 0, 0, [], 0, 0, None;
    }

    /** `ContextVolume.populate`: load the metadata, add the padded id and
        the number, then the year and the numbered problems. */
    method Populate(competition: Competition, volume: int, meta: VolumeMeta)
      modifies this
      ensures id == VolumeId(volume) && number == volume
      ensures year == VolumeYear(volume, competition.founded)
      ensures problems == AddNumbers(meta.problems, 1)
      ensures start == meta.start && table == meta.table && code == meta.code
    {
      problems, start, table, code := [], meta.start, meta.table, meta.code;
      id := VolumeId(volume);
      number := volume;
      year := VolumeYear(number, competition.founded);
      problems := AddNumbers(meta.problems, 1);
    }

    predicate SchemaValid()
      reads this
    {
      VolumeSchema(id, number, start, year)
    }

    /** What a venue reads of this volume. */
    function Ref(): ContextRef
      reads this
    {
      ContextRef(id, code)
    }
  }

  // -------------------------------------------------------------------
  // Language

  function RtlOf(entry: LanguageEntry): bool
  {
    match entry.rtl
    case Some(b) => b
    case None => false
  }

  /** `.get('rtl', False)`: the entry's flag when present, False otherwise. */
  lemma RtlDefault(entry: LanguageEntry)
    ensures entry.rtl.None? ==> !RtlOf(entry)
    ensures entry.rtl.Some? ==> RtlOf(entry) == entry.rtl.value
  {
  }

  class Language {
    var id: string
    var polyglossia: string
    var rtl: bool

    constructor ()
      ensures id == "" && polyglossia == "" && !rtl
    {
      id, polyglossia, rtl := "", "", false;
    }

    /** `ContextLanguage.populate`: the id, then the language table's
        polyglossia name and rtl flag; an unknown code is a KeyError. */
    method Populate(language: string, table: map<string, LanguageEntry>) returns (r: Outcome<Error>)
      modifies this
      ensures r.Pass? <==> language in table
      ensures r.Fail? ==> r.error == MissingKey(language) && id == language
      ensures r.Pass? ==> id == language && polyglossia == table[language].polyglossia
                          && rtl == RtlOf(table[language])
      ensures r.Pass? ==> LanguageSchema(polyglossia, table)
    {
      id := language;
      if language !in table {
        return Fail(MissingKey(language));
      }
      polyglossia := table[language].polyglossia;
      rtl := RtlOf(table[language]);
      r := Pass;
    }
  }

  // -------------------------------------------------------------------
  // Padding the venue's teams with filler sets

  /** The k-th filler (counting from 0) is numbered 999 - k. */
  function FillerLabel(k: nat): string
  {
    IntToString(999 - k)
  }

  /** A filler team's dictionary, which has no `index` key. */
  function Filler(k: nat, language: string, owner: ContextRef): Team
    requires owner.code.Some?
  {
    Indexed(None, TeamData(
      id := 0,
      code := "SKBAS" + FillerLabel(k),
      contactEmail := "none@none.none",
      contactName := "Unnamed",
      contactPhone := "",
      contestants := "unknown",
      displayName := "Extra set " + FillerLabel(k),
      inSchoolSymbol := "",
      language := language,
      name := "",
      number := 0,
      school := "",
      schoolAddress := "",
      schoolId := 0,
      schoolName := "",
      status := "R",
      venue := owner.id,
      venueCode := owner.code.value,
      venueId := owner.id))
  }

  function Fillers(count: nat, language: string, owner: ContextRef): seq<Team>
    requires count == 0 || owner.code.Some?
  {
    seq(count, k requires 0 <= k < count => Filler(k, language, owner))
  }

  function Abs(x: int): nat { if x < 0 then -x else x }

  /** How many teams are missing to reach a multiple of the page capacity. */
  function Padding(n: nat, perPage: int): nat
    requires perPage != 0
  {
    if n % perPage == 0 then 0 else Abs(perPage) - n % perPage
  }

  /** The teams after `_add_extra_teams`, or the error it raises. */
  function PaddedTeams(teams: seq<Team>, perPage: int, language: string, owner: ContextRef): Result<seq<Team>, Error>
  {
    if perPage == 0 then Err(ZeroDivision)
    else if Padding(|teams|, perPage) == 0 then Ok(teams)
    else if owner.code.None? then Err(MissingKey("code"))
    else Ok(teams + Fillers(Padding(|teams|, perPage), language, owner))
  }

  lemma ModAbs(x: int, p: int)
    requires p != 0
    ensures x % p == x % Abs(p)
  {
    if p < 0 {
      DivModUnique(x, -p, -(x / p), x % p);
    }
  }

  /** Whether adding c teams to n gives a multiple of per_page. */
  predicate FillsPage(n: nat, perPage: int, c: nat)
    requires perPage != 0
  {
    (n + c) % perPage == 0
  }

  /** Padding is the least count that makes the length a multiple. */
  lemma PaddingSpec(n: nat, perPage: int)
    requires perPage != 0
    ensures Padding(n, perPage) < Abs(perPage)
    ensures FillsPage(n, perPage, Padding(n, perPage))
    ensures forall c :: 0 <= c < Padding(n, perPage) ==> !FillsPage(n, perPage, c)
  {
    var m := Abs(perPage);
    ModAbs(n, perPage);
    var q, r := n / m, n % m;
    assert n == m * q + r;
    if r != 0 {
      assert Padding(n, perPage) == m - r;
      ModAbs(n + (m - r), perPage);
      assert n + (m - r) == m * (q + 1) + 0;
      DivModUnique(n + (m - r), m, q + 1, 0);
      forall c | 0 <= c < m - r ensures !FillsPage(n, perPage, c) {
        ModAbs(n + c, perPage);
        DivModUnique(n + c, m, q, r + c);
      }
    }
  }

  /** Padding count as the while loop produces it: stop at the first count
      whose total is a multiple of per_page. */
  lemma PaddingStops(n: nat, perPage: int, c: nat)
    requires perPage != 0 && c <= Padding(n, perPage)
    ensures FillsPage(n, perPage, c) <==> c == Padding(n, perPage)
  {
    PaddingSpec(n, perPage);
  }

  /** With a non-zero page capacity and a padding that succeeds, the team
      count becomes a multiple of the capacity; nothing is added when it
      already was one, fewer than |per_page| teams otherwise; the original
      teams stay a prefix and only fillers follow. */
  lemma PaddedTeamsSpec(teams: seq<Team>, perPage: int, language: string, owner: ContextRef)
    requires PaddedTeams(teams, perPage, language, owner).Ok?
    ensures var ts := PaddedTeams(teams, perPage, language, owner).value;
            && |ts| % perPage == 0
            && |teams| <= |ts| < |teams| + Abs(perPage)
            && (|teams| % perPage == 0 ==> ts == teams)
            && ts[..|teams|] == teams
            && forall k :: 0 <= k < |ts| - |teams| ==> ts[|teams| + k] == Filler(k, language, owner)
  {
    PaddingSpec(|teams|, perPage);
  }

  /** When padding fails: a zero capacity always, and a second argument
      without `code` exactly when at least one filler is needed. */
  lemma PaddedTeamsErrors(teams: seq<Team>, perPage: int, language: string, owner: ContextRef)
    ensures PaddedTeams(teams, perPage, language, owner).Err? <==>
              perPage == 0 || (|teams| % perPage != 0 && owner.code.None?)
    ensures perPage == 0 ==> PaddedTeams(teams, perPage, language, owner) == Err(ZeroDivision)
  {
    if perPage != 0 {
      PaddingSpec(|teams|, perPage);
    }
  }

  /** Every filler is marked the same way: id 0, number 0, status 'R', the
      venue's language and the second argument's id and code. */
  lemma FillerFields(k: nat, language: string, owner: ContextRef)
    requires owner.code.Some?
    ensures Filler(k, language, owner).index.None?
    ensures var t := Filler(k, language, owner).entry;
            && t.id == 0 && t.number == 0 && t.schoolId == 0 && t.status == "R"
            && t.language == language
            && t.venue == owner.id && t.venueId == owner.id && t.venueCode == owner.code.value
            && t.code[..5] == "SKBAS" && t.code[5..] == t.displayName[10..] == IntToString(999 - k)
  {
  }

  lemma PrefixCancel(p: string, x: string, y: string)
    ensures p + x == p + y ==> x == y
  {
    if p + x == p + y {
      assert x == (p + x)[|p|..];
      assert y == (p + y)[|p|..];
    }
  }

  /** Filler codes count down from SKBAS999 and never repeat. */
  lemma FillerCodesDistinct(j: nat, k: nat, language: string, owner: ContextRef)
    requires owner.code.Some? && j != k
    ensures Filler(j, language, owner).entry.code != Filler(k, language, owner).entry.code
    ensures Filler(j, language, owner).entry.displayName != Filler(k, language, owner).entry.displayName
  {
    IntToStringInjective(999 - j, 999 - k);
    PrefixCancel("SKBAS", FillerLabel(j), FillerLabel(k));
    PrefixCancel("Extra set ", FillerLabel(j), FillerLabel(k));
  }

  /** After padding with a positive capacity, `split_div` cuts the numbered
      teams into |teams| / per_page full pages and loses no team. */
  lemma PaddedTeamsGroupFully(teams: seq<Team>, perPage: int, language: string, owner: ContextRef, start: int)
    requires perPage > 0 && PaddedTeams(teams, perPage, language, owner).Ok?
    ensures var ts := Numerate(PaddedTeams(teams, perPage, language, owner).value, start);
            && |SplitDiv(ts, perPage)| * perPage == |ts|
            && (forall g :: 0 <= g < |SplitDiv(ts, perPage)| ==> |SplitDiv(ts, perPage)[g]| == perPage)
            && Concat(SplitDiv(ts, perPage)) == ts
  {
    var padded := PaddedTeams(teams, perPage, language, owner).value;
    PaddedTeamsSpec(teams, perPage, language, owner);
    assert |padded| % perPage == 0;
    GroupFully(Numerate(padded, start), perPage);
  }

  /** `split_div` of a list whose length is a multiple of the page size:
      full pages that concatenate back to the list. */
  lemma GroupFully<T>(ts: seq<T>, perPage: nat)
    requires perPage > 0 && |ts| % perPage == 0
    ensures |SplitDiv(ts, perPage)| * perPage == |ts|
    ensures forall g :: 0 <= g < |SplitDiv(ts, perPage)| ==> |SplitDiv(ts, perPage)[g]| == perPage
    ensures Concat(SplitDiv(ts, perPage)) == ts
  {
    SplitDivExact(ts, perPage);
    SplitDivConcat(ts, perPage);
    var q := |ts| / perPage;
    assert |ts| == perPage * q + 0;
    DivModUnique(|ts|, perPage, q, 0);
  }

  /** Seven teams on pages of three: two fillers, SKBAS999 and SKBAS998,
      make nine teams, grouped into three full pages. */
  lemma PaddingScenario(teams: seq<Team>, language: string, owner: ContextRef, start: int)
    requires |teams| == 7 && owner.code.Some?
    ensures PaddedTeams(teams, 3, language, owner).Ok?
    ensures var ts := PaddedTeams(teams, 3, language, owner).value;
            && |ts| == 9 && ts[..7] == teams
            && ts[7].entry.code == "SKBAS999" && ts[8].entry.code == "SKBAS998"
            && |SplitDiv(Numerate(ts, start), 3)| == 3
  {
    assert Padding(7, 3) == 2;
    PaddedTeamsSpec(teams, 3, language, owner);
    PaddedTeamsGroupFully(teams, 3, language, owner, start);
    assert IntToString(999) == "999" && IntToString(998) == "998";
    assert FillerLabel(0) == "999" && FillerLabel(1) == "998";
  }

  class Venue {
    var id: string
    var code: string
    var name: string
    var language: string
    var evaluators: int
    var start: int
    var teams: seq<Team>
    var numberedTeams: seq<Team>
    var teamsGrouped: seq<seq<Team>>
    var problemsModulo: seq<seq<Numbered<string>>>

    constructor ()
      ensures teams == [] && numberedTeams == [] && teamsGrouped == [] && problemsModulo == []
    {
      id, code, name, language, evaluators, start := "", "", "", "", 0, 0;
      teams, numberedTeams, teamsGrouped, problemsModulo := [], [], [], [];
    }

    /** `_add_extra_teams`: append filler teams, counting their codes down
        from 999, until the number of teams is a multiple of `perPage`. */
    method AddExtraTeams(perPage: int, owner: ContextRef) returns (r: Outcome<Error>)
      modifies this`teams
      ensures var expected := PaddedTeams(old(teams), perPage, language, owner);
              && (r.Pass? <==> expected.Ok?)
              && (r.Pass? ==> teams == expected.value)
              && (r.Fail? ==> r.error == expected.error && teams == old(teams))
    {
      if perPage == 0 {
        return Fail(ZeroDivision);
      }
      ghost var n := |teams|;
      var count := 0;
      while |teams| % perPage != 0
        invariant 0 <= count <= Padding(n, perPage)
        invariant count > 0 ==> owner.code.Some?
        invariant teams == old(teams) + Fillers(count, language, owner)
        decreases Padding(n, perPage) - count
      {
        PaddingStops(n, perPage, count);
        assert !FillsPage(n, perPage, count);
        if owner.code.None? {
          return Fail(MissingKey("code"));
        }
        teams := teams + [Filler(count, language, owner)];
        count := count + 1;
      }
      PaddingStops(n, perPage, count);
      assert FillsPage(n, perPage, count);
      r := Pass;
    }

    /** The problems of the volume, renumbered from 1 and spread over the
        evaluators by `split_mod` with `first=1`. */
    static function ProblemsModulo(problems: seq<Numbered<string>>, evaluators: nat): seq<seq<Numbered<string>>>
      requires evaluators > 0
    {
      var ids := seq(|problems|, i requires 0 <= i < |problems| => problems[i].id);
      SplitMod(AddNumbers(ids, 1), evaluators, 1)
    }

    /** `ContextVenue.populate`. `numerateStart` is the default start of
        `lists.numerate`, used for `teams_grouped`. */
    method Populate(competition: Competition, volume: Volume, venue: string, meta: VenueMeta,
                    numerateStart: int) returns (r: Outcome<Error>)
      requires competition.perPage >= 0 && meta.evaluators > 0
      modifies this
      ensures id == venue && code == meta.code && name == meta.name && language == meta.language
      ensures evaluators == meta.evaluators && start == meta.start
      ensures var expected := PaddedTeams(meta.teams, competition.perPage, meta.language, volume.Ref());
              && (r.Pass? <==> expected.Ok?)
              && (r.Fail? ==> r.error == expected.error && teams == meta.teams)
              && (r.Pass? ==> teams == expected.value
                              && numberedTeams == Numerate(teams, 0)
                              && teamsGrouped == SplitDiv(Numerate(teams, numerateStart), competition.perPage)
                              && problemsModulo == ProblemsModulo(volume.problems, meta.evaluators))
    {
      code, name, language, teams := meta.code, meta.name, meta.language, meta.teams;
      evaluators, start := meta.evaluators, meta.start;
      id := venue;
      r := AddExtraTeams(competition.perPage, volume.Ref());
      if r.Fail? {
        return;
      }
      numberedTeams := Numerate(teams, 0);
      teamsGrouped := SplitDiv(Numerate(teams, numerateStart), competition.perPage);
      problemsModulo := ProblemsModulo(volume.problems, evaluators);
    }

    predicate SchemaValid(codeOk: string -> bool, languages: set<string>)
      reads this
    {
      VenueSchema(id, code, name, language, start, codeOk, languages)
    }
  }

  /** `teams_grouped` comes out the same whether `numerate` builds new
      dictionaries or writes the index into the shared ones: numbering the
      list that the first call already numbered from 0 gives what numbering
      the bare list gives. Only `teams` itself would then show the second
      numbering. */
  lemma GroupingIgnoresFirstNumbering(teams: seq<Team>, perPage: nat, start: int)
    requires perPage > 0
    ensures SplitDiv(Numerate(Numerate(teams, 0), start), perPage) == SplitDiv(Numerate(teams, start), perPage)
  {
    NumerateOverwrites(teams, 0, start);
  }

  /** Eleven problems over four evaluators: problems 1..11 go to bucket
      number % 4, giving buckets of 2, 3, 3 and 3 problems. */
  lemma ProblemsScenario(problems: seq<Numbered<string>>)
    requires |problems| == 11
    ensures var buckets := Venue.ProblemsModulo(problems, 4);
            && |buckets| == 4
            && |buckets[0]| == 2 && |buckets[1]| == 3 && |buckets[2]| == 3 && |buckets[3]| == 3
  {
    PositionsCount(11, 4, 1, 0);
    PositionsCount(11, 4, 1, 1);
    PositionsCount(11, 4, 1, 2);
    PositionsCount(11, 4, 1, 3);
  }
}
