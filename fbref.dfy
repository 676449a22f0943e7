/**
 * The fbref.com football schedule reader: tournament lookup by name, score
 * parsing, the date-window filter over schedule rows and the yearly branching
 * of `get_matches`. Fetching and parsing the HTML table (`pandas.read_html`)
 * is a function from URL to rows; the current time is a parameter.
 */
module Fbref {
  import opened Common
  import opened Strings

  // ---------------------------------------------------------------------------
  // Tournaments

  /** The tournaments fbref.com is read for; each stands for its competition id. */
  datatype Tournament =
    | ChampionsLeague | PremierLeague | SerieA | LaLiga | Ligue1 | Bundesliga
    | SaudiProfessionalLeague | IndianSuperLeague
  {
    /** The member's name as the enum spells it. */
    function Name(): string
    {
      match this
      case ChampionsLeague => "Champions_League"
      case PremierLeague => "Premier_League"
      case SerieA => "Serie_A"
      case LaLiga => "La_Liga"
      case Ligue1 => "Ligue_1"
      case Bundesliga => "Bundesliga"
      case SaudiProfessionalLeague => "Saudi_Professional_League"
      case IndianSuperLeague => "Indian_Super_League"
    }

    /** The fbref.com competition id. */
    function Id(): int
    {
      match this
      case ChampionsLeague => 8
      case PremierLeague => 9
      case SerieA => 11
      case LaLiga => 12
      case Ligue1 => 13
      case Bundesliga => 20
      case SaudiProfessionalLeague => 70
      case IndianSuperLeague => 82
    }
  }

  /** The members in declaration order, which is the order `from_str` tries them in. */
  const AllTournaments: seq<Tournament> := [
    ChampionsLeague, PremierLeague, SerieA, LaLiga, Ligue1, Bundesliga,
    SaudiProfessionalLeague, IndianSuperLeague]

  /** Every member is listed. */
  lemma AllTournamentsListed(t: Tournament)
    ensures t in AllTournaments
  {
  }

  /** No two members share a competition id. */
  lemma TournamentIdsDistinct(t: Tournament, u: Tournament)
    requires t != u
    ensures t.Id() != u.Id()
  {
  }

  /** The first of `candidates` whose name matches `s` ignoring case. */
  function FindTournament(candidates: seq<Tournament>, s: string): (r: Option<Tournament>)
    ensures r.Some? ==> r.value in candidates && Lower(r.value.Name()) == Lower(s)
    ensures r.None? <==> forall k :: 0 <= k < |candidates| ==> Lower(candidates[k].Name()) != Lower(s)
  {
    if candidates == [] then None
    else if Lower(candidates[0].Name()) == Lower(s) then Some(candidates[0])
    else FindTournament(candidates[1..], s)
  }

  /** `TournamentEnum.from_str`: the member whose name equals `s` ignoring case, or `ValueError`. */
  function TournamentFromStr(s: string): (r: Result<Tournament>)
    ensures r.Success? ==> Lower(r.value.Name()) == Lower(s)
    ensures r.Failure? <==> forall t: Tournament :: Lower(t.Name()) != Lower(s)
    ensures r.Failure? ==> r.error == "ValueError: Invalid tournament name: " + s
  {
    match FindTournament(AllTournaments, s)
    case Some(t) => Success(t)
    case None =>
      forall t: Tournament
        ensures Lower(t.Name()) != Lower(s)
      {
        AllTournamentsListed(t);
        var k :| 0 <= k < |AllTournaments| && AllTournaments[k] == t;
      }
      Failure("ValueError: Invalid tournament name: " + s)
  }

  /** Lower-casing tells the member names apart. */
  lemma LowerNamesDistinct(t: Tournament, u: Tournament)
    requires t != u
    ensures Lower(t.Name()) != Lower(u.Name())
  {
    var a, b := Lower(t.Name()), Lower(u.Name());
    if |a| == |b| {
      assert a[0] != b[0] || a[1] != b[1];
    }
  }

  /** Each member is found again from its own name, in any case. */
  lemma TournamentNameRoundTrip(t: Tournament, s: string)
    requires Lower(s) == Lower(t.Name())
    ensures TournamentFromStr(s) == Success(t)
  {
    var r := TournamentFromStr(s);
    if r.Success? && r.value != t {
      LowerNamesDistinct(r.value, t);
    }
  }

  /** The lookup ignores case: names that lower-case alike find the same answer. */
  lemma TournamentLookupIgnoresCase(s: string, s': string)
    requires Lower(s) == Lower(s')
    ensures TournamentFromStr(s).Success? == TournamentFromStr(s').Success?
    ensures TournamentFromStr(s).Success? ==> TournamentFromStr(s).value == TournamentFromStr(s').value
  {
    if TournamentFromStr(s).Success? {
      TournamentNameRoundTrip(TournamentFromStr(s).value, s');
    }
  }

  // ---------------------------------------------------------------------------
  // Scores

  /** The en dash fbref.com writes between the two goal counts. */
  const EnDash: char := '\U{2013}'

  datatype Score = Score(home: int, away: int)

  /**
   * `Score.from_str`: split on the en dash into exactly two parts and read each
   * with `int()`; anything else raises `ValueError`.
   */
  function ScoreFromStr(s: string): (r: Result<Score>)
    ensures r.Success? ==> |SplitOn(s, EnDash)| == 2
    ensures |SplitOn(s, EnDash)| != 2 ==> r.Failure?
    ensures r.Success? ==>
      ParseInt(SplitOn(s, EnDash)[0]) == Some(r.value.home) && ParseInt(SplitOn(s, EnDash)[1]) == Some(r.value.away)
    ensures |SplitOn(s, EnDash)| == 2 ==>
      (r.Success? <==> ParseInt(SplitOn(s, EnDash)[0]).Some? && ParseInt(SplitOn(s, EnDash)[1]).Some?)
  {
    var parts := SplitOn(s, EnDash);
    if |parts| < 2 then Failure("ValueError: not enough values to unpack (expected 2, got 1)")
    else if |parts| > 2 then Failure("ValueError: too many values to unpack (expected 2)")
    else
      match (ParseInt(parts[0]), ParseInt(parts[1]))
      case (Some(home), Some(away)) => Success(Score(home, away))
      case (None, _) => Failure("ValueError: invalid literal for int() with base 10: '" + parts[0] + "'")
      case (_, None) => Failure("ValueError: invalid literal for int() with base 10: '" + parts[1] + "'")
  }

  /** The printed form of an integer holds no en dash. */
  lemma NoDashInNumber(i: int)
    ensures EnDash !in IntToString(i)
  {
    var digits := NatToString(if i < 0 then -i else i);
    assert forall k :: 0 <= k < |digits| ==> digits[k] != EnDash;
    if i < 0 {
      assert IntToString(i) == "-" + digits;
    }
  }

  /** A score written "home–away" is read back exactly. */
  lemma ScoreRoundTrip(home: int, away: int)
    ensures ScoreFromStr(IntToString(home) + [EnDash] + IntToString(away)) == Success(Score(home, away))
  {
    NoDashInNumber(home);
    NoDashInNumber(away);
    SplitOnTwo(IntToString(home), IntToString(away), EnDash);
    ParseIntToString(home);
    ParseIntToString(away);
  }

  /** A bare number (no en dash) and a three-part string are both rejected. */
  lemma ScoreNeedsTwoParts(n: int, a: string, b: string, c: string)
    requires EnDash !in a && EnDash !in b && EnDash !in c
    ensures ScoreFromStr(IntToString(n)).Failure?
    ensures ScoreFromStr(a + [EnDash] + b + [EnDash] + c).Failure?
  {
    NoDashInNumber(n);
    SplitOnAbsent(IntToString(n), EnDash);
    SplitOnThree(a, b, c);
  }

  lemma SplitOnThree(a: string, b: string, c: string)
    requires EnDash !in a && EnDash !in b && EnDash !in c
    ensures |SplitOn(a + [EnDash] + b + [EnDash] + c, EnDash)| == 3
  {
    var rest := b + [EnDash] + c;
    assert a + [EnDash] + b + [EnDash] + c == a + [EnDash] + rest;
    SplitOnTwo(b, c, EnDash);
    SplitOnPrefix(a, rest);
  }

  /** A leading part without the separator becomes the first part. */
  lemma {:induction false} SplitOnPrefix(a: string, rest: string)
    requires EnDash !in a
    ensures SplitOn(a + [EnDash] + rest, EnDash) == [a] + SplitOn(rest, EnDash)
    decreases |a|
  {
    var s := a + [EnDash] + rest;
    if a == [] {
      assert s[1..] == rest;
    } else {
      assert s[1..] == a[1..] + [EnDash] + rest;
      SplitOnPrefix(a[1..], rest);
      assert [a[0]] + a[1..] == a;
    }
  }

  // ---------------------------------------------------------------------------
  // Schedule rows

  /**
   * One row of the schedule table: the week, date and score cells may be
   * missing (NaN); the date is the "YYYY-MM-DD" text of the table.
   */
  datatype Row = Row(week: Option<int>, date: Option<string>, time: string, home: string, away: string, score: Option<string>)

  /** A match read from a row; the expected-goals columns are not part of this model. */
  datatype Match = Match(week: int, date: string, time: string, home: string, away: string, score: Option<Score>)

  /** `start <= row["Date"] <= end`, compared as strings; a missing date compares false. */
  predicate InWindow(row: Row, start: string, end: string)
  {
    row.date.Some? && LexLe(start, row.date.value) && LexLe(row.date.value, end)
  }

  /** The rows the data-frame mask keeps, in row order. */
  function FilterRows(rows: seq<Row>, start: string, end: string): (kept: seq<Row>)
    ensures |kept| <= |rows|
    ensures forall i :: 0 <= i < |kept| ==> InWindow(kept[i], start, end)
  {
    if rows == [] then []
    else
      var last := rows[|rows| - 1];
      FilterRows(rows[..|rows| - 1], start, end) + (if InWindow(last, start, end) then [last] else [])
  }

  /** The mask works row by row: it distributes over concatenation, so row order is kept. */
  lemma {:induction false} FilterRowsAppend(a: seq<Row>, b: seq<Row>, start: string, end: string)
    ensures FilterRows(a + b, start, end) == FilterRows(a, start, end) + FilterRows(b, start, end)
    decreases |b|
  {
    if b == [] {
      assert a + b == a;
    } else {
      var init := b[..|b| - 1];
      assert (a + b)[..|a + b| - 1] == a + init;
      assert (a + b)[|a + b| - 1] == b[|b| - 1];
      FilterRowsAppend(a, init, start, end);
    }
  }

  /** Exactly the rows in the window are kept, each as often as it occurs. */
  lemma {:induction false} FilterRowsCounts(rows: seq<Row>, start: string, end: string)
    ensures forall r :: multiset(FilterRows(rows, start, end))[r] == if InWindow(r, start, end) then multiset(rows)[r] else 0
  {
    if rows != [] {
      var init := rows[..|rows| - 1];
      assert rows == init + [rows[|rows| - 1]];
      FilterRowsCounts(init, start, end);
    }
  }

  /** The window is inclusive: a one-day window keeps exactly the rows of that day. */
  lemma OneDayWindow(row: Row, day: string)
    ensures InWindow(row, day, day) <==> row.date == Some(day)
  {
    if row.date.Some? {
      if InWindow(row, day, day) {
        LexLeAntisymmetric(day, row.date.value);
      } else if row.date.value == day {
        LexLeReflexive(day);
      }
    }
  }

  /** A wider window keeps every row a narrower one keeps. */
  lemma WiderWindow(row: Row, start: string, end: string, start': string, end': string)
    requires LexLe(start', start) && LexLe(end, end')
    requires InWindow(row, start, end)
    ensures InWindow(row, start', end')
  {
    LexLeTransitive(start', start, row.date.value);
    LexLeTransitive(row.date.value, end, end');
  }

  /** One kept row as a `Match`; a missing week fails like `int(nan)` does. */
  function RowToMatch(row: Row): (r: Result<Match>)
    ensures r.Success? <==> row.week.Some? && row.date.Some? && (row.score.Some? ==> ScoreFromStr(row.score.value).Success?)
    ensures r.Success? ==> (r.value.score.None? <==> row.score.None?)
    ensures r.Success? ==> r.value.date == row.date.value && r.value.home == row.home && r.value.away == row.away
    ensures r.Success? ==> r.value.week == row.week.value && r.value.time == row.time
    ensures r.Success? && row.score.Some? ==> r.value.score == Some(ScoreFromStr(row.score.value).value)
  {
    if row.week.None? then Failure("ValueError: cannot convert float NaN to integer")
    else if row.date.None? then Failure("TypeError: unsupported operand type(s) for +: 'float' and 'str'")
    else if row.score.None? then Success(Match(row.week.value, row.date.value, row.time, row.home, row.away, None))
    else
      var score :- ScoreFromStr(row.score.value);
      Success(Match(row.week.value, row.date.value, row.time, row.home, row.away, Some(score)))
  }

  /** The matches of the kept rows in order, or the failure of the first row that cannot be read. */
  function RowsToMatches(rows: seq<Row>): (r: Result<seq<Match>>)
    ensures r.Success? ==> |r.value| == |rows|
    ensures r.Success? ==> forall i :: 0 <= i < |rows| ==> RowToMatch(rows[i]) == Success(r.value[i])
  {
    if rows == [] then Success([])
    else
      var init :- RowsToMatches(rows[..|rows| - 1]);
      var last :- RowToMatch(rows[|rows| - 1]);
      Success(init + [last])
  }

  /** `parse_matches` as a value: mask the rows, then read each kept row. */
  function ParsedMatches(rows: seq<Row>, start: string, end: string): Result<seq<Match>>
  {
    RowsToMatches(FilterRows(rows, start, end))
  }

  /**
   * `parse_matches`: keep the rows inside the window, then build the list of
   * matches by appending one per kept row.
   */
  method ParseMatches(rows: seq<Row>, start: string, end: string) returns (r: Result<seq<Match>>)
    ensures r == ParsedMatches(rows, start, end)
  {
    var kept := FilterRows(rows, start, end);
    var matches: seq<Match> := [];
    var i := 0;
    while i < |kept|
      invariant 0 <= i <= |kept|
      invariant RowsToMatches(kept[..i]) == Success(matches)
    {
      RowsToMatchesStep(kept, i);
      var m := RowToMatch(kept[i]);
      if m.Failure? {
        RowsToMatchesFailsFrom(kept, i + 1);
        return Failure(m.error);
      }
      matches := matches + [m.value];
      i := i + 1;
    }
    assert kept[..i] == kept;
    r := Success(matches);
  }

  /** Reading one more row after a successful prefix: that row's reading decides. */
  lemma RowsToMatchesStep(rows: seq<Row>, i: nat)
    requires i < |rows|
    requires RowsToMatches(rows[..i]).Success?
    ensures RowToMatch(rows[i]).Failure? ==> RowsToMatches(rows[..i + 1]) == Failure(RowToMatch(rows[i]).error)
    ensures RowToMatch(rows[i]).Success? ==>
      RowsToMatches(rows[..i + 1]) == Success(RowsToMatches(rows[..i]).value + [RowToMatch(rows[i]).value])
  {
    assert rows[..i + 1][..i] == rows[..i];
    assert rows[..i + 1][i] == rows[i];
  }

  /** Once a prefix of the rows fails, reading all of them fails the same way. */
  lemma {:induction false} RowsToMatchesFailsFrom(rows: seq<Row>, n: nat)
    requires n <= |rows|
    requires RowsToMatches(rows[..n]).Failure?
    ensures RowsToMatches(rows) == RowsToMatches(rows[..n])
    decreases |rows| - n
  {
    if n < |rows| {
      assert rows[..n + 1][..n] == rows[..n];
      RowsToMatchesFailsFrom(rows, n + 1);
    } else {
      assert rows[..n] == rows;
    }
  }

  /**
   * Read successfully, the matches are the kept rows in order: every match's
   * date lies in the window, and it has a score exactly when its row had one.
   */
  lemma ParsedMatchesInWindow(rows: seq<Row>, start: string, end: string)
    ensures var r := ParsedMatches(rows, start, end);
      r.Success? ==>
        var kept := FilterRows(rows, start, end);
        |r.value| == |kept| &&
        forall i :: 0 <= i < |kept| ==>
          r.value[i].date == kept[i].date.value &&
          LexLe(start, r.value[i].date) && LexLe(r.value[i].date, end) &&
          (r.value[i].score.None? <==> kept[i].score.None?)
  {
  }

  // ---------------------------------------------------------------------------
  // Fetching a season

  /** A calendar date as `datetime` holds it. */
  datatype Date = Date(year: int, month: int, day: int)
  {
    predicate Valid()
    {
      1 <= year <= 9999 && 1 <= month <= 12 && 1 <= day <= 31
    }
  }

  /** A two-digit field of `strftime`, zero-padded: two digits that spell `n`. */
  function Pad2(n: nat): (s: string)
    requires n < 100
    ensures |s| == 2 && AllDigits(s)
    ensures DigitsValue(s) == n
  {
    if n < 10 then
      var s := "0" + NatToString(n);
      NatToStringValue(n);
      assert NatToString(n)[..0] == [];
      assert s[..1] == "0" && s[..1][..0] == [];
      assert DigitsValue(s[..1]) == 0;
      s
    else
      assert NatToString(n) == NatToString(n / 10) + [DigitChar(n % 10)];
      NatToStringValue(n);
      NatToString(n)
  }

  /**
   * `d.strftime("%Y-%m-%d")`; the year is printed as its digits, without
   * padding. The three dash-separated fields read back as year, month and day.
   */
  function Strf(d: Date): (s: string)
    requires d.Valid()
    ensures |s| >= 7 && s[|s| - 3] == '-' && s[|s| - 6] == '-'
    ensures AllDigits(s[..|s| - 6]) && DigitsValue(s[..|s| - 6]) == d.year
    ensures AllDigits(s[|s| - 5..|s| - 3]) && DigitsValue(s[|s| - 5..|s| - 3]) == d.month
    ensures AllDigits(s[|s| - 2..]) && DigitsValue(s[|s| - 2..]) == d.day
  {
    var y, m, dd := NatToString(d.year), Pad2(d.month), Pad2(d.day);
    var s := y + "-" + m + "-" + dd;
    DashedFields(y, m, dd);
    NatToStringValue(d.year);
    s
  }

  /** The three fields of `y-m-dd`, with two-character `m` and `dd`, are found again by position. */
  lemma DashedFields(y: string, m: string, dd: string)
    requires |m| == 2 && |dd| == 2
    ensures var s := y + "-" + m + "-" + dd;
      |s| == |y| + 6 && s[|s| - 3] == '-' && s[|s| - 6] == '-' &&
      s[..|s| - 6] == y && s[|s| - 5..|s| - 3] == m && s[|s| - 2..] == dd
  {
    var s := y + "-" + m + "-" + dd;
    assert s[..|s| - 6] == y;
    assert s[|s| - 5..|s| - 3] == m;
    assert s[|s| - 2..] == dd;
  }

  /** The schedule page of a tournament. */
  function ScheduleUrl(t: Tournament): string
  {
    "https://fbref.com/en/comps/" + IntToString(t.Id()) + "/schedule/"
  }

  /** The per-tournament loop of `get_matches`, as a value: each tournament's page read and parsed. */
  function SeasonMatches(tournaments: seq<Tournament>, start: string, end: string, readSchedule: string -> Result<seq<Row>>)
    : (r: Result<map<Tournament, seq<Match>>>)
    ensures r.Success? ==> r.value.Keys == set t | t in tournaments
    ensures r.Success? ==> forall t :: t in r.value ==>
      readSchedule(ScheduleUrl(t)).Success? && ParsedMatches(readSchedule(ScheduleUrl(t)).value, start, end) == Success(r.value[t])
  {
    if tournaments == [] then Success(map[])
    else
      var last := tournaments[|tournaments| - 1];
      var init :- SeasonMatches(tournaments[..|tournaments| - 1], start, end, readSchedule);
      var rows :- readSchedule(ScheduleUrl(last));
      var matches :- ParsedMatches(rows, start, end);
      assert forall t :: t in tournaments <==> t in tournaments[..|tournaments| - 1] || t == last;
      Success(init[last := matches])
  }

  /** What `get_matches` gives, with `now` as the current date. */
  function GetMatchesOutcome(
    tournaments: seq<Tournament>, startDate: Option<Date>, endDate: Option<Date>, now: Date,
    readSchedule: string -> Result<seq<Row>>): Result<map<Tournament, seq<Match>>>
    requires now.Valid()
    requires startDate.Some? ==> startDate.value.Valid()
    requires endDate.Some? ==> endDate.value.Valid()
  {
    var start := if startDate.Some? then startDate.value else now;
    var end := if endDate.Some? then endDate.value else now;
    if start.year < now.year then Failure("NotImplementedError")
    else if end.year == now.year then SeasonMatches(tournaments, Strf(start), Strf(end), readSchedule)
    else Success(map[])
  }

  /**
   * A window starting in an earlier year is refused; one ending in another
   * year than the current gives no tournament at all; without dates, today's
   * matches of every tournament asked for are read.
   */
  lemma GetMatchesYears(
    tournaments: seq<Tournament>, startDate: Option<Date>, endDate: Option<Date>, now: Date,
    readSchedule: string -> Result<seq<Row>>)
    requires now.Valid()
    requires startDate.Some? ==> startDate.value.Valid()
    requires endDate.Some? ==> endDate.value.Valid()
    ensures startDate.Some? && startDate.value.year < now.year ==>
      GetMatchesOutcome(tournaments, startDate, endDate, now, readSchedule) == Failure("NotImplementedError")
    ensures (startDate.None? || startDate.value.year >= now.year) && endDate.Some? && endDate.value.year != now.year ==>
      GetMatchesOutcome(tournaments, startDate, endDate, now, readSchedule) == Success(map[])
    ensures startDate.None? && endDate.None? ==>
      var r := GetMatchesOutcome(tournaments, startDate, endDate, now, readSchedule);
      r == SeasonMatches(tournaments, Strf(now), Strf(now), readSchedule) &&
      (r.Success? ==> r.value.Keys == set t | t in tournaments)
  {
  }

  /**
   * `get_matches`: default both ends of the window to `now`, refuse a start in
   * an earlier year, and when the window ends in the current year fill the
   * dictionary one tournament at a time.
   */
  method GetMatches(
    tournaments: seq<Tournament>, startDate: Option<Date>, endDate: Option<Date>, now: Date,
    readSchedule: string -> Result<seq<Row>>) returns (r: Result<map<Tournament, seq<Match>>>)
    requires now.Valid()
    requires startDate.Some? ==> startDate.value.Valid()
    requires endDate.Some? ==> endDate.value.Valid()
    ensures r == GetMatchesOutcome(tournaments, startDate, endDate, now, readSchedule)
  {
    var start := if startDate.Some? then startDate.value else now;
    var end := if endDate.Some? then endDate.value else now;
    var startStrf := Strf(start);
    var endStrf := Strf(end);
    if start.year < now.year {
      return Failure("NotImplementedError");
    }
    if end.year == now.year {
      r := ReadSeason(tournaments, startStrf, endStrf, readSchedule);
    } else {
      r := Success(map[]);
    }
  }

  /** The loop of `get_matches` that reads and parses each tournament's schedule into the dictionary. */
  method ReadSeason(tournaments: seq<Tournament>, start: string, end: string, readSchedule: string -> Result<seq<Row>>)
    returns (r: Result<map<Tournament, seq<Match>>>)
    ensures r == SeasonMatches(tournaments, start, end, readSchedule)
  {
    var matches: map<Tournament, seq<Match>> := map[];
    var i := 0;
    while i < |tournaments|
      invariant 0 <= i <= |tournaments|
      invariant SeasonMatches(tournaments[..i], start, end, readSchedule) == Success(matches)
    {
      var t := tournaments[i];
      SeasonMatchesStep(tournaments, start, end, readSchedule, i);
      var rows := readSchedule(ScheduleUrl(t));
      if rows.Failure? {
        SeasonMatchesFailsFrom(tournaments, start, end, readSchedule, i + 1);
        return Failure(rows.error);
      }
      var parsed := ParseMatches(rows.value, start, end);
      if parsed.Failure? {
        SeasonMatchesFailsFrom(tournaments, start, end, readSchedule, i + 1);
        return Failure(parsed.error);
      }
      matches := matches[t := parsed.value];
      i := i + 1;
    }
    assert tournaments[..i] == tournaments;
    r := Success(matches);
  }

  /** Reading one more tournament after a successful prefix: its page and its parse decide. */
  lemma SeasonMatchesStep(
    tournaments: seq<Tournament>, start: string, end: string, readSchedule: string -> Result<seq<Row>>, i: nat)
    requires i < |tournaments|
    requires SeasonMatches(tournaments[..i], start, end, readSchedule).Success?
    ensures var rows := readSchedule(ScheduleUrl(tournaments[i]));
      var next := SeasonMatches(tournaments[..i + 1], start, end, readSchedule);
      && (rows.Failure? ==> next == Failure(rows.error))
      && (rows.Success? && ParsedMatches(rows.value, start, end).Failure? ==>
            next == Failure(ParsedMatches(rows.value, start, end).error))
      && (rows.Success? && ParsedMatches(rows.value, start, end).Success? ==>
            next == Success(SeasonMatches(tournaments[..i], start, end, readSchedule).value[tournaments[i] :=
              ParsedMatches(rows.value, start, end).value]))
  {
    assert tournaments[..i + 1][..i] == tournaments[..i];
    assert tournaments[..i + 1][i] == tournaments[i];
  }

  /** Once reading a prefix of the tournaments fails, the whole loop fails the same way. */
  lemma {:induction false} SeasonMatchesFailsFrom(
    tournaments: seq<Tournament>, start: string, end: string, readSchedule: string -> Result<seq<Row>>, n: nat)
    requires n <= |tournaments|
    requires SeasonMatches(tournaments[..n], start, end, readSchedule).Failure?
    ensures SeasonMatches(tournaments, start, end, readSchedule) == SeasonMatches(tournaments[..n], start, end, readSchedule)
    decreases |tournaments| - n
  {
    if n < |tournaments| {
      assert tournaments[..n + 1][..n] == tournaments[..n];
      SeasonMatchesFailsFrom(tournaments, start, end, readSchedule, n + 1);
    } else {
      assert tournaments[..n] == tournaments;
    }
  }
}
