/**
 * The schedule page renderer: one table row per game record, one section per sport,
 * and the page that strings the sections together.
 */
module HtmlGenerator {
  import opened Wrappers
  import opened Strings

  /** One CSV record, from column name to cell text. */
  type Game = map<string, string>

  /** The CSV files of the output directory, by file name, as the records they hold. */
  type CsvFiles = map<string, seq<Game>>

  /** One entry of the sports configuration. */
  datatype Sport = Sport(name: string, filename: string)

  /** game.get(key, "") */
  function Field(game: Game, key: string): (r: string)
    ensures key in game ==> r == game[key]
    ensures key !in game ==> r == ""
  {
    if key in game then game[key] else ""
  }

  /** read_csv: the records of the named file; a file that does not exist has none. */
  function ReadCsv(files: CsvFiles, filename: string): (rows: seq<Game>)
    ensures filename !in files ==> rows == []
    ensures filename in files ==> rows == files[filename]
  {
    if filename in files then files[filename] else []
  }

  // ---------------------------------------------------------------- classification

  /** The background class: completed games have a result, upcoming ones do not. */
  function RowClass(game: Game): (r: string)
    ensures r == "game-completed" <==> Strip(Field(game, "Result")) != ""
    ensures r == "game-upcoming" <==> Strip(Field(game, "Result")) == ""
  {
    if Strip(Field(game, "Result")) != "" then "game-completed" else "game-upcoming"
  }

  predicate IsHomeLocation(location: string) {
    Lower(location) == "home" || Lower(location) == "lincoln ne"
  }

  predicate IsNeutralLocation(location: string) {
    Contains(Lower(location), "neutral") || Contains(Lower(location), "kansas city")
    || Contains(Lower(location), "sioux falls")
  }

  datatype Venue = Home | Neutral | Away

  /** The venue of a stripped Location: home is tested first, then neutral; anything else is away. */
  function VenueOf(location: string): Venue {
    if IsHomeLocation(location) then Home
    else if IsNeutralLocation(location) then Neutral
    else Away
  }

  /** Exactly one venue is chosen, by the home test first and the neutral test second. */
  lemma VenueOfCases(location: string)
    ensures VenueOf(location) == Home <==> IsHomeLocation(location)
    ensures VenueOf(location) == Neutral <==> !IsHomeLocation(location) && IsNeutralLocation(location)
    ensures VenueOf(location) == Away <==> !IsHomeLocation(location) && !IsNeutralLocation(location)
  {
  }

  function VenueClass(v: Venue): string {
    match v
    case Home => "home-game"
    case Neutral => "neutral-game"
    case Away => "away-game"
  }

  /** Each venue has its own class name, so the class names the venue. */
  lemma VenueClassInjective(v: Venue, w: Venue)
    requires VenueClass(v) == VenueClass(w)
    ensures v == w
  {
  }

  /** The border class of a game's row. */
  function LocationClass(game: Game): string {
    VenueClass(VenueOf(Strip(Field(game, "Location"))))
  }

  /** The border class is home-game, neutral-game or away-game exactly by the source's ordered tests. */
  lemma LocationClassCases(game: Game)
    ensures var location := Strip(Field(game, "Location"));
      (LocationClass(game) == "home-game" <==> IsHomeLocation(location))
      && (LocationClass(game) == "neutral-game" <==> !IsHomeLocation(location) && IsNeutralLocation(location))
      && (LocationClass(game) == "away-game" <==> !IsHomeLocation(location) && !IsNeutralLocation(location))
  {
    var location := Strip(Field(game, "Location"));
    VenueOfCases(location);
    if LocationClass(game) == "home-game" { VenueClassInjective(VenueOf(location), Home); }
    if LocationClass(game) == "neutral-game" { VenueClassInjective(VenueOf(location), Neutral); }
    if LocationClass(game) == "away-game" { VenueClassInjective(VenueOf(location), Away); }
  }

  function Span(cssClass: string, text: string): string {
    "<span class=\"" + cssClass + "\">" + text + "</span>"
  }

  const UpcomingMark := "<span class=\"result-upcoming\">\U{2014}</span>"

  /** The Result cell for a stripped result: a win or loss span, the text itself, or the upcoming mark. */
  function ResultCell(result: string): (r: string)
    ensures result == "" ==> r == UpcomingMark
    ensures result != "" && result[0] == 'W' ==> r == Span("result-win", result)
    ensures result != "" && result[0] == 'L' ==> r == Span("result-loss", result)
    ensures result != "" && result[0] != 'W' && result[0] != 'L' ==> r == result
  {
    if result == "" then UpcomingMark
    else if StartsWith(result, "W") then Span("result-win", result)
    else if StartsWith(result, "L") then Span("result-loss", result)
    else result
  }

  /** The Event and Watch cells: a badge around a non-empty stripped value, otherwise nothing. */
  function BadgeCell(cssClass: string, value: string): (r: string)
    ensures value == "" ==> r == ""
    ensures value != "" ==> r == Span(cssClass, value)
  {
    if value == "" then "" else Span(cssClass, value)
  }

  // ---------------------------------------------------------------- one row

  const RowIndent := "                        "
  const CellIndent := "                            "
  const OpenPrefix := RowIndent + "<tr class=\""
  const OpenSuffix := "\">"
  const CellPrefix := CellIndent + "<td>"
  const CellSuffix := "</td>"
  const CloseLine := RowIndent + "</tr>"

  function OpenLine(rowClass: string, locationClass: string): string {
    OpenPrefix + rowClass + " " + locationClass + OpenSuffix
  }

  function CellLine(content: string): string {
    CellPrefix + content + CellSuffix
  }

  function CellLines(cells: seq<string>): (ls: seq<string>)
    ensures |ls| == |cells| && forall k :: 0 <= k < |cells| ==> ls[k] == CellLine(cells[k])
  {
    seq(|cells|, k requires 0 <= k < |cells| => CellLine(cells[k]))
  }

  /** The nine cell contents of a game's row, in column order. */
  function Cells(game: Game): seq<string>
  {
    [Field(game, "Date"), Field(game, "Day"), Field(game, "Opponent"), Strip(Field(game, "Location")),
     Field(game, "Venue"), Field(game, "Time"), BadgeCell("event-badge", Strip(Field(game, "Event"))),
     BadgeCell("watch-channel", Strip(Field(game, "Watch"))), ResultCell(Strip(Field(game, "Result")))]
  }

  function RowLines(game: Game): seq<string> {
    [OpenLine(RowClass(game), LocationClass(game))] + CellLines(Cells(game)) + [CloseLine]
  }

  /** The text format_game_row produces for a game: its eleven lines, each ended by a newline. */
  function GameRow(game: Game): string {
    OpenLine(RowClass(game), LocationClass(game)) + "\n"
    + CellLine(Field(game, "Date")) + "\n" + CellLine(Field(game, "Day")) + "\n"
    + CellLine(Field(game, "Opponent")) + "\n" + CellLine(Strip(Field(game, "Location"))) + "\n"
    + CellLine(Field(game, "Venue")) + "\n" + CellLine(Field(game, "Time")) + "\n"
    + CellLine(BadgeCell("event-badge", Strip(Field(game, "Event")))) + "\n"
    + CellLine(BadgeCell("watch-channel", Strip(Field(game, "Watch")))) + "\n"
    + CellLine(ResultCell(Strip(Field(game, "Result")))) + "\n"
    + CloseLine + "\n"
  }

  /** format_game_row, building the row by the same appends as the generator. */
  method FormatGameRow(game: Game) returns (html: string)
    ensures html == GameRow(game)
  {
    var result := Strip(Field(game, "Result"));
    var rowClass := if result != "" then "game-completed" else "game-upcoming";

    var location := Strip(Field(game, "Location"));
    var locationClass;
    if Lower(location) == "home" || Lower(location) == "lincoln ne" {
      locationClass := "home-game";
    } else if Contains(Lower(location), "neutral")
      || Contains(Lower(location), "kansas city") || Contains(Lower(location), "sioux falls") {
      locationClass := "neutral-game";
    } else {
      locationClass := "away-game";
    }
    assert rowClass == RowClass(game);
    assert locationClass == LocationClass(game);

    html := OpenLine(rowClass, locationClass) + "\n";
    html := html + CellLine(Field(game, "Date")) + "\n";
    html := html + CellLine(Field(game, "Day")) + "\n";
    html := html + CellLine(Field(game, "Opponent")) + "\n";
    html := html + CellLine(location) + "\n";
    html := html + CellLine(Field(game, "Venue")) + "\n";
    html := html + CellLine(Field(game, "Time")) + "\n";

    // Event: a badge only when the stripped value is non-empty
    var event := Strip(Field(game, "Event"));
    if event != "" {
      html := html + CellLine(Span("event-badge", event)) + "\n";
    } else {
      html := html + CellLine("") + "\n";
    }

    // Watch: likewise
    var watch := Strip(Field(game, "Watch"));
    if watch != "" {
      html := html + CellLine(Span("watch-channel", watch)) + "\n";
    } else {
      html := html + CellLine("") + "\n";
    }

    // Result: win span, loss span, the text itself, or the upcoming mark
    var resultHtml := "";
    if result != "" {
      if StartsWith(result, "W") {
        resultHtml := Span("result-win", result);
      } else if StartsWith(result, "L") {
        resultHtml := Span("result-loss", result);
      } else {
        resultHtml := result;
      }
    } else {
      resultHtml := UpcomingMark;
    }

    html := html + CellLine(resultHtml) + "\n";
    html := html + CloseLine + "\n";
  }

  /** The row text is the row's lines, each ended by a newline. */
  lemma GameRowLines(game: Game)
    ensures GameRow(game) == JoinLines(RowLines(game))
  {
    var cs := Cells(game);
    RowOfCells(OpenLine(RowClass(game), LocationClass(game)), cs, CloseLine);
  }

  lemma RowOfCells(open: string, cs: seq<string>, close: string)
    requires |cs| == 9
    ensures JoinLines([open] + CellLines(cs) + [close]) ==
      open + "\n" + CellLine(cs[0]) + "\n" + CellLine(cs[1]) + "\n" + CellLine(cs[2]) + "\n"
      + CellLine(cs[3]) + "\n" + CellLine(cs[4]) + "\n" + CellLine(cs[5]) + "\n"
      + CellLine(cs[6]) + "\n" + CellLine(cs[7]) + "\n" + CellLine(cs[8]) + "\n" + close + "\n"
  {
    var ls := [open] + CellLines(cs) + [close];
    assert ls[0] == open;
    assert forall k | 1 <= k <= 9 :: ls[k] == CellLine(cs[k - 1]);
    assert ls[10] == close;
    JoinEleven(ls);
  }

  lemma JoinEleven(ls: seq<string>)
    requires |ls| == 11
    ensures JoinLines(ls) == ls[0] + "\n" + ls[1] + "\n" + ls[2] + "\n" + ls[3] + "\n" + ls[4] + "\n"
      + ls[5] + "\n" + ls[6] + "\n" + ls[7] + "\n" + ls[8] + "\n" + ls[9] + "\n" + ls[10] + "\n"
  {
    assert ls[..1] == [ls[0]];
    assert JoinLines([ls[0]]) == ls[0] + "\n" + JoinLines([]);
    assert ls[0] + "\n" + "" == ls[0] + "\n";
    JoinPrefix(ls, 2);
    JoinPrefix(ls, 3);
    JoinPrefix(ls, 4);
    JoinPrefix(ls, 5);
    JoinPrefix(ls, 6);
    JoinPrefix(ls, 7);
    JoinPrefix(ls, 8);
    JoinPrefix(ls, 9);
    JoinPrefix(ls, 10);
    JoinPrefix(ls, 11);
    assert ls[..11] == ls;
  }

  lemma JoinPrefix(ls: seq<string>, k: nat)
    requires 0 < k <= |ls|
    ensures JoinLines(ls[..k]) == JoinLines(ls[..k - 1]) + ls[k - 1] + "\n"
  {
    assert ls[..k] == ls[..k - 1] + [ls[k - 1]];
    JoinLinesSnoc(ls[..k - 1], ls[k - 1]);
  }

  // ---------------------------------------------------------------- reading a row back

  /** The nine values a row renders, in column order: five fields as they stand and four stripped. */
  function RenderedValues(game: Game): seq<string> {
    [Field(game, "Date"), Field(game, "Day"), Field(game, "Opponent"), Strip(Field(game, "Location")),
     Field(game, "Venue"), Field(game, "Time"), Strip(Field(game, "Event")), Strip(Field(game, "Watch")),
     Strip(Field(game, "Result"))]
  }

  /**
   * No value the row renders holds a line break. Columns the row does not render, and line
   * breaks that stripping removes, are unconstrained.
   */
  ghost predicate SingleLine(game: Game) {
    forall k | 0 <= k < |RenderedValues(game)| :: '\n' !in RenderedValues(game)[k]
  }

  /** The row's lines are free of line breaks exactly when the values it renders are. */
  lemma CellsSingleLine(game: Game)
    ensures NoNewlines(RowLines(game)) <==> SingleLine(game)
  {
    if SingleLine(game) {
      CellsOfSingleLine(game);
      OpenLineSingle(RowClass(game), LocationClass(game));
      FrameTextSingleLine();
      LinesSingleLine(OpenLine(RowClass(game), LocationClass(game)), Cells(game), CloseLine);
    } else {
      MultiLineCell(game);
    }
  }

  lemma CellsOfSingleLine(game: Game)
    requires SingleLine(game)
    ensures forall k | 0 <= k < |Cells(game)| :: '\n' !in Cells(game)[k]
  {
    var vs := RenderedValues(game);
    assert '\n' !in vs[6] && '\n' !in vs[7] && '\n' !in vs[8];
    ClassTextSingleLine();
    BadgeSingleLine("event-badge", vs[6]);
    BadgeSingleLine("watch-channel", vs[7]);
    ResultSingleLine(vs[8]);
    forall k | 0 <= k < |Cells(game)|
      ensures '\n' !in Cells(game)[k]
    {
      assert '\n' !in vs[k];
    }
  }

  /** A line break in a rendered value shows up in that value's cell line. */
  lemma MultiLineCell(game: Game)
    requires !SingleLine(game)
    ensures !NoNewlines(RowLines(game))
  {
    var vs := RenderedValues(game);
    var k :| 0 <= k < |vs| && '\n' in vs[k];
    ValueInCell(game, k);
    LineOfCell(OpenLine(RowClass(game), LocationClass(game)), Cells(game), CloseLine, k);
  }

  lemma ValueInCell(game: Game, k: nat)
    requires k < 9 && '\n' in RenderedValues(game)[k]
    ensures '\n' in Cells(game)[k]
  {
    if k == 6 {
      BadgeKeeps("event-badge", Strip(Field(game, "Event")), '\n');
    } else if k == 7 {
      BadgeKeeps("watch-channel", Strip(Field(game, "Watch")), '\n');
    } else if k == 8 {
      ResultKeeps(Strip(Field(game, "Result")), '\n');
    }
  }

  lemma LineOfCell(open: string, cs: seq<string>, close: string, k: nat)
    requires k < |cs| && '\n' in cs[k]
    ensures !NoNewlines([open] + CellLines(cs) + [close])
  {
    assert ([open] + CellLines(cs) + [close])[k + 1] == CellLine(cs[k]);
  }

  lemma BadgeKeeps(cssClass: string, value: string, c: char)
    requires c in value
    ensures c in BadgeCell(cssClass, value)
  {
  }

  lemma ResultKeeps(result: string, c: char)
    requires c in result
    ensures c in ResultCell(result)
  {
  }

  lemma FrameTextSingleLine()
    ensures '\n' !in RowIndent && '\n' !in CellIndent && '\n' !in OpenPrefix && '\n' !in OpenSuffix
    ensures '\n' !in CellPrefix && '\n' !in CellSuffix && '\n' !in CloseLine
  {
  }

  lemma ClassTextSingleLine()
    ensures '\n' !in "event-badge" && '\n' !in "watch-channel" && '\n' !in "result-win" && '\n' !in "result-loss"
    ensures '\n' !in UpcomingMark && '\n' !in "<span class=\"" && '\n' !in "\">" && '\n' !in "</span>"
  {
  }

  lemma SpanSingleLine(cssClass: string, text: string)
    requires '\n' !in cssClass && '\n' !in text
    ensures '\n' !in Span(cssClass, text)
  {
    ClassTextSingleLine();
  }

  lemma BadgeSingleLine(cssClass: string, value: string)
    requires '\n' !in cssClass && '\n' !in value
    ensures '\n' !in BadgeCell(cssClass, value)
  {
    SpanSingleLine(cssClass, value);
  }

  lemma ResultSingleLine(result: string)
    requires '\n' !in result
    ensures '\n' !in ResultCell(result)
  {
    ClassTextSingleLine();
    SpanSingleLine("result-win", result);
    SpanSingleLine("result-loss", result);
  }

  lemma OpenLineSingle(rowClass: string, locationClass: string)
    requires '\n' !in rowClass && '\n' !in locationClass
    ensures '\n' !in OpenLine(rowClass, locationClass)
  {
    FrameTextSingleLine();
  }

  lemma LinesSingleLine(open: string, cs: seq<string>, close: string)
    requires '\n' !in open && '\n' !in close && forall k | 0 <= k < |cs| :: '\n' !in cs[k]
    ensures NoNewlines([open] + CellLines(cs) + [close])
  {
    FrameTextSingleLine();
  }

  /** Split into lines, a row is its opening line, its nine cell lines and its closing line. */
  lemma GameRowSplits(game: Game)
    requires SingleLine(game)
    ensures Lines(GameRow(game)) == RowLines(game) + [""]
    ensures |RowLines(game)| == 11
  {
    GameRowLines(game);
    CellsSingleLine(game);
    LinesOfJoin(RowLines(game));
  }

  /** What a reader of the table sees in one row: its two classes and its cells, in column order. */
  datatype RowView = RowView(rowClass: string, locationClass: string, cells: seq<string>)

  /** The two class names of an opening <tr> line. */
  function ParseOpenLine(line: string): (r: Option<(string, string)>)
    ensures r.Some? ==> line == OpenLine(r.value.0, r.value.1) && ' ' !in r.value.0
  {
    match DropPrefix(OpenPrefix, line)
    case None => None
    case Some(tail) =>
      match DropSuffix(OpenSuffix, tail)
      case None => None
      case Some(classes) =>
        match SplitAtFirst(' ', classes)
        case None => None
        case Some((rowClass, locationClass)) =>
          assert line == OpenPrefix + (rowClass + " " + locationClass) + OpenSuffix;
          Some((rowClass, locationClass))
  }

  /** The content of a <td> line. */
  function ParseCellLine(line: string): (r: Option<string>)
    ensures r.Some? ==> line == CellLine(r.value)
  {
    match DropPrefix(CellPrefix, line)
    case None => None
    case Some(tail) =>
      match DropSuffix(CellSuffix, tail)
      case None => None
      case Some(content) => Some(content)
  }

  function ParseCellLines(lines: seq<string>): (r: Option<seq<string>>)
    ensures r.Some? ==> lines == CellLines(r.value)
  {
    if lines == [] then Some([])
    else match ParseCellLine(lines[0])
      case None => None
      case Some(cell) =>
        match ParseCellLines(lines[1..])
        case None => None
        case Some(cells) =>
          assert lines == [lines[0]] + lines[1..];
          Some([cell] + cells)
  }

  /** Reads a row's text back: an opening line, nine cell lines, the closing line, and nothing after. */
  function ParseRow(html: string): (r: Option<RowView>)
    ensures r.Some? ==> (|r.value.cells| == 9
      && html == JoinLines([OpenLine(r.value.rowClass, r.value.locationClass)] + CellLines(r.value.cells) + [CloseLine]))
  {
    var ls := Lines(html);
    if |ls| != 12 || ls[11] != "" || ls[10] != CloseLine then None
    else
      match ParseOpenLine(ls[0])
      case None => None
      case Some((rowClass, locationClass)) =>
        match ParseCellLines(ls[1..10])
        case None => None
        case Some(cells) =>
          RowFromLines(html, ls[0], CellLines(cells), CloseLine);
          Some(RowView(rowClass, locationClass, cells))
  }

  /** A text whose lines are open, nine middle lines and close, each ended by a newline. */
  lemma RowFromLines(html: string, open: string, middle: seq<string>, close: string)
    requires |Lines(html)| == 12 && Lines(html)[11] == ""
    requires Lines(html)[0] == open && Lines(html)[1..10] == middle && Lines(html)[10] == close
    ensures html == JoinLines([open] + middle + [close])
  {
    var ls := Lines(html);
    LinesJoined(html);
    assert ls[..11] == [ls[0]] + ls[1..10] + [ls[10]];
  }

  lemma OpenLineRoundTrip(rowClass: string, locationClass: string)
    requires ' ' !in rowClass
    ensures ParseOpenLine(OpenLine(rowClass, locationClass)) == Some((rowClass, locationClass))
  {
    var classes := rowClass + " " + locationClass;
    assert OpenLine(rowClass, locationClass) == OpenPrefix + (classes + OpenSuffix);
    DropPrefixOf(OpenPrefix, classes + OpenSuffix);
    DropSuffixOf(OpenSuffix, classes);
    SplitAtFirstOf(' ', rowClass, locationClass);
  }

  lemma CellLineRoundTrip(content: string)
    ensures ParseCellLine(CellLine(content)) == Some(content)
  {
    assert CellLine(content) == CellPrefix + (content + CellSuffix);
    DropPrefixOf(CellPrefix, content + CellSuffix);
    DropSuffixOf(CellSuffix, content);
  }

  lemma {:induction false} CellLinesRoundTrip(cells: seq<string>)
    ensures ParseCellLines(CellLines(cells)) == Some(cells)
  {
    if cells != [] {
      CellLineRoundTrip(cells[0]);
      assert CellLines(cells)[1..] == CellLines(cells[1..]);
      CellLinesRoundTrip(cells[1..]);
      assert [cells[0]] + cells[1..] == cells;
    }
  }

  lemma RowClassNoSpace(game: Game)
    ensures ' ' !in RowClass(game)
  {
  }

  /** A row whose rendered values are single-line reads back as its two classes and its nine cells. */
  lemma RowRoundTrip(game: Game)
    requires SingleLine(game)
    ensures ParseRow(GameRow(game)) == Some(RowView(RowClass(game), LocationClass(game), Cells(game)))
  {
    GameRowLines(game);
    CellsSingleLine(game);
    RowClassNoSpace(game);
    JoinedRowRoundTrip(RowClass(game), LocationClass(game), Cells(game));
  }

  lemma JoinedRowRoundTrip(rowClass: string, locationClass: string, cells: seq<string>)
    requires ' ' !in rowClass && |cells| == 9
    requires NoNewlines([OpenLine(rowClass, locationClass)] + CellLines(cells) + [CloseLine])
    ensures ParseRow(JoinLines([OpenLine(rowClass, locationClass)] + CellLines(cells) + [CloseLine]))
      == Some(RowView(rowClass, locationClass, cells))
  {
    var rl := [OpenLine(rowClass, locationClass)] + CellLines(cells) + [CloseLine];
    LinesOfJoin(rl);
    var ls := Lines(JoinLines(rl));
    assert ls == rl + [""];
    assert ls[0] == OpenLine(rowClass, locationClass);
    assert ls[1..10] == CellLines(cells);
    assert ls[10] == CloseLine && ls[11] == "";
    OpenLineRoundTrip(rowClass, locationClass);
    CellLinesRoundTrip(cells);
  }

  // ---------------------------------------------------------------- one sport

  /** SPORT_EMOJIS.get(name, ""): the emoji shown beside a sport's heading. */
  function Emoji(sportName: string): (r: string)
    ensures sportName == "Football" ==> r == "\U{1F3C8}"
    ensures sportName == "Volleyball" ==> r == "\U{1F3D0}"
    ensures sportName == "Men's Basketball" || sportName == "Women's Basketball" ==> r == "\U{1F3C0}"
    ensures sportName == "Softball" ==> r == "\U{1F94E}"
    ensures sportName == "Baseball" ==> r == "\U{26BE}"
    ensures sportName !in {"Football", "Volleyball", "Men's Basketball", "Women's Basketball", "Softball", "Baseball"}
      ==> r == ""
  {
    if sportName == "Football" then "\U{1F3C8}"
    else if sportName == "Volleyball" then "\U{1F3D0}"
    else if sportName == "Men's Basketball" || sportName == "Women's Basketball" then "\U{1F3C0}"
    else if sportName == "Softball" then "\U{1F94E}"
    else if sportName == "Baseball" then "\U{26BE}"
    else ""
  }

  /** The comment, the section opening and the sport heading every section starts with. */
  function SectionHeadLines(sportName: string): seq<string> {
    ["        <!-- " + Upper(sportName) + " -->",
     "        <section class=\"sport-section\">",
     "            <div class=\"sport-header\">",
     "                <h2>" + Emoji(sportName) + " " + sportName + "</h2>",
     "            </div>"]
  }

  const NotAvailableText := "Schedule not yet available"
  const NotAvailableLine := "                <p><strong>" + NotAvailableText + "</strong></p>"

  /** The note shown in place of a table. */
  const NoteLines: seq<string> :=
    ["            <div class=\"note-section\">",
     NotAvailableLine,
     "                <p>Check back later for updates</p>",
     "            </div>"]

  /** The section closing, followed by a blank line. */
  const SectionCloseLines: seq<string> := ["        </section>", ""]

  const TableOpenLine := "                <table>"

  /** The table opening and its header row of nine column names. */
  const TableHeadLines: seq<string> :=
    ["            <div class=\"table-container\">",
     TableOpenLine,
     "                    <thead>",
     "                        <tr>",
     "                            <th>Date</th>",
     "                            <th>Day</th>",
     "                            <th>Opponent</th>",
     "                            <th>Location</th>",
     "                            <th>Venue</th>",
     "                            <th>Time</th>",
     "                            <th>Event</th>",
     "                            <th>Watch</th>",
     "                            <th>Result</th>",
     "                        </tr>",
     "                    </thead>",
     "                    <tbody>"]

  /** The table closing. */
  const TableFootLines: seq<string> :=
    ["                    </tbody>",
     "                </table>",
     "            </div>"]

  /** The section of a sport that has no games yet. */
  function PlaceholderSection(sportName: string): string {
    JoinLines(SectionHeadLines(sportName) + NoteLines + SectionCloseLines)
  }

  /** format_game_row of each game, in input order. */
  function RowTexts(games: seq<Game>): seq<string> {
    seq(|games|, k requires 0 <= k < |games| => GameRow(games[k]))
  }

  function TableHead(sportName: string): string {
    JoinLines(SectionHeadLines(sportName) + TableHeadLines)
  }

  const TableFoot := JoinLines(TableFootLines + SectionCloseLines)

  /** The section of a sport with games: the fixed header, one row per game, the fixed footer. */
  function TableSection(sportName: string, games: seq<Game>): string {
    AppendAll(TableHead(sportName), RowTexts(games)) + TableFoot
  }

  /** The section generate_sport_section produces for the games read from the sport's file. */
  function SportSection(sportName: string, games: seq<Game>): (r: string)
    ensures games == [] ==> r == PlaceholderSection(sportName)
    ensures games != [] ==> r == TableSection(sportName, games)
  {
    if games == [] then PlaceholderSection(sportName) else TableSection(sportName, games)
  }

  /** generate_sport_section, with the output directory's CSV files given as a value. */
  method GenerateSportSection(files: CsvFiles, sportName: string, filename: string) returns (html: string)
    ensures html == SportSection(sportName, ReadCsv(files, filename))
  {
    var games := ReadCsv(files, filename);
    if games == [] {
      return PlaceholderSection(sportName);
    }
    html := AddRows(TableHead(sportName), games);
    html := html + TableFoot;
  }

  /** The loop of generate_sport_section: html += format_game_row(game) for each game in turn. */
  method AddRows(head: string, games: seq<Game>) returns (html: string)
    ensures html == AppendAll(head, RowTexts(games))
  {
    html := head;
    for i := 0 to |games|
      invariant html == AppendAll(head, RowTexts(games)[..i])
    {
      var row := FormatGameRow(games[i]);
      assert row == RowTexts(games)[i];
      AppendAllStep(head, RowTexts(games), i);
      html := html + row;
    }
    TakeAll(RowTexts(games));
  }

  lemma HeadSingleLine(sportName: string)
    requires '\n' !in sportName
    ensures NoNewlines(SectionHeadLines(sportName))
  {
    CommentSingleLine(sportName);
    HeadingSingleLine(sportName);
    var ls := SectionHeadLines(sportName);
    assert '\n' !in ls[1] && '\n' !in ls[2] && '\n' !in ls[4];
  }

  lemma CommentSingleLine(sportName: string)
    requires '\n' !in sportName
    ensures '\n' !in SectionHeadLines(sportName)[0]
  {
    UpperKeeps(sportName, '\n');
  }

  lemma HeadingSingleLine(sportName: string)
    requires '\n' !in sportName
    ensures '\n' !in SectionHeadLines(sportName)[3]
  {
    EmojiSingleLine(sportName);
  }

  lemma EmojiSingleLine(sportName: string)
    ensures '\n' !in Emoji(sportName)
  {
  }

  /** A sport without games gets exactly the heading, the note and the section closing, line by line. */
  lemma PlaceholderLines(sportName: string)
    requires '\n' !in sportName
    ensures Lines(PlaceholderSection(sportName)) == SectionHeadLines(sportName) + NoteLines + SectionCloseLines + [""]
  {
    HeadSingleLine(sportName);
    var ls := SectionHeadLines(sportName) + NoteLines + SectionCloseLines;
    FixedSectionSingleLine();
    NoNewlinesAppend(SectionHeadLines(sportName), NoteLines);
    NoNewlinesAppend(SectionHeadLines(sportName) + NoteLines, SectionCloseLines);
    LinesOfJoin(ls);
  }

  /** The placeholder says the schedule is not yet available and has no table. */
  lemma PlaceholderHasNoTable(sportName: string)
    requires '\n' !in sportName
    ensures NotAvailableLine in Lines(PlaceholderSection(sportName))
    ensures TableOpenLine !in Lines(PlaceholderSection(sportName))
  {
    PlaceholderLines(sportName);
    var head, tail := SectionHeadLines(sportName), NoteLines + SectionCloseLines + [""];
    assert SectionHeadLines(sportName) + NoteLines + SectionCloseLines + [""] == head + tail;
    assert tail[1] == NotAvailableLine;
    HeadHasNoTable(sportName);
    NoteHasNoTable();
  }

  lemma HeadHasNoTable(sportName: string)
    ensures TableOpenLine !in SectionHeadLines(sportName)
  {
    var ls := SectionHeadLines(sportName);
    assert ls[0][8] != TableOpenLine[8];
  }

  lemma NoteHasNoTable()
    ensures TableOpenLine !in NoteLines + SectionCloseLines + [""]
  {
  }

  /** Whatever the sport's name, its placeholder says the schedule is not yet available. */
  lemma PlaceholderSaysNotAvailable(sportName: string)
    ensures Contains(PlaceholderSection(sportName), NotAvailableText)
  {
    var before := SectionHeadLines(sportName) + [NoteLines[0]];
    var after := NoteLines[2..] + SectionCloseLines;
    assert SectionHeadLines(sportName) + NoteLines + SectionCloseLines == before + ([NotAvailableLine] + after);
    JoinAroundLine(before, NotAvailableLine, after);
    ContainsMiddle("                <p><strong>", NotAvailableText, "</strong></p>");
    ContainsWithin(JoinLines(before), NotAvailableLine, "\n" + JoinLines(after), NotAvailableText);
  }

  lemma JoinAroundLine(before: seq<string>, line: string, after: seq<string>)
    ensures JoinLines(before + ([line] + after)) == JoinLines(before) + line + ("\n" + JoinLines(after))
  {
    JoinLinesAppend(before, [line] + after);
    assert ([line] + after)[1..] == after;
  }

  lemma FixedSectionSingleLine()
    ensures NoNewlines(NoteLines) && NoNewlines(SectionCloseLines)
  {
    NoteSingleLine();
    assert '\n' !in SectionCloseLines[0] && '\n' !in SectionCloseLines[1];
  }

  lemma NoteSingleLine()
    ensures NoNewlines(NoteLines)
  {
    NotAvailableSingleLine();
    assert '\n' !in NoteLines[0] && '\n' !in NoteLines[2] && '\n' !in NoteLines[3];
  }

  lemma NotAvailableSingleLine()
    ensures '\n' !in NotAvailableLine
  {
  }

  /** The rows of two lists of games, one after the other, are the rows of the first list and then those of the second. */
  lemma RowTextsConcat(a: seq<Game>, b: seq<Game>)
    ensures RowTexts(a + b) == RowTexts(a) + RowTexts(b)
  {
    var l, r := RowTexts(a + b), RowTexts(a) + RowTexts(b);
    assert |l| == |r|;
    forall k | 0 <= k < |l| ensures l[k] == r[k] {
      if k < |a| { assert (a + b)[k] == a[k]; } else { assert (a + b)[k] == b[k - |a|]; }
    }
  }

  /** The rows of a table section taken in two parts: those of the first games, then the rest. */
  lemma TableSectionSplits(sportName: string, a: seq<Game>, b: seq<Game>)
    ensures TableSection(sportName, a + b)
      == AppendAll(AppendAll(TableHead(sportName), RowTexts(a)), RowTexts(b)) + TableFoot
  {
    RowTextsConcat(a, b);
    AppendAllConcat(TableHead(sportName), RowTexts(a), RowTexts(b));
  }

  // ---------------------------------------------------------------- the page

  /** The season of a year: "2025-2026" for 2025. */
  function Season(year: nat): string {
    Decimal(year) + "-" + Decimal(year + 1)
  }

  /** Everything before the first section: the document head with its style sheet, the banner and the date. */
  function PageHead(year: nat, lastUpdated: string, style: string): string {
    JoinLines(["<!DOCTYPE html>",
               "<html lang=\"en\">",
               "<head>",
               "    <meta charset=\"UTF-8\">",
               "    <meta name=\"viewport\" content=\"width=device-width, initial-scale=1.0\">",
               "    <title>Nebraska Cornhuskers Sports Schedules | " + Season(year) + "</title>",
               "    <style>"])
    + style
    + JoinLines(["    </style>",
                 "</head>",
                 "<body>",
                 "    <div class=\"header\">",
                 "        <h1>\U{1F33D} Nebraska Cornhuskers</h1>",
                 "        <p>Complete Sports Schedules | " + Season(year) + " Season</p>",
                 "    </div>",
                 "",
                 "    <div class=\"last-updated\">",
                 "        Last Updated: " + lastUpdated,
                 "    </div>",
                 "",
                 "    <div class=\"container\">"])
  }

  /** Everything after the last section. */
  const PageFoot := JoinLines(["    </div>",
                               "",
                               "    <div class=\"footer\">",
                               "        <p><strong>Go Big Red!</strong></p>",
                               "        <p>For official updates, visit <strong>huskers.com</strong></p>",
                               "        <p>&copy; 2025 Nebraska Cornhuskers Athletics</p>",
                               "    </div>",
                               "</body>",
                               "</html>"])

  /** generate_sport_section of each configured sport, in configuration order. */
  function SectionTexts(files: CsvFiles, sports: seq<Sport>): (sections: seq<string>)
    ensures |sections| == |sports|
    ensures forall k :: 0 <= k < |sports| ==>
      sections[k] == SportSection(sports[k].name, ReadCsv(files, sports[k].filename))
  {
    seq(|sports|, k requires 0 <= k < |sports| => SportSection(sports[k].name, ReadCsv(files, sports[k].filename)))
  }

  /** The page generate_html produces. */
  function Page(files: CsvFiles, sports: seq<Sport>, year: nat, lastUpdated: string, style: string): string {
    AppendAll(PageHead(year, lastUpdated, style), SectionTexts(files, sports)) + PageFoot
  }

  /** generate_html, with the clock's year and date and the style sheet given as parameters. */
  method GenerateHtml(files: CsvFiles, sports: seq<Sport>, year: nat, lastUpdated: string, style: string)
    returns (html: string)
    ensures html == Page(files, sports, year, lastUpdated, style)
  {
    html := PageHead(year, lastUpdated, style);
    for i := 0 to |sports|
      invariant html == AppendAll(PageHead(year, lastUpdated, style), SectionTexts(files, sports)[..i])
    {
      var section := GenerateSportSection(files, sports[i].name, sports[i].filename);
      AppendAllStep(PageHead(year, lastUpdated, style), SectionTexts(files, sports), i);
      html := html + section;
    }
    TakeAll(SectionTexts(files, sports));
    html := html + PageFoot;
  }

  /** Two lists of sports configured one after the other get their sections in that order. */
  lemma SectionTextsConcat(files: CsvFiles, a: seq<Sport>, b: seq<Sport>)
    ensures SectionTexts(files, a + b) == SectionTexts(files, a) + SectionTexts(files, b)
  {
    var l, r := SectionTexts(files, a + b), SectionTexts(files, a) + SectionTexts(files, b);
    assert |l| == |r|;
    forall k | 0 <= k < |l| ensures l[k] == r[k] {
      if k < |a| { assert (a + b)[k] == a[k]; } else { assert (a + b)[k] == b[k - |a|]; }
    }
  }

  /** A page over two lists of sports holds the sections of the first list, then those of the second. */
  lemma PageSplits(files: CsvFiles, a: seq<Sport>, b: seq<Sport>, year: nat, lastUpdated: string, style: string)
    ensures Page(files, a + b, year, lastUpdated, style)
      == AppendAll(AppendAll(PageHead(year, lastUpdated, style), SectionTexts(files, a)), SectionTexts(files, b))
         + PageFoot
  {
    SectionTextsConcat(files, a, b);
    AppendAllConcat(PageHead(year, lastUpdated, style), SectionTexts(files, a), SectionTexts(files, b));
  }

  /** A sport whose CSV file does not exist gets the placeholder section, not a failure. */
  lemma MissingCsvPlaceholder(files: CsvFiles, sport: Sport)
    requires sport.filename !in files
    ensures SportSection(sport.name, ReadCsv(files, sport.filename)) == PlaceholderSection(sport.name)
  {
  }

}
