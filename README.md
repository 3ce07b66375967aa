# Huskers schedules: renderer and fetcher core in Dafny

This project models the two deterministic cores of the Nebraska Cornhuskers schedule
generator.

**The page renderer (`HuskersHTMLGenerator`).** One CSV record (a map from column name to
text, where a missing column reads as `""`) becomes one table row. Building the row classifies
three things:
- completed or upcoming;
- home, neutral or away;
- the result: win, loss, other or upcoming.

It also renders the optional Event and Watch badges. A sport's records become a table section,
or a "Schedule not yet available" placeholder when there are none. The configured sports'
sections, in order, make up the page body.

**The schedule fetcher (`ScheduleFetcher`).**
- `_extract_code_blocks` reads the model's reply. It is written as a left-to-right scanner and
  proved equal to a declarative statement of what `re.findall` returns for
  ```` ```(?:csv|html):([^\n]+)\n(.*?)``` ```` with DOTALL: the leftmost match first, the
  search resuming after each match's closing fence, a greedy filename and a lazy body.
- `_call_claude_api` is the tool-use conversation loop. It has a ceiling of 25 calls, and the
  API is an oracle.

Modules:
- `Wrappers` holds `Option`.
- `Strings` holds the Python string operations the core relies on:
  - `str.strip` with Python's `isspace`, specified by its meaning and proved unique;
  - ASCII `lower`/`upper`;
  - substring tests;
  - splitting into and joining lines;
  - a generic append fold.
- `HtmlGenerator` is in `html_generator.dfy`.
- `ScheduleFetcher` is in `schedule_fetcher.dfy`.

Each source operation that builds its result step by step becomes a Dafny method, proved
against a specification function:
- the sequential `html +=` appends and branches of `format_game_row` (a method without a loop);
- the row loop of `generate_sport_section`;
- the section loop of `generate_html`;
- the findall scan;
- the bounded API loop.

The properties are proved about those functions. The row has a partner: a line parser
`ParseRow`, proved to read back every rendered row whose nine rendered values hold no
newline, giving its two classes and nine cells. The
transcript of the API loop also has a partner: an independent run description `IsRun`. The
transcript is proved to be the only sequence that meets it.

The renderer's inputs are values, not files or the clock:
- the output directory's CSV files arrive as a map from file name to records;
- the clock's year and "Month Day, Year" date are parameters;
- the style sheet text is a parameter.

Two behaviours of the code are worth stating outright:
- The API driver has no sleep between calls and no rate-limit retry loop, so none is modelled.
- The placeholder is shown whenever the record list is empty: for an absent CSV file and also
  for a file with a header and no rows. `SportSection` follows this.

## Model

| member | source | states |
|---|---|---|
| HtmlGenerator.Field | scripts/html_generator.py:86-101 | `game.get(key, "")`: the field's text when the column is present, `""` when it is missing |
| HtmlGenerator.ReadCsv | scripts/html_generator.py:45-54 | a CSV file that does not exist yields no records; an existing one yields its records |
| HtmlGenerator.MissingCsvPlaceholder | scripts/html_generator.py:46-47 | a sport whose CSV file is missing gets the placeholder section, not a failure |
| Strings.StripIsStrip | scripts/html_generator.py:66 | `Strip(s)` is `s` with whitespace, in Python's `isspace` sense, cut from both ends: a slice of `s`, surrounded only by whitespace, and neither starting nor ending with whitespace |
| Strings.StripUnique | scripts/html_generator.py:66 | any string that is such a strip of `s` equals `Strip(s)` |
| Strings.StripKeeps | scripts/html_generator.py:66 | stripping introduces no character absent from the input |
| HtmlGenerator.RowClass | scripts/html_generator.py:66-67 | the row class is `game-completed` exactly when the stripped Result is non-empty, and `game-upcoming` exactly when it is empty |
| Strings.Lower | scripts/html_generator.py:71 | lowercasing maps every character through the ASCII letter mapping and keeps the length |
| HtmlGenerator.VenueOfCases | scripts/html_generator.py:70-78 | exactly one venue is chosen. Home iff the lowercased stripped Location is `home` or `lincoln ne`. Neutral iff it is not home and contains `neutral`, `kansas city` or `sioux falls`. Away iff neither test holds |
| HtmlGenerator.LocationClassCases | scripts/html_generator.py:70-78 | the location class is `home-game` iff the location is home, `neutral-game` iff it is not home but neutral, and `away-game` iff it is neither |
| HtmlGenerator.VenueClassInjective | scripts/html_generator.py:72-78 | the three location classes are distinct, so the class names the venue |
| HtmlGenerator.BadgeCell | scripts/html_generator.py:105-122 | Event and Watch render as a badge span around the stripped value when it is non-empty, and as an empty cell otherwise |
| HtmlGenerator.ResultCell | scripts/html_generator.py:125-134 | the Result cell is decided in order: an empty stripped Result gives the upcoming mark (an em dash span); a leading `W` gives a `result-win` span; a leading `L` gives a `result-loss` span; any other value is emitted raw |
| HtmlGenerator.CellLines | scripts/html_generator.py:85-136 | each cell content becomes one indented `<td>` line, in order |
| HtmlGenerator.FormatGameRow | scripts/html_generator.py:56-139 | the method builds the row by the generator's own sequence of appends and branches, and its result is exactly `GameRow(game)` |
| HtmlGenerator.GameRowLines | scripts/html_generator.py:81-137 | a row is the opening `<tr class="{row} {location}">` line, nine `<td>` lines (Date, Day, Opponent, stripped Location, Venue, Time, Event, Watch, Result) and the closing `</tr>` line, each ended by a newline |
| HtmlGenerator.GameRowSplits | scripts/html_generator.py:81-137 | when none of the nine rendered values (five raw fields, four stripped) holds a newline, splitting the row at newlines gives exactly those eleven lines and nothing after the last newline |
| HtmlGenerator.CellsSingleLine | scripts/html_generator.py:81-137 | the emitted row lines hold no newline if and only if none of the nine rendered values does; columns that are not rendered do not matter |
| HtmlGenerator.ParseRow | scripts/html_generator.py:81-137 | any text the row reader accepts is an opening line with two classes, nine cell lines and a closing line, each ended by a newline |
| HtmlGenerator.OpenLineRoundTrip | scripts/html_generator.py:81-84 | the opening line reads back as its row class and location class |
| HtmlGenerator.CellLineRoundTrip | scripts/html_generator.py:85-136 | a cell line reads back as its content |
| HtmlGenerator.CellLinesRoundTrip | scripts/html_generator.py:85-136 | a run of cell lines reads back as its contents, in order |
| HtmlGenerator.RowRoundTrip | scripts/html_generator.py:81-137 | when none of the nine rendered values holds a newline, reading the rendered row back gives its row class, its location class and its nine cells, in column order |
| HtmlGenerator.Emoji | scripts/html_generator.py:14-21 | `SPORT_EMOJIS.get(name, "")`: the emoji of each of the six listed sports, and `""` for any other name |
| Strings.UpperKeeps | scripts/html_generator.py:155 | uppercasing the sport name for the section comment introduces no non-letter character |
| HtmlGenerator.SportSection | scripts/html_generator.py:151-203 | no records give the placeholder section; otherwise the section is the fixed table header, then one row per record in input order, then the fixed footer |
| HtmlGenerator.PlaceholderLines | scripts/html_generator.py:154-166 | the placeholder's lines are exactly the heading, the note and the section closing |
| HtmlGenerator.PlaceholderHasNoTable | scripts/html_generator.py:154-166 | the placeholder holds the "Schedule not yet available" line and no `<table>` line |
| HtmlGenerator.PlaceholderSaysNotAvailable | scripts/html_generator.py:154-166 | for every sport name, the placeholder text contains "Schedule not yet available" |
| HtmlGenerator.GenerateSportSection | scripts/html_generator.py:141-203 | `generate_sport_section` returns exactly `SportSection` for the records read from the sport's file |
| HtmlGenerator.AddRows | scripts/html_generator.py:192-194 | the row loop appends `format_game_row` of each record, in order, to the header |
| HtmlGenerator.RowTextsConcat | scripts/html_generator.py:193-194 | the rows of two record lists, one after the other, are the rows of the first list followed by those of the second |
| HtmlGenerator.TableSectionSplits | scripts/html_generator.py:192-194 | the table section of two record lists is the header, the first list's rows, then the second list's rows, then the footer |
| Strings.AppendAllConcat | scripts/html_generator.py:466-469 | appending the texts of two lists in turn equals appending the texts of the first list and then those of the second |
| Strings.Decimal | scripts/html_generator.py:217-225 | a year is written as a non-empty string of decimal digits with no leading zero, and those digits spell the year's value |
| Strings.DecimalUnique | scripts/html_generator.py:217-225 | any digit string without a leading zero is the decimal text of its own value, so `int(year)` reads back the year that `Decimal` wrote |
| HtmlGenerator.SectionTexts | scripts/html_generator.py:466-469 | there is one section per configured sport, in configuration order, each the section of its own CSV file |
| HtmlGenerator.SectionTextsConcat | scripts/html_generator.py:466-469 | the sections of two sport lists configured one after the other are the first list's sections followed by the second's |
| HtmlGenerator.PageSplits | scripts/html_generator.py:466-469 | the page for two sport lists is the head, the first list's sections, then the second list's sections, then the footer |
| HtmlGenerator.GenerateHtml | scripts/html_generator.py:205-483 | the page is the head (with the clock's year, date and style sheet as parameters), then each configured sport's section in order, then the fixed footer |
| ScheduleFetcher.FindChar | scripts/schedule_fetcher.py:161 | the scanner finds the first newline at or after a position, or reports that there is none |
| ScheduleFetcher.FindFence | scripts/schedule_fetcher.py:161 | the scanner finds the first triple backtick at or after a position, or reports that there is none |
| ScheduleFetcher.MatchAt | scripts/schedule_fetcher.py:161 | a block is found at `p` exactly when the pattern matches there, and what is found is that match |
| ScheduleFetcher.TagDecides | scripts/schedule_fetcher.py:161 | the tag after a fence is `csv:` or `html:`, never both, so it fixes where the filename starts |
| ScheduleFetcher.MatchUnique | scripts/schedule_fetcher.py:161 | a match is fixed by its start: the filename runs to the first newline, and the body runs to the first fence after that newline |
| ScheduleFetcher.MatchBounds | scripts/schedule_fetcher.py:161 | a match has a tag, a filename of at least one character and a closing fence inside the text |
| ScheduleFetcher.NoTag | scripts/schedule_fetcher.py:161 | a fence not followed by `csv:` or `html:` starts no block |
| ScheduleFetcher.NoNameLine | scripts/schedule_fetcher.py:161 | an empty filename, or a filename line without a newline, starts no block |
| ScheduleFetcher.NoCloseFence | scripts/schedule_fetcher.py:161-162 | an unterminated block (no fence after the filename line) produces no pair |
| ScheduleFetcher.FindAll | scripts/schedule_fetcher.py:162 | the scan returns `re.findall`'s matches: leftmost first, each search resuming at the previous match's end, and no match left unfound |
| ScheduleFetcher.FindAllUnique | scripts/schedule_fetcher.py:162 | `re.findall`'s list of matches is unique |
| ScheduleFetcher.ChainOrdered | scripts/schedule_fetcher.py:162 | the matches are in text order and do not overlap |
| ScheduleFetcher.NoFenceNoMatches | scripts/schedule_fetcher.py:162-171 | text without a fence has exactly the empty list of matches |
| ScheduleFetcher.FilesOf | scripts/schedule_fetcher.py:164-168 | there is one pair per match, in order, each the stripped filename and the stripped body |
| ScheduleFetcher.FindAllFits | scripts/schedule_fetcher.py:162-168 | every match's filename and body lie inside the text |
| ScheduleFetcher.ExtractCodeBlocks | scripts/schedule_fetcher.py:155-171 | the result is the stripped (filename, content) pair of each `re.findall` match, in text order |
| ScheduleFetcher.Continue | scripts/schedule_fetcher.py:128-141 | after a tool-use stop the conversation grows by exactly two messages: the assistant's content, then the fixed user continuation. The earlier messages are unchanged |
| ScheduleFetcher.Calls | scripts/schedule_fetcher.py:100-146 | from a given call on, at least one call is made, no more than the ceiling allows, and the first one sends the conversation as it stands |
| ScheduleFetcher.Transcript | scripts/schedule_fetcher.py:97-101 | the first call sends the single user message holding the prompt, and between 1 and 25 calls are made |
| ScheduleFetcher.CallClaudeApi | scripts/schedule_fetcher.py:92-149 | the method returns exactly `FinalResponse`, the response to the last call; the conversations it sends are exactly `Transcript`: at most 25 calls, the first sending the prompt alone |
| ScheduleFetcher.EndsHere | scripts/schedule_fetcher.py:123-146 | an `end_turn`, `max_tokens` or other non-tool-use stop returns that response at once |
| ScheduleFetcher.ContinuesHere | scripts/schedule_fetcher.py:128-142 | a tool-use stop before the ceiling moves the loop on to the continued conversation; at the ceiling it is the last call |
| ScheduleFetcher.EndsAtCeiling | scripts/schedule_fetcher.py:149 | when the ceiling is reached, the last response is returned rather than an error |
| ScheduleFetcher.TranscriptIsRun | scripts/schedule_fetcher.py:97-149 | a sequence of conversations is an allowed run of the loop if and only if it is the transcript. An allowed run starts from the prompt, stays within 25 calls, continues only after tool-use stops and stops at another reason or the ceiling |
| ScheduleFetcher.TranscriptShape | scripts/schedule_fetcher.py:97-149 | the k-th call sends 2k+1 messages, the first of them the user prompt; every call but the last stopped for tool use; the returned response stopped for another reason unless 25 calls were made |
| ScheduleFetcher.StopsAtOnce | scripts/schedule_fetcher.py:123-146 | a first response that is not a tool-use stop is returned after a single call |

## Left out

- The Anthropic client call and its parameters (model, token limits, thinking budget, web-search tool) are network I/O. They are replaced by the oracle `Api`: the response to the call with a given index when it is sent a given conversation.
- Logging, the response id, the tool-use block count (which is only logged), and the exception handler that logs and re-raises.
- Aliasing: the messages list that Python mutates in place is modelled as a value that the loop reassigns. Nothing reads the list between calls, so no behaviour is lost.
- The file I/O of the renderer: opening the CSV file, parsing the CSV dialect and `save_html`. The CSV files are given as a map from file name to records.
- CSV rows with fewer fields than the header, for which Python's `DictReader` stores `None`, are not modelled. Every record maps column names to text.
- `datetime.now()`: the year and the "Month Day, Year" date it formats are parameters. `Decimal` writes years without the zero padding that `%Y` applies below year 1000.
- The inline CSS of the page head is constant text. It is the `style` parameter of `PageHead`.
- Strings.Lower: maps ASCII letters only, while Python's `lower()` covers all of Unicode.
- Strings.Upper: maps ASCII letters only, while Python's `upper()` covers all of Unicode.
- Strings.UpperKeeps: stated for the ASCII mapping of `Strings.Upper`.
- HtmlGenerator.PlaceholderHasNoTable: it requires a sport name without a newline, and it states that no `<table>` line appears among the placeholder's lines rather than that the substring is absent from the whole text. A multi-line sport name brings lines of its own, which may themselves be `<table>` lines. Absence of a substring over the long fixed literals is stated line by line because the verifier does not decide it directly.
- HtmlGenerator.PlaceholderLines: it requires a sport name without a newline, for the same reason: a multi-line name would split the heading into more lines.
- HtmlGenerator.RowRoundTrip: it needs the nine rendered values to be free of newlines. These are Date, Day, Opponent, Venue and Time as they stand, and Location, Event, Watch and Result after stripping. A newline inside one of them would make the row's lines ambiguous to read back. Columns that are not rendered may hold newlines, and so may the ends that stripping removes.
- The rest of the fetcher is not modelled:
  - `_download_artifact`, with its response dump and file writes;
  - zip extraction;
  - file moves and temp cleanup;
  - `run` and `main`;
  - `_read_prompt` and `_load_config`.

  These are file, clock and process I/O.
- The test script `scripts/test_html_generator.py` is not part of this model. It sets up directories, loads the sports list, calls the modelled page generator and prints.
- Configuration entries are the `Sport(name, filename)` datatype. An entry lacking the `name` or the `filename` key makes `sport['name']` or `sport['filename']` raise `KeyError` (scripts/html_generator.py:467-468); that failure is not modelled.
