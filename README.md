# League Discord bot: command core in Dafny

This project models the command core of a Discord bot for League of Legends.
The bot answers slash commands with embeds built from two sources: the Riot
match API and the u.gg statistics pages. The model covers:

- **the retry loop** (`Util`). A request is repeated until it succeeds, at
  most three times more. The delay grows by 500 ms in the shared helper and
  doubles in the league command's own copy of the loop.
- **the `matches` command** (`Matches`). It finds the queried player and
  their lane opponent in every match, builds one numbered inline field per
  match that arrived, and counts wins.
- **the older match-history text** (`League`). It builds one line per game,
  appends them with line breaks after a `Winrate: w/n` line, and has its own
  inline retry loop.
- **the `build` command** (`Build`). It covers the page URL, the lane label,
  which rune is active in every row of the rune trees, and the title.
- **the `counters` command** (`Counters`). It covers the page URL, the lane
  label, three lists of at most ten padded picks, and the embed.
- **the `tierlist` command** (`TierList`). It covers the lane-dependent URL,
  the first `count` rows in two padded columns joined by line breaks, and
  the embed.
- **the shared records** (`Types`): the match document, the error text and
  the output envelope.

`Text` models the parts of Rust's string handling the commands rely on:

- integer `Display`;
- ASCII `to_uppercase`;
- `trim`, over the Unicode White_Space set;
- `{:<N}` padding;
- `push_str` folds and `join`;
- `contains`.

Splitting at a character is proved to invert `join`.

How the model handles outcomes:

- **Errors and panics.** Every operation that can fail returns `Run<T>`.
  `Ok` is the value. `Err` is an error the Rust code returns with `?` or
  `Err(..)`. `Panic` is an `unwrap` or `expect` that fails. Panics are part
  of each contract, not excluded by preconditions.
- **Transport errors.** The retry loops read the status through `unwrap`
  before they test `is_ok()`. A transport error therefore panics on the
  first attempt that meets it, and the model says so. The collection loops
  skip a response that is an `Err` (`src/matches.rs:77`,
  `src/league.rs:233`); since the retry loops never return one, that arm
  is dead in the program. The model keeps it, to follow the loops as
  written, and `Matches.Joined` shows it is never reached.
- **Other I/O.** Sleeps are recorded as the list of delays. The network is
  a sequence of attempt outcomes. A scraped page is given as the texts and
  class attributes its selectors would extract.

Where the record types and the code differ from a plain reading of the
commands, the model follows the code:

- Kills, deaths and assists are `i32`, so nothing keeps them non-negative.
- A match that cannot be summarised panics at `src/matches.rs:73`. It is
  not skipped.
- The counters and tier-list commands set `footer` to a `String`
  (`src/counters.rs:131`, `src/tierlist.rs:68`), although
  `src/shared/types.rs:81` declares a `CreateEmbedFooter`. The model keeps
  the footer as its text.
- `src/league.rs`, `src/counters.rs` and `src/tierlist.rs` are not declared
  as modules in `src/main.rs:7-9`. They are modelled as written.

## Model

| member | source | states |
|---|---|---|
| Results.Collect | src/build.rs:147-159 | a row mapping evaluated in order and collected: all values in order exactly when every item succeeds, otherwise the outcome of the first item that fails, panic or error as it was |
| Types.NewDiscordOutput | src/shared/types.rs:86-103 | every argument lands, unchanged, in the field of the same name |
| Types.ErrorDisplay | src/shared/types.rs:20-28 | the text starts with the message, followed by `" \n ("`, and ends with the region in parentheses; its length is the parts' lengths plus the 11 literal characters |
| Types.ErrorDisplayFirstLine | src/shared/types.rs:22-26 | for a message without a line break, the first line of the error text is the message and one space |
| Types.NegativeCountsAreRepresentable | src/shared/types.rs:60-73 | the participant record admits a negative kill count, which is rendered with a minus sign |
| Util.Delay | src/shared/util.rs:9-36 | the k-th delay is 500·(k+1) ms for the linear loop and 500·2^k ms for the doubling one |
| Util.StopIndex | src/shared/util.rs:14-28 | the attempt at which the loop stops is the first one that is a transport error, a 2xx reply or the third retry |
| Util.Retry | src/shared/util.rs:8-39 | 1 to 4 executions; every attempt before the last is a non-2xx reply; the sleeps are the policy's delays in order; the outcome is the last reply, or a panic on a transport error; a non-2xx reply is returned only after all 4 executions |
| Util.RetryRequests | src/shared/util.rs:4-40 | the loop's outcome, execution count and sleeps are exactly those of `Retry` under the 500 ms step |
| Util.TwoFailuresThenSuccess | src/shared/util.rs:14-38 | two failing replies and then a success give 3 executions, sleeps of 500 and 1000 ms, and the success |
| Util.PersistentFailureIsReturned | src/shared/util.rs:21-28 | four non-2xx replies: the fourth is handed back after 4 executions, not turned into an error |
| Matches.FindMe | src/matches.rs:118-121 | the first participant with the queried puuid, or none exactly when no participant has it |
| Matches.FindOpponent | src/matches.rs:123-126 | the first participant on another team in the same position, never the player; none exactly when nobody qualifies |
| Matches.UpperWinWord | src/matches.rs:128-139 | the uppercased outcome word is "WON" or "LOST" |
| Matches.GetMatchInfo | src/matches.rs:105-126 | error "No participants found" exactly for an empty list; panic exactly when the player or the opponent is missing |
| Matches.GetMatchInfoField | src/matches.rs:118-152 | a summarised match has an inline field headed `n: POSITION (WON/LOST)`, the body of both players, the player's own win flag, and an opponent on the other team in the same position |
| Matches.HeaderOutcome | src/matches.rs:134-140 | the field name is the number, the uppercased position and "(WON)" or "(LOST)" |
| Matches.CollectedNumbersAnsweredMatches | src/matches.rs:67-79 | one line per response that arrived, in order; the k-th is the summary of the k-th arrived match with number k+1; a response skipped as `Err` takes no number |
| Matches.Joined | src/matches.rs:59-65 | a request future panics exactly when its retry loop panicked, and otherwise hands over a reply that arrived, never an `Err`, so the skipping arm at `src/matches.rs:77` is dead |
| Matches.AllArrived | src/matches.rs:65-79 | when no future panicked, the loop sees one body per request, in request order |
| Matches.CollectedFailureSticks | src/matches.rs:69-79 | once a body fails to decode or a match panics, later responses do not change the outcome |
| Matches.WinCount | src/matches.rs:84-86 | the fold never counts more wins than matches |
| Matches.WinCountCountsWins | src/matches.rs:84-86 | the fold counts exactly the matches whose win flag is set |
| Matches.Fields | src/matches.rs:83-96 | one field per summarised match, in order |
| Matches.Summary | src/matches.rs:88-100 | dark green, title `<player>'s Matches`, empty footer and content, the match fields in order |
| Matches.GetMatchesInfo | src/matches.rs:34-103 | the loop's result equals the specification: a decode error, a panic, or the summary over all arrived matches |
| Matches.MatchesWinCountBounded | src/matches.rs:81-95 | wins ≤ matches = responses that arrived, and the description reports those two numbers |
| League.RetryMatchRequest | src/league.rs:194-218 | the inline loop, with its single exit test, behaves as `Retry` under doubling delays |
| League.DoublingDelays | src/league.rs:195-214 | the doubling loop sleeps 500, 1000 and 2000 ms |
| League.GetMatchInfo | src/league.rs:266-292 | never an error; participants that do not deserialise, or none, give "Unable to grab participant data" and a loss; panic exactly when the player or opponent is missing |
| League.GameTextShape | src/league.rs:294-298 | the game line is `Game n won/lost: `, then `<champion> vs <opponent champion>`, then the opponent's name in parentheses; the number is followed by a space |
| League.GetMatchInfoLine | src/league.rs:284-300 | a summarised game is the line of the player and an opponent on the other team in the same position, with the player's win flag |
| League.LineNumbered | src/league.rs:294-298 | a game line is the fixed text or starts with `Game <n> ` |
| League.CollectedNumbering | src/league.rs:224-235 | one line per response that arrived, in order; the k-th is the summary of the k-th arrived body with number k+1 |
| League.CollectedLineNumbers | src/league.rs:224-235 | the k-th line is the fixed text or opens with `Game <k+1> ` |
| League.CollectedFailureSticks | src/league.rs:226-234 | once a body is not JSON or a game panics, later responses do not change the outcome |
| League.AggregateLines | src/league.rs:237-251 | when no game line holds a break, the text splits into the win-rate line, every game line in order, and an empty tail |
| League.GetMatchesInfo | src/league.rs:224-251 | the two loops' result equals the specification: a decode error, a panic, or the aggregate text |
| League.Tally | src/league.rs:238-244 | the total is every game line followed by '\n', in order, and the count is the number of wins |
| League.TallyStep | src/league.rs:240-244 | one iteration appends one line and one break, and adds one exactly for a win |
| Build.BuildPageUrl | src/build.rs:64-73 | the reassigned URL is base + champion + `/build`, then `/<lane>`, then `?opp=<enemy>` |
| Build.ParseBuildUrlRoundTrip | src/build.rs:64-73 | champion, lane and opponent can be read back from the URL when the champion has no '/' and the lane no '?' |
| Build.GetLane | src/build.rs:108-123 | an explicit lane is uppercased without looking at the page; otherwise the joined role text, trimmed and uppercased; a page without it panics; the result has no lower-case letter |
| Build.FindActive | src/build.rs:151-158 | the first child whose class contains the marker, with every earlier child classed and unmarked; a child without a class before any match panics |
| Build.RowIndices | src/build.rs:147-189 | one index per row in order, each the row's index; any panicking row makes the whole collection panic |
| Build.GetRunes | src/build.rs:125-205 | panic exactly when a tree title is missing or a row panics; otherwise the joined titles, "Stat Shards", and one index per row |
| Build.RuneIndicesPointAtActiveChildren | src/build.rs:147-189 | every primary and shard index is the first child whose class carries the marker, every earlier child classed and unmarked; a secondary index is such a child or `usize::MAX` for a row with none |
| Build.Capitalize | src/build.rs:231-237 | same length; the first character uppercased and the rest unchanged |
| Build.CapitalizeIdempotent | src/build.rs:231-237 | capitalising twice is capitalising once |
| Build.GetTitle | src/build.rs:217-229 | `(<lane>) ` then both champions capitalised around " vs. ", or the one champion exactly as given |
| Counters.CounterPageUrl | src/counters.rs:144-154 | the `push_str` sequence builds base + champion + `/counter`, then `/?role=<lane>` only when a lane is given |
| Counters.ParseCounterUrlRoundTrip | src/counters.rs:144-154 | champion and lane can be read back from the URL when the champion has no '/' |
| Counters.CounterUrlInjective | src/counters.rs:144-154 | different requests whose champions have no '/' give different URLs |
| Counters.GetLane | src/counters.rs:164-189 | an explicit lane is uppercased; otherwise the first role text node, trimmed but not uppercased; no element or no text panics |
| Counters.PickRow | src/counters.rs:34-49 | the trimmed name padded with spaces to at least 10 characters (never truncated), then " - " and the win rate as shown |
| Counters.PickText | src/counters.rs:34-49 | a pick panics exactly when its name or win-rate text is missing |
| Counters.PickRows | src/counters.rs:30-54 | one row per pick, in order; one malformed pick panics |
| Counters.Taken | src/counters.rs:10-32 | at most ten picks, the first ones in document order |
| Counters.CategoryIgnoresTail | src/counters.rs:30-33 | picks after the tenth are never looked at, so a malformed eleventh pick does not panic |
| Counters.CategoryLines | src/counters.rs:49-54 | the body is empty exactly when no pick was taken, else ends in '\n'; without stray breaks it splits into the rows in order and an empty tail |
| Counters.PickRowSingleLine | src/counters.rs:34-49 | a pick whose texts hold no break renders to a row without one |
| Counters.CategoryAtMostTenLines | src/counters.rs:10-54 | when no pick text holds a line break, a category shows at most ten lines |
| Counters.CodeBlock | src/counters.rs:111-121 | the body wrapped in triple backticks on both sides |
| Counters.HandleCounters | src/counters.rs:13-134 | a page that did not load or any panicking part panics; otherwise dark green, title `Counter picks for <champion> (<lane>)`, fields Best, Worst, Lane in that order, each a code block, none inline |
| TierList.ParseTierListUrlRoundTrip | src/tierlist.rs:14-25 | every lane except "top-lane" can be read back from its URL; no lane gives the bare `tier-list` page |
| TierList.TopLaneAlias | src/tierlist.rs:16-21 | "top-lane" and "top" lead to the same page |
| TierList.Columns | src/tierlist.rs:54 | the first column, then spaces up to at least 20 characters, then " - " |
| TierList.ColumnsSecond | src/tierlist.rs:54 | the second column follows the separator, then only spaces |
| TierList.TierLine | src/tierlist.rs:38-54 | every line is at least 43 characters long |
| TierList.EntryText | src/tierlist.rs:37-55 | a row panics exactly when its name or win-rate text is missing |
| TierList.TierLines | src/tierlist.rs:34-56 | one line per taken row, in order; one malformed row panics |
| TierList.Take | src/tierlist.rs:36 | at most `count` rows, the first ones in document order |
| TierList.TierTableIgnoresTail | src/tierlist.rs:36 | rows past the first `count` are never looked at |
| TierList.EntryTextSingleLine | src/tierlist.rs:38-54 | a row whose texts hold no break renders to a line without one |
| TierList.TierTableLines | src/tierlist.rs:56-57 | zero rows give ""; otherwise, without stray breaks, the table splits into exactly its lines, nothing after the last |
| TierList.TierTitle | src/tierlist.rs:60 | `Top <count> tier list for ` then the lane, or "All" |
| TierList.HandleTierList | src/tierlist.rs:9-71 | a browser error is returned as is; a malformed row panics; otherwise dark green, that title, and one "Champion - Tier" code-block field, not inline |
| Text.NatToString | src/league.rs:246-251 | decimal digits, at least one, no leading zero except for 0 |
| Text.ParseNatToString | src/league.rs:246-251 | reading the digits back gives the number |
| Text.IntToString | src/matches.rs:135-137 | a minus sign exactly for negative numbers |
| Text.IntToStringRoundTrip | src/matches.rs:129-137 | reading the text back gives the number |
| Text.NumberPrefixUnique | src/league.rs:295-298 | a number followed by a space opens a text in only one way, so `Game <n> ` fixes n |
| Text.Upper | src/build.rs:110 | same length; every lower-case ASCII letter uppercased and every other character kept |
| Text.UpperIdempotent | src/build.rs:110-120 | uppercasing twice is uppercasing once |
| Text.Trim | src/counters.rs:41 | a slice of the input with only whitespace removed around it, neither starting nor ending with whitespace |
| Text.TrimIdempotent | src/counters.rs:41 | trimming twice is trimming once |
| Text.TrimKeepsOut | src/tierlist.rs:45-53 | trimming adds no character that was absent |
| Text.PadRight | src/counters.rs:49 | padded to at least the width, the input kept as a prefix, only spaces added |
| Text.SplitJoin | src/tierlist.rs:56-57 | splitting a join at its separator gives the lines back when none contains it |
| Text.TerminatedIsJoin | src/league.rs:240-242 | appending each line and a break is joining the lines with breaks plus a final break |
| Text.TerminatedEndsWith | src/counters.rs:51-54 | text folded from terminated lines is empty exactly for no lines, else ends in the terminator |
| Text.TerminatedSplit | src/counters.rs:49-54 | splitting text folded from terminated lines gives the lines back and an empty tail, when no line holds the terminator |
| Text.FirstText | src/counters.rs:34-48 | the first text node, present exactly when the element and a text node exist |
| Text.Contains | src/build.rs:155 | true exactly when the needle occurs at some position |

## Left out

- The Discord front end in `src/main.rs` is not part of this model. This covers command registration, option parsing, replying and the browser tab shared between commands.
- The account and match-id requests in `src/shared/requests.rs` and the `versus` command in `src/versus.rs` are not part of this model.
- The puuid request (`src/league.rs:109-147`) and the match-id request (`src/league.rs:164-180`) of the league command are left out. So is its `OutputError` branch for a non-OK status (`src/league.rs:253-262`). The model starts from the joined match responses.
- `matches.rs:47` passes an `i64` game count where the request helper takes text. That call lies outside this model.
- Browser navigation, waiting and CSS selector matching are left out, because they are I/O against a live page. Pages are modelled as the texts and class attributes the selectors would extract.
- `join_all` runs the match requests concurrently. The model takes the responses in the order `join_all` returns them, and models nothing about concurrency.
- Delays are recorded, not slept.
- Floating point is left out:
  - the win percentage in `src/matches.rs:92` is a parameter that renders it;
  - the build win rate and its descriptors (`src/build.rs:89-106`, `src/build.rs:207-215`) are not modelled.
- `handle_build_command` assembles the build embed (`src/build.rs:18-57`), including the `Debug` rendering of the index lists. That assembly is not modelled. Its parts are: the URL, the lane, the runes and the title.
- JSON deserialisation is modelled as its outcome. A match body either decodes into the records or does not; the league command's participant list either deserialises or not.
- Logging (`println!`, `tracing`) is left out, because it does not affect results.
- `try_clone().unwrap()` on a request is not modelled. The requests are plain GETs with no streaming body.
- `reqwest::Error` text is not modelled. An error is only told apart by kind.
- Text.Upper: only ASCII letters are uppercased. Rust's `to_uppercase` also maps other letters and can lengthen a string (`ß` becomes `SS`).
- Build.Capitalize: its first character goes through the same ASCII uppercasing, so "same length" holds only for ASCII input; Rust's `capitalize_string("ßa")` gives `"SSa"`.
- Matches.GetMatchesInfo: the match number is unbounded. The code's `i32` counter would overflow only after 2^31 matches.
- League.GetMatchesInfo: the match number is unbounded for the same reason.
