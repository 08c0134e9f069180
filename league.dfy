/** The older match-history command: the same first-match lookups as the
    `matches` command, a one-line summary per game, an aggregate text that
    starts with the win count, and its own inline retry loop whose delay
    doubles instead of growing by 500 ms. */
module League {
  import opened Results
  import opened Text
  import opened Types
  import opened Util
  import Matches

  // ---------------------------------------------------------------------
  // The inline retry loop
  // ---------------------------------------------------------------------

  /** The retry loop inlined in `get_matches_info`: one exit test for
      "success or out of retries", and the delay doubles after each sleep. */
  method RetryMatchRequest(transport: seq<Attempt>) returns (outcome: RetryOutcome, executions: nat, sleeps: seq<nat>)
    requires MaxRetries < |transport|
    ensures RetryRun(outcome, executions, sleeps) == Retry(transport, Doubling)
  {
    var retries: nat := 0;
    var delay: nat := InitialDelay;
    sleeps := [];
    var result := transport[0];
    executions := 1;
    while true
      invariant retries <= MaxRetries
      invariant executions == retries + 1
      invariant sleeps == Delays(Doubling, retries)
      invariant delay == Delay(Doubling, retries)
      invariant result == transport[retries]
      invariant forall j :: 0 <= j < retries ==> !Stops(transport, j)
      decreases MaxRetries - retries
    {
      if result.TransportError? {
        outcome := Panicked;
        return;
      }
      if IsSuccess(result.response.status) || retries >= MaxRetries {
        outcome := Returned(result.response);
        return;
      }
      sleeps := sleeps + [delay];
      retries := retries + 1;
      delay := delay * 2;
      result := transport[retries];
      executions := executions + 1;
    }
  }

  /** The three delays of the doubling loop are 500, 1000 and 2000 ms. */
  lemma DoublingDelays()
    ensures Delays(Doubling, 3) == [500, 1000, 2000]
  {
    assert Pow2(1) == 2 && Pow2(2) == 4;
  }

  // ---------------------------------------------------------------------
  // One game
  // ---------------------------------------------------------------------

  /** A match body read as untyped JSON; its participant list either
      deserialises or does not. */
  datatype MatchJson = MatchJson(participants: Option<seq<Participant>>)

  datatype GameLine = GameLine(text: string, win: bool)

  const NoParticipantData: string := "Unable to grab participant data"

  /** `get_match_info`: participants that do not deserialise count as an
      empty list, which yields a fixed line and a loss; otherwise the same
      lookups as the `matches` command, panicking when either misses. */
  function GetMatchInfo(json: MatchJson, n: int, puuid: string): (r: Run<GameLine>)
    ensures var ps := if json.participants.Some? then json.participants.value else [];
      && !r.Err?
      && (ps == [] ==> r == Ok(GameLine(NoParticipantData, false)))
      && (r.Panic? <==> ps != [] && (Matches.FindMe(ps, puuid).None? ||
                                    Matches.FindOpponent(ps, ps[Matches.FindMe(ps, puuid).value]).None?))
  {
    var ps := if json.participants.Some? then json.participants.value else [];
    if |ps| == 0 then Ok(GameLine(NoParticipantData, false))
    else match Matches.FindMe(ps, puuid)
      case None => Panic
      case Some(i) =>
        var me := ps[i];
        match Matches.FindOpponent(ps, me)
        case None => Panic
        case Some(j) =>
          Ok(GameLine(GameText(n, me, ps[j]), me.win))
  }

  /** The line of one game: its number, the outcome, both champions and the
      opponent's name. */
  function GameText(n: int, me: Participant, opponent: Participant): string
  {
    "Game " + IntToString(n) + " " + Matches.WinWord(me.win) + ": " + me.championName
    + " vs " + opponent.championName + " (" + opponent.riotIdGameName + ")"
  }

  /** The number followed by a space and the outcome come first, then the
      two champions around " vs ", and the opponent's name in parentheses
      last. */
  lemma GameTextShape(n: int, me: Participant, opponent: Participant)
    ensures var text := GameText(n, me, opponent);
      var prefix := "Game " + IntToString(n) + " " + Matches.WinWord(me.win) + ": ";
      var tail := " (" + opponent.riotIdGameName + ")";
      && StartsWith(text, "Game " + IntToString(n) + " ")
      && StartsWith(text, prefix)
      && |prefix| + |tail| <= |text|
      && text[|prefix|..|text| - |tail|] == me.championName + " vs " + opponent.championName
      && text[|text| - |tail|..] == tail
  {
    var prefix := "Game " + IntToString(n) + " " + Matches.WinWord(me.win) + ": ";
    var middle := me.championName + " vs " + opponent.championName;
    var tail := " (" + opponent.riotIdGameName + ")";
    var text := GameText(n, me, opponent);
    var number := "Game " + IntToString(n) + " ";
    assert text == prefix + middle + tail;
    assert text[..|prefix|] == prefix;
    assert prefix[..|number|] == number;
    assert text[..|number|] == number;
    assert text[|prefix|..|text| - |tail|] == middle;
    assert text[|text| - |tail|..] == tail;
  }

  /** The line of a game with participants is the line of the player and
      their lane opponent, with the player's win flag. */
  lemma GetMatchInfoLine(json: MatchJson, n: int, puuid: string)
    requires json.participants.Some? && json.participants.value != []
    requires GetMatchInfo(json, n, puuid).Ok?
    ensures var r := GetMatchInfo(json, n, puuid).value;
      var ps := json.participants.value;
      var me := ps[Matches.FindMe(ps, puuid).value];
      var opponent := ps[Matches.FindOpponent(ps, me).value];
      && me.puuid == puuid && Matches.IsOpponent(opponent, me)
      && r.win == me.win
      && r.text == GameText(n, me, opponent)
  {
    var ps := json.participants.value;
    var me := ps[Matches.FindMe(ps, puuid).value];
    var opponent := ps[Matches.FindOpponent(ps, me).value];
    assert GetMatchInfo(json, n, puuid).value == GameLine(GameText(n, me, opponent), me.win);
  }

  // ---------------------------------------------------------------------
  // All games
  // ---------------------------------------------------------------------

  /** One joined response: the request future returned `Err`, which the
      loop skips, or a reply whose body is or is not JSON at all.  The
      inline retry loop panics on a transport error at the `unwrap` that
      reads the status (`RetryMatchRequest`), so the skipping arm is dead in
      the program; it is kept to model the loop as written. */
  datatype LeagueResponse = TransportFailed | Received(json: Option<MatchJson>)

  /** The first loop as a function of the responses seen: a body that is not
      JSON ends everything with an error, a game that cannot be summarised
      panics, and every received game takes the next number. */
  function Collected(rs: seq<LeagueResponse>, puuid: string): Run<seq<GameLine>>
    decreases |rs|
  {
    if rs == [] then Ok([])
    else match Collected(rs[..|rs| - 1], puuid)
      case Ok(prev) =>
        (match rs[|rs| - 1]
         case TransportFailed => Ok(prev)
         case Received(None) => Err(Decode)
         case Received(Some(j)) =>
           match GetMatchInfo(j, |prev| + 1, puuid)
           case Ok(line) => Ok(prev + [line])
           case _ => Panic)
      case Err(e) => Err(e)
      case Panic => Panic
  }

  /** The bodies of the responses that arrived, in arrival order. */
  function Answered(rs: seq<LeagueResponse>): (bodies: seq<Option<MatchJson>>)
    ensures |bodies| <= |rs|
    decreases |rs|
  {
    if rs == [] then []
    else match rs[|rs| - 1]
      case TransportFailed => Answered(rs[..|rs| - 1])
      case Received(b) => Answered(rs[..|rs| - 1]) + [b]
  }

  /** The k-th line is the summary of the k-th body that arrived, numbered k + 1. */
  ghost predicate NumberedAt(bodies: seq<Option<MatchJson>>, ls: seq<GameLine>, k: nat, puuid: string)
    requires k < |bodies| && k < |ls|
  {
    bodies[k].Some? && GetMatchInfo(bodies[k].value, k + 1, puuid) == Ok(ls[k])
  }

  /** A summarised game opens with its number and a space, unless it is the
      fixed line. */
  lemma LineNumbered(json: MatchJson, n: nat, puuid: string)
    requires GetMatchInfo(json, n, puuid).Ok?
    ensures var text := GetMatchInfo(json, n, puuid).value.text;
      text == NoParticipantData || StartsWith(text, "Game " + NatToString(n) + " ")
  {
    var ps := if json.participants.Some? then json.participants.value else [];
    if ps != [] {
      GetMatchInfoLine(json, n, puuid);
      var me := ps[Matches.FindMe(ps, puuid).value];
      GameTextShape(n, me, ps[Matches.FindOpponent(ps, me).value]);
      assert IntToString(n) == NatToString(n);
    }
  }

  /** Numbering starts at 1 and advances only on a response that arrived:
      there is one line per such response, in arrival order, and the k-th
      is the summary of the k-th body with the number k + 1. */
  lemma {:induction false} CollectedNumbering(rs: seq<LeagueResponse>, puuid: string)
    requires Collected(rs, puuid).Ok?
    ensures var ls := Collected(rs, puuid).value;
      |ls| == |Answered(rs)| && forall k: nat :: k < |ls| ==> NumberedAt(Answered(rs), ls, k, puuid)
    decreases |rs|
  {
    if rs != [] {
      var init := rs[..|rs| - 1];
      CollectedNumbering(init, puuid);
      var prev := Collected(init, puuid).value;
      var ls := Collected(rs, puuid).value;
      match rs[|rs| - 1]
      case TransportFailed =>
        assert ls == prev && Answered(rs) == Answered(init);
      case Received(b) =>
        var line := GetMatchInfo(b.value, |prev| + 1, puuid);
        var bodies := Answered(rs);
        assert bodies == Answered(init) + [b];
        assert ls == prev + [line.value];
        forall k: nat | k < |ls|
          ensures NumberedAt(bodies, ls, k, puuid)
        {
          if k < |prev| {
            assert NumberedAt(Answered(init), prev, k, puuid);
          }
        }
    }
  }

  /** Read off the text: the k-th line is the fixed line or opens with
      `Game <k + 1> `, and by `Text.NumberPrefixUnique` with no other number. */
  lemma CollectedLineNumbers(rs: seq<LeagueResponse>, puuid: string)
    requires Collected(rs, puuid).Ok?
    ensures var ls := Collected(rs, puuid).value;
      forall k :: 0 <= k < |ls| ==>
        ls[k].text == NoParticipantData || StartsWith(ls[k].text, "Game " + NatToString(k + 1) + " ")
  {
    var ls := Collected(rs, puuid).value;
    CollectedNumbering(rs, puuid);
    forall k | 0 <= k < |ls|
      ensures ls[k].text == NoParticipantData || StartsWith(ls[k].text, "Game " + NatToString(k + 1) + " ")
    {
      assert NumberedAt(Answered(rs), ls, k, puuid);
      LineNumbered(Answered(rs)[k].value, k + 1, puuid);
    }
  }

  lemma {:induction false} CollectedFailureSticks(rs: seq<LeagueResponse>, i: nat, puuid: string)
    requires i <= |rs|
    requires !Collected(rs[..i], puuid).Ok?
    ensures Collected(rs, puuid) == Collected(rs[..i], puuid)
    decreases |rs| - i
  {
    if i < |rs| {
      assert rs[..i + 1][..i] == rs[..i];
      CollectedFailureSticks(rs, i + 1, puuid);
    } else {
      assert rs[..i] == rs;
    }
  }

  function Texts(ls: seq<GameLine>): (ts: seq<string>)
    ensures |ts| == |ls| && forall k :: 0 <= k < |ls| ==> ts[k] == ls[k].text
  {
    seq(|ls|, k requires 0 <= k < |ls| => ls[k].text)
  }

  function Flags(ls: seq<GameLine>): (ws: seq<bool>)
    ensures |ws| == |ls| && forall k :: 0 <= k < |ls| ==> ws[k] == ls[k].win
  {
    seq(|ls|, k requires 0 <= k < |ls| => ls[k].win)
  }

  function WinrateLine(ls: seq<GameLine>): string
  {
    "Winrate: " + NatToString(Matches.WinCount(Flags(ls))) + "/" + NatToString(|ls|)
  }

  /** The text returned for the summarised games. */
  function Aggregate(ls: seq<GameLine>): string
  {
    WinrateLine(ls) + "\n" + Concat(Terminate(Texts(ls), '\n'))
  }

  /** When no game line contains a line break, the aggregate splits into the
      win-rate line, every game line in order, and an empty last piece: each
      game line is followed by exactly one '\n'. */
  lemma AggregateLines(ls: seq<GameLine>)
    requires forall k :: 0 <= k < |ls| ==> '\n' !in ls[k].text
    ensures Split(Aggregate(ls), '\n') == [WinrateLine(ls)] + Texts(ls) + [""]
  {
    var lines := [WinrateLine(ls)] + Texts(ls) + [""];
    TerminatedIsJoin(Texts(ls), '\n');
    assert Join(lines, "\n") == WinrateLine(ls) + "\n" + Join(Texts(ls) + [""], "\n") by {
      assert lines[1..] == Texts(ls) + [""];
    }
    assert '\n' !in WinrateLine(ls) by {
      var w := Matches.WinCount(Flags(ls));
      var a := NatToString(w);
      var b := NatToString(|ls|);
      assert WinrateLine(ls) == "Winrate: " + a + "/" + b;
      forall i | 0 <= i < |WinrateLine(ls)| ensures WinrateLine(ls)[i] != '\n' {
        if i >= 9 && i < 9 + |a| { assert IsDigit(a[i - 9]); }
        if i > 9 + |a| { assert IsDigit(b[i - 10 - |a|]); }
      }
    }
    SplitJoin(lines, '\n');
  }

  function LeagueOutput(rs: seq<LeagueResponse>, puuid: string): Run<string>
  {
    match Collected(rs, puuid)
    case Ok(ls) => Ok(Aggregate(ls))
    case Err(e) => Err(e)
    case Panic => Panic
  }

  /** The two loops of `get_matches_info` after the match ids are known:
      summarise every received game, then append each line and a '\n' to
      the total while counting wins. */
  method GetMatchesInfo(rs: seq<LeagueResponse>, puuid: string) returns (r: Run<string>)
    ensures r == LeagueOutput(rs, puuid)
  {
    var matches: seq<GameLine> := [];
    var count: nat := 1;
    var i := 0;
    while i < |rs|
      invariant 0 <= i <= |rs|
      invariant Collected(rs[..i], puuid) == Ok(matches)
      invariant count == |matches| + 1
    {
      assert rs[..i + 1][..i] == rs[..i];
      match rs[i] {
        case TransportFailed =>
        case Received(json) =>
          if json.None? {
            CollectedFailureSticks(rs, i + 1, puuid);
            return Err(Decode);
          }
          var info := GetMatchInfo(json.value, count, puuid);
          if !info.Ok? {
            CollectedFailureSticks(rs, i + 1, puuid);
            return Panic;
          }
          matches := matches + [info.value];
          count := count + 1;
      }
      i := i + 1;
    }
    assert rs[..i] == rs;
    var total, winCount := Tally(matches);
    r := Ok("Winrate: " + NatToString(winCount) + "/" + NatToString(|matches|) + "\n" + total);
  }

  /** The second loop: append each game line and a '\n' to the total, and
      count the wins. */
  method Tally(matches: seq<GameLine>) returns (total: string, winCount: nat)
    ensures total == Concat(Terminate(Texts(matches), '\n'))
    ensures winCount == Matches.WinCount(Flags(matches))
  {
    total := "";
    winCount := 0;
    var k := 0;
    while k < |matches|
      invariant 0 <= k <= |matches|
      invariant total == Concat(Terminate(Texts(matches[..k]), '\n'))
      invariant winCount == Matches.WinCount(Flags(matches[..k]))
    {
      TallyStep(matches, k);
      total := total + matches[k].text + "\n";
      winCount := winCount + if matches[k].win then 1 else 0;
      k := k + 1;
    }
    assert matches[..k] == matches;
  }

  lemma TallyStep(ms: seq<GameLine>, k: nat)
    requires k < |ms|
    ensures Concat(Terminate(Texts(ms[..k + 1]), '\n')) == Concat(Terminate(Texts(ms[..k]), '\n')) + ms[k].text + "\n"
    ensures Matches.WinCount(Flags(ms[..k + 1])) == Matches.WinCount(Flags(ms[..k])) + if ms[k].win then 1 else 0
  {
    var a := Terminate(Texts(ms[..k]), '\n');
    var b := Terminate(Texts(ms[..k + 1]), '\n');
    assert b == a + [ms[k].text + "\n"];
    ConcatAppend(a, ms[k].text + "\n");
    assert Flags(ms[..k + 1])[..k] == Flags(ms[..k]);
  }
}
