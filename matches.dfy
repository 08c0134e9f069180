/** The `matches` command: one embed field per fetched match, numbered in
    the order the responses arrive, and the win count over those matches. */
module Matches {
  import opened Results
  import opened Text
  import opened Types
  import Util

  // ---------------------------------------------------------------------
  // Locating the queried player and the lane opponent
  // ---------------------------------------------------------------------

  /** The position of the first participant with the queried puuid. */
  function FindMe(ps: seq<Participant>, puuid: string): (r: Option<nat>)
    ensures r.Some? ==> r.value < |ps| && ps[r.value].puuid == puuid
    ensures r.Some? ==> forall j :: 0 <= j < r.value ==> ps[j].puuid != puuid
    ensures r.None? ==> forall j :: 0 <= j < |ps| ==> ps[j].puuid != puuid
    decreases |ps|
  {
    if ps == [] then None
    else if ps[0].puuid == puuid then Some(0)
    else match FindMe(ps[1..], puuid)
      case None => None
      case Some(k) => Some(k + 1)
  }

  predicate IsOpponent(p: Participant, me: Participant)
  {
    p.teamId != me.teamId && p.teamPosition == me.teamPosition
  }

  /** The position of the first participant on another team in the same
      position as `me`; it is never `me` itself. */
  function FindOpponent(ps: seq<Participant>, me: Participant): (r: Option<nat>)
    ensures r.Some? ==> r.value < |ps| && IsOpponent(ps[r.value], me) && ps[r.value] != me
    ensures r.Some? ==> forall j :: 0 <= j < r.value ==> !IsOpponent(ps[j], me)
    ensures r.None? ==> forall j :: 0 <= j < |ps| ==> !IsOpponent(ps[j], me)
    decreases |ps|
  {
    if ps == [] then None
    else if IsOpponent(ps[0], me) then Some(0)
    else match FindOpponent(ps[1..], me)
      case None => None
      case Some(k) => Some(k + 1)
  }

  // ---------------------------------------------------------------------
  // One match
  // ---------------------------------------------------------------------

  /** A summarised match: its embed field and whether the player won. */
  datatype MatchLine = MatchLine(field: Field, win: bool)

  function WinWord(win: bool): string { if win then "won" else "lost" }

  lemma UpperWinWord(win: bool)
    ensures Upper(WinWord(win)) == if win then "WON" else "LOST"
  {
    var w := WinWord(win);
    var u := Upper(w);
    if win {
      assert u[0] == 'W' && u[1] == 'O' && u[2] == 'N';
    } else {
      assert u[0] == 'L' && u[1] == 'O' && u[2] == 'S' && u[3] == 'T';
    }
  }

  function Kda(p: Participant): string
  {
    IntToString(p.kills as int) + "/" + IntToString(p.deaths as int) + "/" + IntToString(p.assists as int)
  }

  function Header(n: int, me: Participant): string
  {
    IntToString(n) + ": " + Upper(me.teamPosition) + " (" + Upper(WinWord(me.win)) + ")"
  }

  function Body(me: Participant, opponent: Participant): string
  {
    "```(" + Kda(me) + ")\n" + me.championName + "\nvs.\n(" + Kda(opponent) + ")\n"
    + opponent.championName + "\n(" + opponent.riotIdGameName + ")```"
  }

  /** `get_match_info`: an empty participant list is an error; a match in
      which the player or the lane opponent cannot be found panics. */
  function GetMatchInfo(m: MatchDto, n: int, puuid: string): (r: Run<MatchLine>)
    ensures var ps := m.info.participants;
      && (r.Err? <==> ps == [])
      && (r.Err? ==> r.error == Message("No participants found"))
      && (r.Panic? <==> ps != [] && (FindMe(ps, puuid).None? || FindOpponent(ps, ps[FindMe(ps, puuid).value]).None?))
  {
    var ps := m.info.participants;
    if |ps| == 0 then Err(Message("No participants found"))
    else match FindMe(ps, puuid)
      case None => Panic
      case Some(i) =>
        var me := ps[i];
        match FindOpponent(ps, me)
        case None => Panic
        case Some(j) => Ok(MatchLine(Field(Header(n, me), Body(me, ps[j]), true), me.win))
  }

  /** A summarised match: the field is headed by the number, the player's
      position and the outcome, inline, and carries the player's own win
      flag; the opponent is on the other team in the same position. */
  lemma GetMatchInfoField(m: MatchDto, n: int, puuid: string)
    requires GetMatchInfo(m, n, puuid).Ok?
    ensures var r := GetMatchInfo(m, n, puuid).value;
      var ps := m.info.participants;
      var me := ps[FindMe(ps, puuid).value];
      var opponent := ps[FindOpponent(ps, me).value];
      && me.puuid == puuid && IsOpponent(opponent, me) && opponent != me
      && r.win == me.win && r.field.inline
      && r.field.name == IntToString(n) + ": " + Upper(me.teamPosition) + (if me.win then " (WON)" else " (LOST)")
      && r.field.value == Body(me, opponent)
  {
    var ps := m.info.participants;
    var me := ps[FindMe(ps, puuid).value];
    var opponent := ps[FindOpponent(ps, me).value];
    assert GetMatchInfo(m, n, puuid).value == MatchLine(Field(Header(n, me), Body(me, opponent), true), me.win);
    HeaderOutcome(n, me);
  }

  lemma HeaderOutcome(n: int, me: Participant)
    ensures Header(n, me) == IntToString(n) + ": " + Upper(me.teamPosition) + (if me.win then " (WON)" else " (LOST)")
  {
    UpperWinWord(me.win);
  }

  // ---------------------------------------------------------------------
  // All matches
  // ---------------------------------------------------------------------

  /** One joined response: the request future returned `Err`, which the
      loop skips, or a reply whose body did or did not deserialise into a
      match document.  The retry loop never returns `Err` (a transport
      error panics inside it, see `Joined`), so the skipping arm is dead in
      the program; it is kept to model the loop as written. */
  datatype MatchResponse = TransportFailed | Received(body: Option<MatchDto>)

  /** What the future of one match request hands `join_all`: a panic when
      the retry loop panicked, otherwise the reply it returned, with its
      body as `resp.json::<MatchDto>()` reads it. */
  function Joined(run: Util.RetryRun, decode: string -> Option<MatchDto>): (r: Run<MatchResponse>)
    ensures !r.Err?
    ensures r.Panic? <==> run.outcome.Panicked?
    ensures r.Ok? ==> r.value.Received? && r.value.body == decode(run.outcome.response.body)
  {
    match run.outcome
    case Panicked => Panic
    case Returned(resp) => Ok(Received(decode(resp.body)))
  }

  /** The loop over the responses, as a function of how many it has seen:
      responses skipped as `Err` take no number, an undecodable body ends everything
      with an error, a match that cannot be summarised panics at `unwrap`,
      and every other match gets the next number. */
  function Collected(rs: seq<MatchResponse>, puuid: string): Run<seq<MatchLine>>
    decreases |rs|
  {
    if rs == [] then Ok([])
    else match Collected(rs[..|rs| - 1], puuid)
      case Ok(prev) =>
        (match rs[|rs| - 1]
         case TransportFailed => Ok(prev)
         case Received(None) => Err(Decode)
         case Received(Some(m)) =>
           match GetMatchInfo(m, |prev| + 1, puuid)
           case Ok(line) => Ok(prev + [line])
           case _ => Panic)
      case Err(e) => Err(e)
      case Panic => Panic
  }

  /** The bodies of the responses that arrived, in order. */
  function Answered(rs: seq<MatchResponse>): (bodies: seq<Option<MatchDto>>)
    ensures |bodies| <= |rs|
    decreases |rs|
  {
    if rs == [] then []
    else match rs[|rs| - 1]
      case TransportFailed => Answered(rs[..|rs| - 1])
      case Received(b) => Answered(rs[..|rs| - 1]) + [b]
  }

  /** The k-th line is the summary of the k-th body that arrived, numbered k + 1. */
  ghost predicate NumberedAt(bodies: seq<Option<MatchDto>>, ms: seq<MatchLine>, k: nat, puuid: string)
    requires k < |bodies| && k < |ms|
  {
    bodies[k].Some? && GetMatchInfo(bodies[k].value, k + 1, puuid) == Ok(ms[k])
  }

  /** When every future returned (none panicked), every response arrived:
      the loop sees one body per request, in request order. */
  lemma {:induction false} AllArrived(rs: seq<MatchResponse>)
    requires forall k :: 0 <= k < |rs| ==> rs[k].Received?
    ensures |Answered(rs)| == |rs|
    ensures forall k :: 0 <= k < |rs| ==> Answered(rs)[k] == rs[k].body
    decreases |rs|
  {
    if rs != [] {
      var init := rs[..|rs| - 1];
      AllArrived(init);
      assert Answered(rs) == Answered(init) + [rs[|rs| - 1].body];
    }
  }

  /** Numbering: when the loop finishes, there is one line per response that
      arrived, in arrival order, and the k-th of them carries the number k + 1; a
      response skipped as `Err` takes no number. */
  lemma {:induction false} CollectedNumbersAnsweredMatches(rs: seq<MatchResponse>, puuid: string)
    requires Collected(rs, puuid).Ok?
    ensures var ms := Collected(rs, puuid).value;
      |ms| == |Answered(rs)| && forall k: nat :: k < |ms| ==> NumberedAt(Answered(rs), ms, k, puuid)
    decreases |rs|
  {
    if rs != [] {
      var init := rs[..|rs| - 1];
      CollectedNumbersAnsweredMatches(init, puuid);
      var prev := Collected(init, puuid).value;
      var ms := Collected(rs, puuid).value;
      match rs[|rs| - 1]
      case TransportFailed =>
        assert ms == prev && Answered(rs) == Answered(init);
      case Received(b) =>
        var line := GetMatchInfo(b.value, |prev| + 1, puuid);
        var bodies := Answered(rs);
        assert bodies == Answered(init) + [b];
        assert ms == prev + [line.value];
        forall k: nat | k < |ms|
          ensures NumberedAt(bodies, ms, k, puuid)
        {
          if k < |prev| {
            assert NumberedAt(Answered(init), prev, k, puuid);
          }
        }
    }
  }

  /** Once the loop has failed, the later responses do not change the outcome. */
  lemma {:induction false} CollectedFailureSticks(rs: seq<MatchResponse>, i: nat, puuid: string)
    requires i <= |rs|
    requires !Collected(rs[..i], puuid).Ok?
    ensures Collected(rs, puuid) == Collected(rs[..i], puuid)
    decreases |rs| - i
  {
    if i < |rs| {
      assert rs[..i + 1][..i] == rs[..i];
      CollectedFailureSticks(rs, i + 1, puuid);
    } else {
      assert rs[..i] == rs;
    }
  }

  /** The win flags of the summarised matches, in order. */
  function WinFlags(ms: seq<MatchLine>): (ws: seq<bool>)
    ensures |ws| == |ms| && forall k :: 0 <= k < |ms| ==> ws[k] == ms[k].win
  {
    seq(|ms|, k requires 0 <= k < |ms| => ms[k].win)
  }

  /** `fold(0, |acc, (_, win)| acc + win as i32)`: one for every win, in order. */
  function WinCount(ws: seq<bool>): (w: nat)
    ensures w <= |ws|
    decreases |ws|
  {
    if ws == [] then 0 else WinCount(ws[..|ws| - 1]) + (if ws[|ws| - 1] then 1 else 0)
  }

  function WonIndices(ws: seq<bool>): set<nat>
  {
    set k: nat | k < |ws| && ws[k]
  }

  /** The fold counts exactly the matches that were won. */
  lemma {:induction false} WinCountCountsWins(ws: seq<bool>)
    ensures WinCount(ws) == |WonIndices(ws)|
    decreases |ws|
  {
    if ws != [] {
      var init := ws[..|ws| - 1];
      WinCountCountsWins(init);
      var last := |ws| - 1;
      if ws[last] {
        assert WonIndices(ws) == WonIndices(init) + {last};
      } else {
        assert WonIndices(ws) == WonIndices(init);
      }
    }
  }

  function Fields(ms: seq<MatchLine>): (fs: seq<Field>)
    ensures |fs| == |ms| && forall k :: 0 <= k < |ms| ==> fs[k] == ms[k].field
  {
    seq(|ms|, k requires 0 <= k < |ms| => ms[k].field)
  }

  /** The description; the percentage is rendered by `formatRate` (it is a
      floating-point value in the bot). */
  function WinrateDescription(formatRate: (nat, nat) -> string, wins: nat, total: nat): string
  {
    "Winrate: " + formatRate(wins, total) + "% (" + NatToString(wins) + "/" + NatToString(total) + ")"
  }

  function Summary(ms: seq<MatchLine>, playerName: string, formatRate: (nat, nat) -> string): (o: DiscordOutput)
    ensures o.color == DarkGreen && o.footer == "" && o.content == ""
    ensures o.title == playerName + "'s Matches"
    ensures o.fields == Fields(ms)
  {
    var w := WinCount(WinFlags(ms));
    NewDiscordOutput(DarkGreen, WinrateDescription(formatRate, w, |ms|), Fields(ms), "", playerName + "'s Matches", "")
  }

  /** What `get_matches_info` hands back, given the joined responses. */
  function MatchesOutput(rs: seq<MatchResponse>, ctx: AccountInfoContext, formatRate: (nat, nat) -> string): Run<DiscordOutput>
  {
    match Collected(rs, ctx.puuid)
    case Ok(ms) => Ok(Summary(ms, ctx.playerName, formatRate))
    case Err(e) => Err(e)
    case Panic => Panic
  }

  /** The loop of `get_matches_info` over the joined responses, followed by
      the win count and the embed. */
  method GetMatchesInfo(rs: seq<MatchResponse>, ctx: AccountInfoContext, formatRate: (nat, nat) -> string)
    returns (r: Run<DiscordOutput>)
    ensures r == MatchesOutput(rs, ctx, formatRate)
  {
    var matches: seq<MatchLine> := [];
    var count: nat := 1;
    var i := 0;
    while i < |rs|
      invariant 0 <= i <= |rs|
      invariant Collected(rs[..i], ctx.puuid) == Ok(matches)
      invariant count == |matches| + 1
    {
      assert rs[..i + 1][..i] == rs[..i];
      match rs[i] {
        case TransportFailed =>
        case Received(body) =>
          if body.None? {
            CollectedFailureSticks(rs, i + 1, ctx.puuid);
            return Err(Decode);
          }
          var info := GetMatchInfo(body.value, count, ctx.puuid);
          if !info.Ok? {
            CollectedFailureSticks(rs, i + 1, ctx.puuid);
            return Panic;
          }
          matches := matches + [info.value];
          count := count + 1;
      }
      i := i + 1;
    }
    assert rs[..i] == rs;
    var winCount := WinCount(WinFlags(matches));
    r := Ok(NewDiscordOutput(DarkGreen, WinrateDescription(formatRate, winCount, |matches|),
                             Fields(matches), "", ctx.playerName + "'s Matches", ""));
  }

  /** The headline numbers: the win count never exceeds the number of
      summarised matches, which is the number of responses that arrived. */
  lemma MatchesWinCountBounded(rs: seq<MatchResponse>, ctx: AccountInfoContext, formatRate: (nat, nat) -> string)
    requires Collected(rs, ctx.puuid).Ok?
    ensures var ms := Collected(rs, ctx.puuid).value;
      WinCount(WinFlags(ms)) <= |ms| == |Answered(rs)| &&
      MatchesOutput(rs, ctx, formatRate).value.description
        == WinrateDescription(formatRate, |WonIndices(WinFlags(ms))|, |Answered(rs)|)
  {
    var ms := Collected(rs, ctx.puuid).value;
    CollectedNumbersAnsweredMatches(rs, ctx.puuid);
    WinCountCountsWins(WinFlags(ms));
  }
}
