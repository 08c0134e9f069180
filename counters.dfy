/** The `counters` command, minus the browser: the page URL, the lane label,
    the three lists of picks and the embed they are put in.

    A pick is given as what its two selectors would extract from its anchor:
    the text nodes of the first name element and of the first win-rate
    element (`None` when the anchor has no such element). */
module Counters {
  import opened Results
  import opened Text
  import opened Types

  const NumChampCounters: nat := 10

  // ---------------------------------------------------------------------
  // Page URL
  // ---------------------------------------------------------------------

  const ChampionsBase: string := "https://u.gg/lol/champions/"

  /** The role query that follows `/counter`: none without a lane, and
      `/?role=` and the lane with one. */
  function RoleQuery(lane: Option<string>): string
  {
    if lane.Some? then "/?role=" + lane.value else ""
  }

  /** The counter page of a champion, with the lane as a `role` query
      parameter after a trailing slash when one is given. */
  function CounterUrl(champion: string, lane: Option<string>): string
  {
    ChampionsBase + champion + "/counter" + RoleQuery(lane)
  }

  /** The URL as `get_u_gg_document_body` assembles it, one `push_str` at a time. */
  method CounterPageUrl(champion: string, lane: Option<string>) returns (url: string)
    ensures url == CounterUrl(champion, lane)
  {
    url := [];
    url := url + ChampionsBase;
    url := url + champion;
    url := url + "/counter";
    ghost var head := url;
    if lane.Some? {
      url := url + "/";
      url := url + "?role=";
      url := url + lane.value;
      assert url == head + RoleQuery(lane);
    }
  }

  datatype CounterQuery = CounterQuery(champion: string, lane: Option<string>)

  /** Reads the lane back out of what follows `/counter`. */
  function ParseRoleQuery(t: string): Option<Option<string>>
  {
    if t == [] then Some(None)
    else if StartsWith(t, "/?role=") then Some(Some(t[7..]))
    else None
  }

  /** Reads the champion and lane out of what follows the base URL: the
      champion ends at the first '/'. */
  function ParseCounterPath(rest: string): Option<CounterQuery>
  {
    if '/' !in rest then None
    else
      var k := IndexOf(rest, '/');
      var after := rest[k..];
      if !StartsWith(after, "/counter") then None
      else
        match ParseRoleQuery(after[8..])
        case None => None
        case Some(lane) => Some(CounterQuery(rest[..k], lane))
  }

  /** Reads the champion and lane back out of a counter URL. */
  function ParseCounterUrl(url: string): Option<CounterQuery>
  {
    if !StartsWith(url, ChampionsBase) then None
    else ParseCounterPath(url[|ChampionsBase|..])
  }

  lemma ParseRoleQueryRoundTrip(lane: Option<string>)
    ensures ParseRoleQuery(RoleQuery(lane)) == Some(lane)
  {
    if lane.Some? {
      var t := RoleQuery(lane);
      assert t[..7] == "/?role=";
      assert t[7..] == lane.value;
    }
  }

  lemma ParseCounterPathRoundTrip(champion: string, lane: Option<string>)
    requires '/' !in champion
    ensures ParseCounterPath(champion + ("/counter" + RoleQuery(lane))) == Some(CounterQuery(champion, lane))
  {
    var after := "/counter" + RoleQuery(lane);
    var rest := champion + after;
    IndexOfAfter(champion, after, '/');
    assert rest[..|champion|] == champion;
    assert rest[|champion|..] == after;
    assert after[..8] == "/counter";
    assert after[8..] == RoleQuery(lane);
    ParseRoleQueryRoundTrip(lane);
  }

  /** The lane is whatever follows `?role=`, and a champion without '/'
      ends at the first '/' after the base, so both can be read back. */
  lemma ParseCounterUrlRoundTrip(champion: string, lane: Option<string>)
    requires '/' !in champion
    ensures ParseCounterUrl(CounterUrl(champion, lane)) == Some(CounterQuery(champion, lane))
  {
    var rest := champion + ("/counter" + RoleQuery(lane));
    var url := CounterUrl(champion, lane);
    assert url == ChampionsBase + rest;
    assert url[..|ChampionsBase|] == ChampionsBase;
    assert url[|ChampionsBase|..] == rest;
    ParseCounterPathRoundTrip(champion, lane);
  }

  /** Different requests whose champions have no '/' lead to different
      pages. */
  lemma CounterUrlInjective(c1: string, l1: Option<string>, c2: string, l2: Option<string>)
    requires '/' !in c1 && '/' !in c2
    requires CounterUrl(c1, l1) == CounterUrl(c2, l2)
    ensures c1 == c2 && l1 == l2
  {
    ParseCounterUrlRoundTrip(c1, l1);
    ParseCounterUrlRoundTrip(c2, l2);
  }

  // ---------------------------------------------------------------------
  // Lane label
  // ---------------------------------------------------------------------

  /** `get_lane`: an explicit lane is uppercased; otherwise the first text
      node of the role filter is trimmed but kept in its own case, and a
      page without the element or without text in it panics. */
  function GetLane(lane: Option<string>, roleText: Option<seq<string>>): (r: Run<string>)
    ensures lane.Some? ==> r == Ok(Upper(lane.value))
    ensures lane.None? ==> (r.Panic? <==> (roleText.None? || roleText.value == []))
    ensures lane.None? && r.Ok? ==> r.value == Trim(roleText.value[0])
    ensures !r.Err?
  {
    match lane
    case Some(x) => Ok(Upper(x))
    case None =>
      match FirstText(roleText)
      case Some(t) => Ok(Trim(t))
      case None => Panic
  }

  // ---------------------------------------------------------------------
  // Picks
  // ---------------------------------------------------------------------

  /** One anchor of a pick list: the text nodes of its name element and of
      its win-rate element, when the anchor has them. */
  datatype Pick = Pick(name: Option<seq<string>>, winrate: Option<seq<string>>)

  /** The row of one pick, before its line break: the trimmed name padded
      to at least 10 characters (a longer name is kept whole), then the
      win rate as the page shows it. */
  function PickRow(name: string, winrate: string): (r: string)
    ensures var width := if |Trim(name)| < 10 then 10 else |Trim(name)|;
      && |r| == width + 3 + |winrate|
      && StartsWith(r, Trim(name))
      && (forall i :: |Trim(name)| <= i < width ==> r[i] == ' ')
      && r[width..] == " - " + winrate
  {
    var t := Trim(name);
    var padded := PadRight(t, 10);
    var r := padded + (" - " + winrate);
    assert r[..|padded|] == padded;
    assert r[|padded|..] == " - " + winrate;
    assert r[..|t|] == padded[..|t|];
    r
  }

  /** A pick whose anchor lacks either text panics at its `unwrap` or `expect`. */
  function PickText(p: Pick): (r: Run<string>)
    ensures !r.Err?
    ensures r.Panic? <==> FirstText(p.name).None? || FirstText(p.winrate).None?
  {
    match (FirstText(p.name), FirstText(p.winrate))
    case (Some(n), Some(w)) => Ok(PickRow(n, w))
    case _ => Panic
  }

  /** Each pick rendered on its own, in order. */
  function PickResults(picks: seq<Pick>): (rs: seq<Run<string>>)
    ensures |rs| == |picks| && forall k :: 0 <= k < |picks| ==> rs[k] == PickText(picks[k])
  {
    seq(|picks|, k requires 0 <= k < |picks| => PickText(picks[k]))
  }

  /** The rows of the picks, in order; one malformed pick panics. */
  function PickRows(picks: seq<Pick>): (r: Run<seq<string>>)
    ensures !r.Err?
    ensures r.Ok? ==> |r.value| == |picks| && forall k :: 0 <= k < |picks| ==> PickText(picks[k]) == Ok(r.value[k])
    ensures r.Panic? <==> exists k :: 0 <= k < |picks| && PickText(picks[k]).Panic?
  {
    Collect(PickResults(picks))
  }

  /** The picks a category looks at: the first ten, or all when fewer. */
  function Taken(picks: seq<Pick>): (r: seq<Pick>)
    ensures |r| <= NumChampCounters && |r| <= |picks| && r == picks[..|r|]
    ensures |r| == NumChampCounters || r == picks
  {
    if |picks| <= NumChampCounters then picks else picks[..NumChampCounters]
  }

  /** One category: each taken pick rendered as its row and a line break,
      folded into one string in order. */
  function Category(picks: seq<Pick>): Run<string>
  {
    match PickRows(Taken(picks))
    case Ok(rows) => Ok(Concat(Terminate(rows, '\n')))
    case _ => Panic
  }

  /** Only the first ten picks are looked at: a malformed eleventh pick
      does not make the command panic. */
  lemma CategoryIgnoresTail(picks: seq<Pick>, more: seq<Pick>)
    requires |picks| >= NumChampCounters
    ensures Category(picks + more) == Category(picks[..NumChampCounters])
  {
    assert (picks + more)[..NumChampCounters] == picks[..NumChampCounters];
  }

  /** No text of the pick holds a line break. */
  predicate SingleLine(p: Pick)
  {
    (p.name.Some? ==> forall t :: t in p.name.value ==> '\n' !in t)
    && (p.winrate.Some? ==> forall t :: t in p.winrate.value ==> '\n' !in t)
  }

  lemma PickRowSingleLine(p: Pick)
    requires SingleLine(p) && PickText(p).Ok?
    ensures '\n' !in PickText(p).value
  {
    var n := FirstText(p.name).value;
    var w := FirstText(p.winrate).value;
    assert n in p.name.value && w in p.winrate.value;
    TrimKeepsOut(n, '\n');
    var padded := PadRight(Trim(n), 10);
    assert '\n' !in padded by {
      forall i | 0 <= i < |padded|
        ensures padded[i] != '\n'
      {
        if i < |Trim(n)| {
          assert padded[..|Trim(n)|][i] == Trim(n)[i];
        }
      }
    }
    assert PickText(p).value == padded + " - " + w;
  }

  /** A category body is empty exactly when no pick was taken, and
      otherwise ends in a line break; when no text holds a line break of its
      own, splitting the body at line breaks gives back its rows, in order,
      then the empty text after the last break. */
  lemma CategoryLines(picks: seq<Pick>)
    requires Category(picks).Ok?
    ensures var body := Category(picks).value;
      && (body == [] <==> Taken(picks) == [])
      && (body == [] || body[|body| - 1] == '\n')
    ensures (forall k :: 0 <= k < |picks| ==> SingleLine(picks[k])) ==>
      Split(Category(picks).value, '\n') == PickRows(Taken(picks)).value + [""]
  {
    var rows := PickRows(Taken(picks)).value;
    TerminatedEndsWith(rows, '\n');
    if forall k :: 0 <= k < |picks| ==> SingleLine(picks[k]) {
      forall i | 0 <= i < |rows|
        ensures '\n' !in rows[i]
      {
        assert PickText(Taken(picks)[i]) == Ok(rows[i]);
        PickRowSingleLine(Taken(picks)[i]);
      }
      TerminatedSplit(rows, '\n');
    }
  }

  // ---------------------------------------------------------------------
  // The embed
  // ---------------------------------------------------------------------

  /** What the page gives the command: the role filter's text nodes and the
      anchors of the three pick lists, in document order. */
  datatype CounterPage = CounterPage(roleText: Option<seq<string>>, best: seq<Pick>, worst: seq<Pick>, lanePicks: seq<Pick>)

  const BestHeading: string := "\U{1F7E2} - Best Picks"
  const WorstHeading: string := "\U{1F534} - Worst Picks"
  const LaneHeading: string := "\U{1F7E1} - Lane Picks"

  function CodeBlock(body: string): (r: string)
    ensures |r| == |body| + 6 && r[..3] == "```" && r[3..|r| - 3] == body && r[|r| - 3..] == "```"
  {
    "```" + body + "```"
  }

  /** `handle_counters_command`: a page that could not be loaded panics at
      its `unwrap`; otherwise the lane label and the three categories, each
      of which may panic, are put into a dark-green embed with an empty
      description, footer and content. */
  function HandleCounters(champion: string, lane: Option<string>, page: Option<CounterPage>): (r: Run<DiscordOutput>)
    ensures !r.Err?
    ensures r.Panic? <==>
      page.None? || GetLane(lane, page.value.roleText).Panic? || Category(page.value.best).Panic?
      || Category(page.value.worst).Panic? || Category(page.value.lanePicks).Panic?
    ensures r.Ok? ==>
      && r.value.color == DarkGreen
      && r.value.description == "" && r.value.footer == "" && r.value.content == ""
      && r.value.title == "Counter picks for " + champion + " (" + GetLane(lane, page.value.roleText).value + ")"
      && r.value.fields == [
           Field(BestHeading, CodeBlock(Category(page.value.best).value), false),
           Field(WorstHeading, CodeBlock(Category(page.value.worst).value), false),
           Field(LaneHeading, CodeBlock(Category(page.value.lanePicks).value), false)]
  {
    if page.None? then Panic
    else
      var p := page.value;
      var laneLabel := GetLane(lane, p.roleText);
      var best := Category(p.best);
      var worst := Category(p.worst);
      var picks := Category(p.lanePicks);
      if laneLabel.Ok? && best.Ok? && worst.Ok? && picks.Ok? then
        Ok(DiscordOutput(
          DarkGreen,
          "",
          [Field(BestHeading, CodeBlock(best.value), false),
           Field(WorstHeading, CodeBlock(worst.value), false),
           Field(LaneHeading, CodeBlock(picks.value), false)],
          "",
          "Counter picks for " + champion + " (" + laneLabel.value + ")",
          ""))
      else Panic
  }

  /** When no text holds a line break, a category shows at most ten lines
      (and the empty text after the last break). */
  lemma CategoryAtMostTenLines(picks: seq<Pick>)
    requires Category(picks).Ok?
    requires forall k :: 0 <= k < |picks| ==> SingleLine(picks[k])
    ensures |Split(Category(picks).value, '\n')| <= NumChampCounters + 1
  {
    CategoryLines(picks);
  }
}
