/** The `build` command, minus the browser: the page URL, the lane label,
    the chosen rune in every row of the rune trees, and the title.

    The page is given as what the selectors would extract from it: for a
    text element, the text nodes of the first match (`None` when nothing
    matches); for a rune row, the `class` attribute of each child element
    in document order (`None` for a child without one). */
module Build {
  import opened Results
  import opened Text

  // ---------------------------------------------------------------------
  // Page URL
  // ---------------------------------------------------------------------

  const ChampionsBase: string := "https://u.gg/lol/champions/"

  /** The build page of `champion1`, then the lane as a path segment, then
      the opponent as the `opp` query parameter. */
  function BuildUrl(champion1: string, champion2: Option<string>, lane: Option<string>): string
  {
    ChampionsBase + champion1 + "/build" + LaneText(lane) + QueryText(champion2)
  }

  /** The URL as `get_u_gg_document_body` assembles it, by reassigning a
      mutable string. */
  method BuildPageUrl(champion1: string, champion2: Option<string>, lane: Option<string>) returns (url: string)
    ensures url == BuildUrl(champion1, champion2, lane)
  {
    url := ChampionsBase + champion1 + "/build";
    ghost var head := url;
    match lane {
      case Some(x) => url := url + "/" + x;
      case None =>
    }
    assert url == head + LaneText(lane);
    ghost var middle := url;
    match champion2 {
      case Some(x) => url := url + "?opp=" + x;
      case None =>
    }
    assert url == middle + QueryText(champion2);
  }

  datatype BuildQuery = BuildQuery(champion1: string, champion2: Option<string>, lane: Option<string>)

  /** The text after `/build`: the lane segment, if any, then the query. */
  function LaneText(lane: Option<string>): string
  {
    if lane.Some? then "/" + lane.value else ""
  }

  function QueryText(champion2: Option<string>): string
  {
    if champion2.Some? then "?opp=" + champion2.value else ""
  }

  /** Reads the opponent back out of the query part. */
  function ParseQuery(query: string): Option<Option<string>>
  {
    if query == [] then Some(None)
    else if StartsWith(query, "?opp=") then Some(Some(query[5..]))
    else None
  }

  /** Splits the text after `/build` into lane and opponent: a leading '/'
      opens the lane segment, which runs to the first '?'. */
  function ParseTail(tail: string): Option<(Option<string>, Option<string>)>
  {
    if tail != [] && tail[0] == '/' then
      var segment := tail[1..];
      var lane := if '?' in segment then segment[..IndexOf(segment, '?')] else segment;
      match ParseQuery(segment[|lane|..])
      case Some(opp) => Some((Some(lane), opp))
      case None => None
    else
      match ParseQuery(tail)
      case Some(opp) => Some((None, opp))
      case None => None
  }

  /** Reads the champion, lane and opponent back out of a build URL. */
  function ParseBuildUrl(url: string): Option<BuildQuery>
  {
    if !StartsWith(url, ChampionsBase) then None
    else
      var rest := url[|ChampionsBase|..];
      if '/' !in rest then None
      else
        var k := IndexOf(rest, '/');
        var after := rest[k..];
        if !StartsWith(after, "/build") then None
        else
          match ParseTail(after[6..])
          case Some(parts) => Some(BuildQuery(rest[..k], parts.1, parts.0))
          case None => None
  }

  lemma ParseQueryRoundTrip(champion2: Option<string>)
    ensures ParseQuery(QueryText(champion2)) == Some(champion2)
  {
    if champion2.Some? {
      var q := QueryText(champion2);
      assert q[..5] == "?opp=";
      assert q[5..] == champion2.value;
    }
  }

  /** Without a lane, the whole tail is the query. */
  lemma ParseTailNoLane(champion2: Option<string>)
    ensures ParseTail(QueryText(champion2)) == Some((None, champion2))
  {
    ParseQueryRoundTrip(champion2);
  }

  /** A lane segment runs up to the query, which starts with the lane's first '?'. */
  lemma ParseTailWithLane(champion2: Option<string>, l: string)
    requires '?' !in l
    ensures ParseTail("/" + l + QueryText(champion2)) == Some((Some(l), champion2))
  {
    var q := QueryText(champion2);
    var tail := "/" + l + q;
    var segment := tail[1..];
    assert segment == l + q;
    ParseQueryRoundTrip(champion2);
    if champion2.Some? {
      IndexOfAfter(l, q, '?');
      assert segment[..IndexOf(segment, '?')] == l;
    } else {
      assert segment == l;
    }
    assert segment[|l|..] == q;
  }

  lemma ParseTailRoundTrip(champion2: Option<string>, lane: Option<string>)
    requires lane.Some? ==> '?' !in lane.value
    ensures ParseTail(LaneText(lane) + QueryText(champion2)) == Some((lane, champion2))
  {
    match lane {
      case None =>
        assert LaneText(lane) + QueryText(champion2) == QueryText(champion2);
        ParseTailNoLane(champion2);
      case Some(l) =>
        ParseTailWithLane(champion2, l);
    }
  }

  /** The champion ends at the first '/', so everything after `/build` is
      left to `ParseTail`. */
  lemma ParseBuildUrlSplit(champion1: string, tail: string)
    requires '/' !in champion1
    ensures ParseBuildUrl(ChampionsBase + champion1 + "/build" + tail) ==
      match ParseTail(tail)
      case Some(parts) => Some(BuildQuery(champion1, parts.1, parts.0))
      case None => None
  {
    var after := "/build" + tail;
    var rest := champion1 + after;
    var url := ChampionsBase + champion1 + "/build" + tail;
    assert url == ChampionsBase + rest;
    assert url[..|ChampionsBase|] == ChampionsBase;
    assert url[|ChampionsBase|..] == rest;
    IndexOfAfter(champion1, after, '/');
    assert rest[..|champion1|] == champion1;
    assert rest[|champion1|..] == after;
    assert after[..6] == "/build";
    assert after[6..] == tail;
  }

  /** The URL keeps the three arguments apart, lane before query: as long as
      the champion has no '/' and the lane no '?', they can be read back. */
  lemma ParseBuildUrlRoundTrip(champion1: string, champion2: Option<string>, lane: Option<string>)
    requires '/' !in champion1
    requires lane.Some? ==> '?' !in lane.value
    ensures ParseBuildUrl(BuildUrl(champion1, champion2, lane)) == Some(BuildQuery(champion1, champion2, lane))
  {
    var tail := LaneText(lane) + QueryText(champion2);
    assert BuildUrl(champion1, champion2, lane) == ChampionsBase + champion1 + "/build" + tail;
    ParseBuildUrlSplit(champion1, tail);
    ParseTailRoundTrip(champion2, lane);
  }

  // ---------------------------------------------------------------------
  // Lane label
  // ---------------------------------------------------------------------

  /** `get_lane`: an explicit lane is uppercased without looking at the
      page; otherwise the text of the active role filter is joined,
      trimmed and uppercased, and a page without one panics. */
  function GetLane(lane: Option<string>, activeRole: Option<seq<string>>): (r: Run<string>)
    ensures lane.Some? ==> r == Ok(Upper(lane.value))
    ensures lane.None? ==> (r.Panic? <==> activeRole.None?)
    ensures lane.None? && r.Ok? ==> r.value == Upper(Trim(Concat(activeRole.value)))
    ensures !r.Err?
    ensures r.Ok? ==> forall i :: 0 <= i < |r.value| ==> !IsLower(r.value[i])
  {
    match lane
    case Some(x) => Ok(Upper(x))
    case None =>
      match activeRole
      case None => Panic
      case Some(texts) => Ok(Upper(Trim(Concat(texts))))
  }

  // ---------------------------------------------------------------------
  // Runes
  // ---------------------------------------------------------------------

  /** The outcome of `position` over a row's children: the first child whose
      class contains the marker, no such child, or a child without a class
      reached before any match (its `unwrap` panics). */
  datatype Search = Found(index: nat) | NotFound | ClassMissing

  function FindActive(children: seq<Option<string>>, marker: string): (r: Search)
    ensures r.Found? ==> r.index < |children| && children[r.index].Some? && Contains(children[r.index].value, marker)
    ensures !r.ClassMissing? ==>
      forall j :: 0 <= j < (if r.Found? then r.index else |children|) ==>
        children[j].Some? && !Contains(children[j].value, marker)
    ensures r.ClassMissing? ==>
      exists k :: 0 <= k < |children| && children[k].None? &&
        forall j :: 0 <= j < k ==> children[j].Some? && !Contains(children[j].value, marker)
    decreases |children|
  {
    if children == [] then NotFound
    else if children[0].None? then ClassMissing
    else if Contains(children[0].value, marker) then Found(0)
    else match FindActive(children[1..], marker)
      case Found(k) => Found(k + 1)
      case NotFound => NotFound
      case ClassMissing =>
        ghost var k :| 0 <= k < |children| - 1 && children[1..][k].None? &&
          forall j :: 0 <= j < k ==> children[1..][j].Some? && !Contains(children[1..][j].value, marker);
        assert children[k + 1].None?;
        ClassMissing
  }

  /** What a row gives when no child is active: a fixed index, or a panic. */
  function RowIndex(children: seq<Option<string>>, marker: string, ifNone: Option<nat>): Run<nat>
  {
    match FindActive(children, marker)
    case Found(i) => Ok(i)
    case NotFound => if ifNone.Some? then Ok(ifNone.value) else Panic
    case ClassMissing => Panic
  }

  /** Each row's index on its own, in row order. */
  function RowResults(rows: seq<seq<Option<string>>>, marker: string, ifNone: Option<nat>): (rs: seq<Run<nat>>)
    ensures |rs| == |rows| && forall k :: 0 <= k < |rows| ==> rs[k] == RowIndex(rows[k], marker, ifNone)
  {
    seq(|rows|, k requires 0 <= k < |rows| => RowIndex(rows[k], marker, ifNone))
  }

  /** One index per row, in row order; any row that panics makes the whole
      collection panic. */
  function RowIndices(rows: seq<seq<Option<string>>>, marker: string, ifNone: Option<nat>): (r: Run<seq<nat>>)
    ensures !r.Err?
    ensures r.Ok? ==> |r.value| == |rows| && forall k :: 0 <= k < |rows| ==> RowIndex(rows[k], marker, ifNone) == Ok(r.value[k])
    ensures r.Panic? <==> exists k :: 0 <= k < |rows| && RowIndex(rows[k], marker, ifNone).Panic?
  {
    Collect(RowResults(rows, marker, ifNone))
  }

  /** `usize::MAX` on a 64-bit target: the index recorded for a secondary
      row without an active child. */
  const UsizeMax: nat := 0xFFFF_FFFF_FFFF_FFFF

  datatype RuneBuildInfo = RuneBuildInfo(title: string, perks: seq<nat>)

  datatype RuneBuild = RuneBuild(primary: RuneBuildInfo, secondary: RuneBuildInfo, shards: RuneBuildInfo)

  datatype RunePage = RunePage(
    primaryTitle: Option<seq<string>>,
    primaryRows: seq<seq<Option<string>>>,
    secondaryTitle: Option<seq<string>>,
    secondaryRows: seq<seq<Option<string>>>,
    shardRows: seq<seq<Option<string>>>)

  const PerkActive: string := "perk-active"
  const ShardActive: string := "shard-active"

  /** `get_runes`: the tree titles are the joined text of their elements; a
      primary row must have an active perk, a secondary row without one
      records `usize::MAX`, and a shard row must have an active shard. */
  function GetRunes(page: RunePage): (r: Run<RuneBuild>)
    ensures !r.Err?
    ensures r.Panic? <==>
      page.primaryTitle.None? || page.secondaryTitle.None?
      || RowIndices(page.primaryRows, PerkActive, None).Panic?
      || RowIndices(page.secondaryRows, PerkActive, Some(UsizeMax)).Panic?
      || RowIndices(page.shardRows, ShardActive, None).Panic?
    ensures r.Ok? ==>
      && r.value.primary.title == Concat(page.primaryTitle.value)
      && r.value.secondary.title == Concat(page.secondaryTitle.value)
      && r.value.shards.title == "Stat Shards"
      && |r.value.primary.perks| == |page.primaryRows|
      && |r.value.secondary.perks| == |page.secondaryRows|
      && |r.value.shards.perks| == |page.shardRows|
  {
    if page.primaryTitle.None? then Panic
    else match RowIndices(page.primaryRows, PerkActive, None)
      case Ok(primary) =>
        if page.secondaryTitle.None? then Panic
        else
          (match RowIndices(page.secondaryRows, PerkActive, Some(UsizeMax))
           case Ok(secondary) =>
             (match RowIndices(page.shardRows, ShardActive, None)
              case Ok(shards) =>
                Ok(RuneBuild(RuneBuildInfo(Concat(page.primaryTitle.value), primary),
                             RuneBuildInfo(Concat(page.secondaryTitle.value), secondary),
                             RuneBuildInfo("Stat Shards", shards)))
              case _ => Panic)
           case _ => Panic)
      case _ => Panic
  }

  /** The index `position` returns for a row: the child at `i` is classed
      and carries the marker, and every earlier child is classed and does
      not carry it. */
  ghost predicate FirstActive(children: seq<Option<string>>, marker: string, i: nat)
  {
    && i < |children| && children[i].Some? && Contains(children[i].value, marker)
    && forall j :: 0 <= j < i ==> children[j].Some? && !Contains(children[j].value, marker)
  }

  /** Every primary and shard index is the first child of its row whose
      class carries the active marker; a secondary index is such a position
      or `usize::MAX` for a row with no active child. */
  lemma RuneIndicesPointAtActiveChildren(page: RunePage)
    requires GetRunes(page).Ok?
    ensures var b := GetRunes(page).value;
      && (forall k :: 0 <= k < |b.primary.perks| ==> FirstActive(page.primaryRows[k], PerkActive, b.primary.perks[k]))
      && (forall k :: 0 <= k < |b.secondary.perks| ==>
            FirstActive(page.secondaryRows[k], PerkActive, b.secondary.perks[k])
            || (b.secondary.perks[k] == UsizeMax && forall j :: 0 <= j < |page.secondaryRows[k]| ==>
                  page.secondaryRows[k][j].Some? && !Contains(page.secondaryRows[k][j].value, PerkActive)))
      && (forall k :: 0 <= k < |b.shards.perks| ==> FirstActive(page.shardRows[k], ShardActive, b.shards.perks[k]))
  {
    var b := GetRunes(page).value;
    forall k | 0 <= k < |b.primary.perks|
      ensures FirstActive(page.primaryRows[k], PerkActive, b.primary.perks[k])
    {
      assert RowIndex(page.primaryRows[k], PerkActive, None) == Ok(b.primary.perks[k]);
    }
    forall k | 0 <= k < |b.secondary.perks|
      ensures FirstActive(page.secondaryRows[k], PerkActive, b.secondary.perks[k])
        || (b.secondary.perks[k] == UsizeMax && forall j :: 0 <= j < |page.secondaryRows[k]| ==>
              page.secondaryRows[k][j].Some? && !Contains(page.secondaryRows[k][j].value, PerkActive))
    {
      assert RowIndex(page.secondaryRows[k], PerkActive, Some(UsizeMax)) == Ok(b.secondary.perks[k]);
    }
    forall k | 0 <= k < |b.shards.perks|
      ensures FirstActive(page.shardRows[k], ShardActive, b.shards.perks[k])
    {
      assert RowIndex(page.shardRows[k], ShardActive, None) == Ok(b.shards.perks[k]);
    }
  }

  // ---------------------------------------------------------------------
  // Title
  // ---------------------------------------------------------------------

  /** `capitalize_string`: the first character uppercased, the rest as is. */
  function Capitalize(s: string): (r: string)
    ensures |r| == |s|
    ensures s != [] ==> r[0] == UpperChar(s[0]) && r[1..] == s[1..]
  {
    if s == [] then "" else [UpperChar(s[0])] + s[1..]
  }

  lemma CapitalizeIdempotent(s: string)
    ensures Capitalize(Capitalize(s)) == Capitalize(s)
  {
  }

  /** `get_title`: the lane in parentheses, then both champions capitalised
      and set against each other, or the one champion exactly as given. */
  function GetTitle(champion1: string, champion2: Option<string>, lane: string): (r: string)
    ensures var head := "(" + lane + ") ";
      StartsWith(r, head) &&
      r[|head|..] == if champion2.Some? then Capitalize(champion1) + " vs. " + Capitalize(champion2.value) else champion1
  {
    match champion2
    case Some(enemy) => "(" + lane + ") " + Capitalize(champion1) + " vs. " + Capitalize(enemy)
    case None => "(" + lane + ") " + champion1
  }
}
