/** The `tierlist` command, minus the browser: the page URL, the first
    `count` rows of the table and the embed they are put in.

    A row is given as what its two selectors would extract from it: the
    text nodes of the name cell and of the win-rate cell (`None` when the
    row has no such cell). */
module TierList {
  import opened Results
  import opened Text
  import opened Types

  // ---------------------------------------------------------------------
  // Page URL
  // ---------------------------------------------------------------------

  const TierListBase: string := "https://u.gg/lol/"
  const TierListPage: string := "tier-list"

  /** The path prefix naming the lane: none for all lanes, `top-lane-` for
      the top lane, and the lane and a dash for any other. */
  function LanePrefix(lane: Option<string>): string
  {
    match lane
    case None => ""
    case Some(l) => if l == "top" then "top-lane-" else l + "-"
  }

  function TierListUrl(lane: Option<string>): string
  {
    TierListBase + LanePrefix(lane) + TierListPage
  }

  /** Reads the lane back out of a tier-list URL. */
  function ParseTierListUrl(url: string): Option<Option<string>>
  {
    if |url| < |TierListBase| + |TierListPage| || !StartsWith(url, TierListBase)
       || url[|url| - |TierListPage|..] != TierListPage
    then None
    else
      var prefix := url[|TierListBase|..|url| - |TierListPage|];
      if prefix == [] then Some(None)
      else if prefix == "top-lane-" then Some(Some("top"))
      else if prefix[|prefix| - 1] == '-' then Some(Some(prefix[..|prefix| - 1]))
      else None
  }

  /** Every lane but one can be read back from its URL. */
  lemma ParseTierListUrlRoundTrip(lane: Option<string>)
    requires lane != Some("top-lane")
    ensures ParseTierListUrl(TierListUrl(lane)) == Some(lane)
  {
    var prefix := LanePrefix(lane);
    var url := TierListUrl(lane);
    assert url[..|TierListBase|] == TierListBase;
    assert url[|url| - |TierListPage|..] == TierListPage;
    assert url[|TierListBase|..|url| - |TierListPage|] == prefix;
    if lane.Some? && lane.value != "top" {
      assert prefix[..|prefix| - 1] == lane.value;
      assert (lane.value + "-")[..|lane.value|] == lane.value;
      assert "top-lane-"[..8] == "top-lane";
      assert prefix != "top-lane-";
    }
  }

  /** The exception: the lane "top-lane" is sent to the same page as "top". */
  lemma TopLaneAlias()
    ensures TierListUrl(Some("top-lane")) == TierListUrl(Some("top"))
    ensures ParseTierListUrl(TierListUrl(Some("top-lane"))) == Some(Some("top"))
  {
    ParseTierListUrlRoundTrip(Some("top"));
  }

  // ---------------------------------------------------------------------
  // Rows
  // ---------------------------------------------------------------------

  datatype TierEntry = TierEntry(name: Option<seq<string>>, winrate: Option<seq<string>>)

  /** Two columns, each padded to at least 20 characters, around " - ". */
  function Columns(a: string, b: string): (r: string)
    ensures var width := if |a| < 20 then 20 else |a|;
      && |r| == width + 3 + (if |b| < 20 then 20 else |b|)
      && StartsWith(r, a)
      && (forall i :: |a| <= i < width ==> r[i] == ' ')
      && r[width..width + 3] == " - "
  {
    var n := PadRight(a, 20);
    var r := n + (" - " + PadRight(b, 20));
    assert r[..|n|] == n;
    assert r[..|a|] == n[..|a|];
    r
  }

  /** The second column follows the separator, and only padding follows it. */
  lemma ColumnsSecond(a: string, b: string)
    ensures var r := Columns(a, b);
      var width := if |a| < 20 then 20 else |a|;
      && r[width + 3..width + 3 + |b|] == b
      && (forall i :: width + 3 + |b| <= i < |r| ==> r[i] == ' ')
  {
    var n := PadRight(a, 20);
    var w := PadRight(b, 20);
    var r := Columns(a, b);
    assert r[|n| + 3..] == w;
    assert r[|n| + 3..|n| + 3 + |b|] == w[..|b|];
  }

  /** The line of one row: the trimmed name and the trimmed win rate, as
      two padded columns. */
  function TierLine(name: string, winrate: string): (r: string)
    ensures |r| >= 43
  {
    Columns(Trim(name), Trim(winrate))
  }

  /** A row missing either cell or its text panics at the `unwrap`. */
  function EntryText(e: TierEntry): (r: Run<string>)
    ensures !r.Err?
    ensures r.Panic? <==> FirstText(e.name).None? || FirstText(e.winrate).None?
  {
    match (FirstText(e.name), FirstText(e.winrate))
    case (Some(n), Some(w)) => Ok(TierLine(n, w))
    case _ => Panic
  }

  /** Each row rendered on its own, in order. */
  function EntryResults(entries: seq<TierEntry>): (rs: seq<Run<string>>)
    ensures |rs| == |entries| && forall k :: 0 <= k < |entries| ==> rs[k] == EntryText(entries[k])
  {
    seq(|entries|, k requires 0 <= k < |entries| => EntryText(entries[k]))
  }

  /** The lines of the rows, in order; one malformed row panics. */
  function TierLines(entries: seq<TierEntry>): (r: Run<seq<string>>)
    ensures !r.Err?
    ensures r.Ok? ==> |r.value| == |entries| && forall k :: 0 <= k < |entries| ==> EntryText(entries[k]) == Ok(r.value[k])
    ensures r.Panic? <==> exists k :: 0 <= k < |entries| && EntryText(entries[k]).Panic?
  {
    Collect(EntryResults(entries))
  }

  /** `take(count)`: the first `count` rows, or all when fewer. */
  function Take(entries: seq<TierEntry>, count: nat): (r: seq<TierEntry>)
    ensures |r| <= count && |r| <= |entries| && r == entries[..|r|]
    ensures |r| == count || r == entries
  {
    if |entries| <= count then entries else entries[..count]
  }

  /** The table text: the lines of the first `count` rows joined by line
      breaks, with none after the last. */
  function TierTable(entries: seq<TierEntry>, count: nat): Run<string>
  {
    match TierLines(Take(entries, count))
    case Ok(lines) => Ok(Join(lines, "\n"))
    case _ => Panic
  }

  /** Rows past the first `count` are never looked at. */
  lemma TierTableIgnoresTail(entries: seq<TierEntry>, more: seq<TierEntry>, count: nat)
    requires |entries| >= count
    ensures TierTable(entries + more, count) == TierTable(entries[..count], count)
  {
    assert (entries + more)[..count] == entries[..count];
  }

  /** No text of the row holds a line break. */
  predicate SingleLine(e: TierEntry)
  {
    (e.name.Some? ==> forall t :: t in e.name.value ==> '\n' !in t)
    && (e.winrate.Some? ==> forall t :: t in e.winrate.value ==> '\n' !in t)
  }

  /** Padding a text without line breaks adds none. */
  lemma PadKeepsOut(s: string, width: nat)
    requires '\n' !in s
    ensures '\n' !in PadRight(s, width)
  {
    var p := PadRight(s, width);
    forall i | 0 <= i < |p|
      ensures p[i] != '\n'
    {
      if i < |s| {
        assert p[..|s|][i] == s[i];
      }
    }
  }

  lemma EntryTextSingleLine(e: TierEntry)
    requires SingleLine(e) && EntryText(e).Ok?
    ensures '\n' !in EntryText(e).value
  {
    var n := FirstText(e.name).value;
    var w := FirstText(e.winrate).value;
    assert n in e.name.value && w in e.winrate.value;
    TrimKeepsOut(n, '\n');
    TrimKeepsOut(w, '\n');
    PadKeepsOut(Trim(n), 20);
    PadKeepsOut(Trim(w), 20);
    assert EntryText(e).value == PadRight(Trim(n), 20) + (" - " + PadRight(Trim(w), 20));
  }

  /** No rows give the empty table; otherwise, when no text holds a line
      break, splitting the table at line breaks gives back exactly its
      lines, in order, with nothing after the last. */
  lemma TierTableLines(entries: seq<TierEntry>, count: nat)
    requires TierTable(entries, count).Ok?
    ensures Take(entries, count) == [] ==> TierTable(entries, count).value == ""
    ensures Take(entries, count) != [] && (forall k :: 0 <= k < |entries| ==> SingleLine(entries[k])) ==>
      Split(TierTable(entries, count).value, '\n') == TierLines(Take(entries, count)).value
  {
    var taken := Take(entries, count);
    var lines := TierLines(taken).value;
    if taken != [] && forall k :: 0 <= k < |entries| ==> SingleLine(entries[k]) {
      forall i | 0 <= i < |lines|
        ensures '\n' !in lines[i]
      {
        assert EntryText(taken[i]) == Ok(lines[i]);
        EntryTextSingleLine(taken[i]);
      }
      SplitJoin(lines, '\n');
    }
  }

  // ---------------------------------------------------------------------
  // The embed
  // ---------------------------------------------------------------------

  function TierTitle(lane: Option<string>, count: nat): (r: string)
    ensures StartsWith(r, "Top " + NatToString(count) + " tier list for ")
    ensures r[|"Top " + NatToString(count) + " tier list for "|..] == if lane.Some? then lane.value else "All"
  {
    var head := "Top " + NatToString(count) + " tier list for ";
    var r := head + (if lane.Some? then lane.value else "All");
    assert r[..|head|] == head;
    r
  }

  /** `handle_tierlist_command`: a browser error is handed back as the
      command's error; otherwise the table goes, between triple backticks,
      into the single "Champion - Tier" field of a dark-green embed with an
      empty description, footer and content. */
  function HandleTierList(lane: Option<string>, count: nat, page: Run<seq<TierEntry>>): (r: Run<DiscordOutput>)
    ensures r.Err? <==> page.Err?
    ensures r.Err? ==> r.error == page.error
    ensures r.Panic? <==> page.Panic? || (page.Ok? && TierTable(page.value, count).Panic?)
    ensures r.Ok? ==>
      && r.value.color == DarkGreen
      && r.value.description == "" && r.value.footer == "" && r.value.content == ""
      && r.value.title == TierTitle(lane, count)
      && r.value.fields == [Field("Champion - Tier", "```" + TierTable(page.value, count).value + "```", false)]
  {
    match page
    case Err(e) => Err(e)
    case Panic => Panic
    case Ok(entries) =>
      match TierTable(entries, count)
      case Ok(table) =>
        Ok(DiscordOutput(DarkGreen, "", [Field("Champion - Tier", "```" + table + "```", false)], "", TierTitle(lane, count), ""))
      case _ => Panic
  }
}
