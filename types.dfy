/** The records shared by the commands: the Riot match document, the error
    shown to the user, and the envelope every command hands to Discord. */
module Types {
  import opened Text

  /** Rust's `i32` and `u32`. */
  newtype I32 = x: int | -0x8000_0000 <= x < 0x8000_0000
  newtype U32 = x: int | 0 <= x < 0x1_0000_0000

  datatype AccountInfoContext = AccountInfoContext(puuid: string, playerName: string, tag: string, region: string)

  /** One player's line in a match.  Kills, deaths and assists are signed
      32-bit integers and the team id an unsigned one: nothing in the record
      keeps the counts non-negative. */
  datatype Participant = Participant(
    assists: I32,
    championName: string,
    deaths: I32,
    kills: I32,
    participantId: I32,
    puuid: string,
    summonerId: string,
    summonerName: string,
    teamPosition: string,
    win: bool,
    riotIdGameName: string,
    teamId: U32)

  datatype InfoDto = InfoDto(participants: seq<Participant>, gameMode: string)

  datatype MetadataDto = MetadataDto(dataVersion: string, matchId: string)

  datatype MatchDto = MatchDto(info: InfoDto, metadata: MetadataDto)

  /** The accent colours the commands use. */
  datatype Colour = DarkGreen | Blue | DarkGold | DarkRed

  /** An embed field: heading, body, and whether it is laid out inline. */
  datatype Field = Field(name: string, value: string, inline: bool)

  /** The footer is kept as its text (a footer built from the empty string). */
  datatype DiscordOutput = DiscordOutput(
    color: Colour,
    description: string,
    fields: seq<Field>,
    footer: string,
    title: string,
    content: string)

  datatype OutputError = OutputError(status: string, message: string, playerName: string, tag: string, region: string)

  /** `DiscordOutput::new`: every argument lands, unchanged, in the field of the same name. */
  function NewDiscordOutput(color: Colour, description: string, fields: seq<Field>,
                            footer: string, title: string, content: string): (o: DiscordOutput)
    ensures o.color == color && o.description == description && o.fields == fields
    ensures o.footer == footer && o.title == title && o.content == content
  {
    DiscordOutput(color, description, fields, footer, title, content)
  }

  /** The `Display` text of an `OutputError`: the message on the first line,
      then the status in parentheses, the Riot id `name#tag`, and the region
      in parentheses at the very end. */
  function ErrorDisplay(e: OutputError): (r: string)
    ensures |r| == |e.message| + |e.status| + |e.playerName| + |e.tag| + |e.region| + 11
    ensures r[..|e.message|] == e.message
    ensures r[|e.message|..|e.message| + 4] == " \n ("
    ensures var tail := "(" + e.region + ")"; r[|r| - |tail|..] == tail
  {
    e.message + " \n (" + e.status + ") " + e.playerName + "#" + e.tag + ": (" + e.region + ")"
  }

  /** When the message itself has no line break, it is exactly the first
      line of the rendered error, up to the single space before the break. */
  lemma ErrorDisplayFirstLine(e: OutputError)
    requires '\n' !in e.message
    ensures Split(ErrorDisplay(e), '\n')[0] == e.message + " "
  {
    var r := ErrorDisplay(e);
    var head := e.message + " ";
    var rest := r[|head|..];
    assert r == head + rest;
    assert rest[0] == '\n';
    IndexOfAfter(head, rest, '\n');
    assert r[..IndexOf(r, '\n')] == head;
  }

  /** The record types allow a negative kill count, and it is rendered with a sign. */
  lemma NegativeCountsAreRepresentable()
    ensures exists p: Participant :: p.kills < 0 && IntToString(p.kills as int)[0] == '-'
  {
    var p := Participant(0, "", 0, -1, 0, "", "", "", "", false, "", 0);
    assert p.kills < 0;
  }
}
