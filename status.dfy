/** The status record the monitor builds from one answer of the status API (index.js:113-121)
    and the field values of the status card rendered from it (formatStatusMessage,
    index.js:360-391). Embed colours, emoji, footer, timestamp and the join button are
    presentation and are not part of the card model. */
module Status {

  import opened Ids
  import opened Decimal

  /** The fixed host the bot watches (index.js:15). */
  const FixedIp: string := "heartlessmc.playcraft.me"

  /** Longest text Discord accepts in an embed field; the MOTD is cut to it. */
  const MotdLimit: nat := 1024

  datatype PlayerCounts = PlayerCounts(online: int, max: int)

  /** The JSON fields the bot reads from the status API. A missing field is None.
      `icon` is the data URI text ("data:image/png;base64,<payload>"). */
  datatype StatusData = StatusData(
    online: bool,
    hostname: Option<string>,
    players: Option<PlayerCounts>,
    version: Option<string>,
    motdClean: Option<seq<string>>,
    protocol: Option<int>,
    icon: Option<string>)

  /** The `status` object of index.js:113-121. `icon` holds the base64 payload that the
      source hands to Buffer.from; the decoding itself is not modelled. */
  datatype Snapshot = Snapshot(
    status: string,
    name: string,
    players: string,
    version: Option<string>,
    motd: string,
    protocol: string,
    icon: Option<string>)

  /** The field values of the status card. */
  datatype Card = Card(
    title: string,
    status: string,
    players: string,
    version: string,
    ip: string,
    motd: string,
    protocol: string,
    thumbnail: Option<string>)

  /** Position of the first `c` in `s`, or |s| when there is none. */
  function IndexOf(s: string, c: char): (k: nat)
    ensures k <= |s|
    ensures k < |s| ==> s[k] == c
    ensures forall i :: 0 <= i < k ==> s[i] != c
  {
    if s == [] then 0 else if s[0] == c then 0 else 1 + IndexOf(s[1..], c)
  }

  /** Total length of the strings in `lines`. */
  function SumLengths(lines: seq<string>): nat
  {
    if lines == [] then 0 else |lines[0]| + SumLengths(lines[1..])
  }

  /** `lines.join(sep)`: the lines in order with one `sep` between each two. */
  function Join(lines: seq<string>, sep: string): (r: string)
    ensures lines == [] ==> r == ""
    ensures |lines| > 0 ==> |r| == SumLengths(lines) + (|lines| - 1) * |sep|
    ensures |lines| > 0 ==> r[..|lines[0]|] == lines[0]
  {
    if lines == [] then "" else if |lines| == 1 then lines[0] else lines[0] + sep + Join(lines[1..], sep)
  }

  /** `s.split(c)`: the pieces between the occurrences of `c`, in order; one piece, `s`
      itself, when `c` does not occur. */
  function Split(s: string, c: char): (r: seq<string>)
    ensures |r| > 0 && r[0] == s[..IndexOf(s, c)]
    ensures forall i :: 0 <= i < |r| ==> c !in r[i]
    decreases |s|
  {
    var k := IndexOf(s, c);
    if k == |s| then [s] else [s[..k]] + Split(s[k + 1..], c)
  }

  /** Joining lines that hold no newline and splitting the text at its newlines gives the
      lines back: the MOTD field keeps each line of `motd.clean` apart. */
  lemma {:induction false} SplitJoin(lines: seq<string>)
    requires |lines| > 0
    requires forall i :: 0 <= i < |lines| ==> '\n' !in lines[i]
    ensures Split(Join(lines, "\n"), '\n') == lines
  {
    var t := Join(lines, "\n");
    var a := lines[0];
    if |lines| == 1 {
      assert IndexOf(t, '\n') == |t|;
    } else {
      var rest := Join(lines[1..], "\n");
      assert t == a + "\n" + rest;
      forall i | 0 <= i < |a|
        ensures t[i] != '\n'
      {
        assert t[i] == a[i];
      }
      assert t[|a|] == '\n';
      assert IndexOf(t, '\n') == |a|;
      assert t[..|a|] == a;
      assert t[|a| + 1..] == rest;
      SplitJoin(lines[1..]);
      assert lines == [a] + lines[1..];
    }
  }

  /** `s.slice(0, n)`. */
  function Truncate(s: string, n: nat): (r: string)
    ensures |r| <= n && |r| <= |s|
    ensures r == s[..|r|]
    ensures |s| <= n ==> r == s
    ensures |s| > n ==> |r| == n
  {
    if |s| <= n then s else s[..n]
  }

  /** `String.prototype.toUpperCase` on one character, for the ASCII letters. */
  function ToUpper(c: char): (u: char)
    ensures 'a' <= c <= 'z' ==> 'A' <= u <= 'Z' && u as int == c as int - 32
    ensures !('a' <= c <= 'z') ==> u == c
  {
    if 'a' <= c <= 'z' then (c as int - 32) as char else c
  }

  /** `capitalize` (index.js:393-395): the first character upper-cased, the rest kept. */
  function Capitalize(s: string): (r: string)
    ensures |r| == |s|
    ensures |s| > 0 ==> r[0] == ToUpper(s[0]) && r[1..] == s[1..]
  {
    if s == [] then "" else [ToUpper(s[0])] + s[1..]
  }

  /** `data.icon.split(',')[1]`: the text between the first comma and the next one.
      None when there is no comma, where the source passes undefined to Buffer.from and throws. */
  function IconPayload(uri: string): (r: Option<string>)
    ensures r.None? <==> ',' !in uri
    ensures r.Some? ==> ',' !in r.value
    ensures r.Some? ==>
      var k := IndexOf(uri, ',');
      && k + 1 + |r.value| <= |uri|
      && r.value == uri[k + 1..][..|r.value|]
      && (k + 1 + |r.value| == |uri| || uri[k + 1 + |r.value|] == ',')
  {
    var k := IndexOf(uri, ',');
    if k == |uri| then None
    else
      var rest := uri[k + 1..];
      Some(rest[..IndexOf(rest, ',')])
  }

  /** `IconPayload` is `split(',')[1]` read through `Split`: whenever the icon text has a
      comma, the split has a second piece and that piece is the payload. */
  lemma IconPayloadIsSecondPiece(uri: string)
    requires ',' in uri
    ensures |Split(uri, ',')| > 1 && IconPayload(uri) == Some(Split(uri, ',')[1])
  {
    var k := IndexOf(uri, ',');
    assert k < |uri|;
    assert Split(uri, ',') == [uri[..k]] + Split(uri[k + 1..], ',');
  }

  /** The `players` field: `${online}/${max}`. Its first '/' separates the online count's
      text from the maximum's. */
  function PlayersText(p: PlayerCounts): (r: string)
    ensures var k := IndexOf(r, '/');
      k < |r| && r[..k] == IntToText(p.online) && r[k + 1..] == IntToText(p.max)
  {
    var a, b := IntToText(p.online), IntToText(p.max);
    var r := a + "/" + b;
    assert forall i :: 0 <= i < |a| ==> r[i] == a[i];
    assert r[|a|] == '/';
    assert IndexOf(r, '/') == |a|;
    assert r[..|a|] == a && r[|a| + 1..] == b;
    r
  }

  /** Reads an "online/max" text back into its two counts. */
  function ParsePlayers(s: string): (r: Option<PlayerCounts>)
  {
    var k := IndexOf(s, '/');
    if k == |s| then None
    else
      match (ParseInt(s[..k]), ParseInt(s[k + 1..]))
      case (Some(o), Some(m)) => Some(PlayerCounts(o, m))
      case _ => None
  }

  /** The players text always reads back as the counts it was made from. */
  lemma PlayersRoundTrip(p: PlayerCounts)
    ensures ParsePlayers(PlayersText(p)) == Some(p)
  {
    IntTextRoundTrip(p.online);
    IntTextRoundTrip(p.max);
  }

  /** The status record of index.js:113-121; None where building it throws (a missing
      `players` or `motd.clean`, an icon without a comma), which the tick catches. */
  function BuildSnapshot(data: StatusData): (r: Option<Snapshot>)
    ensures r.Some? <==> data.players.Some? && data.motdClean.Some? && (Truthy(data.icon) ==> ',' in data.icon.value)
    ensures r.Some? ==> r.value.status == "online"
  {
    if data.players.None? || data.motdClean.None? then None
    else if Truthy(data.icon) && IconPayload(data.icon.value).None? then None
    else
      Some(Snapshot(
        status := "online",
        name := if Truthy(data.hostname) then data.hostname.value else FixedIp,
        players := PlayersText(data.players.value),
        version := data.version,
        motd := Join(data.motdClean.value, "\n"),
        protocol := if data.protocol.Some? && data.protocol.value != 0 then IntToText(data.protocol.value) else "Unknown",
        icon := if Truthy(data.icon) then IconPayload(data.icon.value) else None))
  }

  /** formatStatusMessage (index.js:360-391), field values only. */
  function FormatStatusMessage(s: Snapshot, ip: string): (c: Card)
    ensures |c.motd| <= MotdLimit
    ensures c.version != "" && c.protocol != "" && c.motd != ""
    ensures c.thumbnail == s.icon
  {
    Card(
      title := s.name,
      status := Capitalize(s.status),
      players := s.players,
      version := if Truthy(s.version) then s.version.value else "Unknown",
      ip := ip,
      motd := Truncate(if s.motd == "" then "N/A" else s.motd, MotdLimit),
      protocol := if s.protocol == "" then "Unknown" else s.protocol,
      thumbnail := s.icon)
  }

  /** The text fields of a status card built from one API answer, stated against the
      answer itself: the fixed host stands in for a missing or empty hostname, "Unknown" for
      a missing or empty version, "N/A" for an empty MOTD. */
  lemma CardFromData(data: StatusData, s: Snapshot)
    requires BuildSnapshot(data) == Some(s)
    ensures var c := FormatStatusMessage(s, FixedIp);
      && c.title == (if Truthy(data.hostname) then data.hostname.value else FixedIp)
      && c.version == (if Truthy(data.version) then data.version.value else "Unknown")
      && c.motd == Truncate(if Join(data.motdClean.value, "\n") == "" then "N/A" else Join(data.motdClean.value, "\n"), MotdLimit)
      && (c.thumbnail.Some? <==> Truthy(data.icon))
      && c.ip == FixedIp
  {
  }

  /** The numeric fields of a status card read back as the API's numbers: the players as
      both counts, the protocol unless it is missing or 0, when it reads "Unknown". */
  lemma CardNumbers(data: StatusData, s: Snapshot)
    requires BuildSnapshot(data) == Some(s)
    ensures var c := FormatStatusMessage(s, FixedIp);
      && ParsePlayers(c.players) == data.players
      && (if data.protocol.Some? && data.protocol.value != 0
          then ParseInt(c.protocol) == data.protocol
          else c.protocol == "Unknown")
  {
    PlayersRoundTrip(data.players.value);
    if data.protocol.Some? && data.protocol.value != 0 {
      IntTextRoundTrip(data.protocol.value);
    }
  }

  /** The status field of every card reads "Online". */
  lemma OnlineCapitalized(data: StatusData, s: Snapshot, ip: string)
    requires BuildSnapshot(data) == Some(s)
    ensures FormatStatusMessage(s, ip).status == "Online"
  {
    assert Capitalize("online") == "Online";
  }

  /** A short MOTD reaches the card unchanged; an empty one shows "N/A"; a long one keeps
      exactly its first 1024 characters. */
  lemma MotdField(s: Snapshot, ip: string)
    ensures var m := FormatStatusMessage(s, ip).motd;
      && (s.motd == "" ==> m == "N/A")
      && (0 < |s.motd| <= MotdLimit ==> m == s.motd)
      && (|s.motd| > MotdLimit ==> m == s.motd[..MotdLimit])
  {
  }
}
