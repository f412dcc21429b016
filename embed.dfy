/**
 * The status embed built on every update: a fixed title and colour, the
 * "Last updated at" footer, a "Main Servers" field with one entry per
 * configured main server, and an "Additional Information" field that reports
 * the first two additional servers as Proxy and Backup.
 */
module Embed {
  import opened Wrappers
  import opened Text
  import opened Probe
  import opened TimeFormat

  const Title: string := "Minecraft Server Status"
  const Color: string := "#8b00ff"
  const FooterPrefix: string := "Last updated at: "
  const MainServersName: string := "Main Servers"
  const AdditionalInfoName: string := "Additional Information"
  const GreenCircle: char := '\U{1F7E2}'
  const RedCircle: char := '\U{1F534}'
  const OnlineMark: string := [GreenCircle] + " Online"
  const OfflineMark: string := [RedCircle] + " Offline"
  const EntrySeparator: string := "\n\n"
  /** The most UTF-16 code units `addFields` accepts in a field value. */
  const FieldValueLimit: nat := 1024

  /** One entry of `server.json`. */
  datatype ServerSpec = ServerSpec(name: string, ip: string, port: nat)

  /** `server.json`: the main servers and the additional servers, in file order. */
  datatype ServerConfig = ServerConfig(mainServers: seq<ServerSpec>, additionalInformation: seq<ServerSpec>)

  datatype Field = Field(name: string, value: string, inline: bool)

  /** The embed as sent to the channel; the timestamp set by `setTimestamp` is not modelled. */
  datatype Document = Document(title: string, color: string, footer: string, fields: seq<Field>)

  function Mark(online: bool): (s: string)
    ensures |s| > 0 && s[0] == (if online then GreenCircle else RedCircle)
  {
    if online then OnlineMark else OfflineMark
  }

  /**
   * The entry of one main server: the name, then the marker right after
   * ": "; an online server adds its players and version, an offline one
   * shows nothing else.
   */
  function ServerEntry(name: string, status: StatusSnapshot): (s: string)
    ensures |s| > |name| + 2 && s[..|name| + 2] == name + ": "
    ensures s[|name| + 2] == (if status.online then GreenCircle else RedCircle)
    ensures !status.online ==> s == name + ": " + OfflineMark
  {
    var s := name + ": "
      + (if status.online then OnlineMark + "\nPlayers: " + status.players + "\nVersion: " + status.version
         else OfflineMark);
    assert s[|name| + 2] == Mark(status.online)[0];
    s
  }

  /** An online entry is three lines: the name and marker, the players, the version. */
  lemma OnlineEntryAsLines(name: string, status: StatusSnapshot)
    requires status.online
    ensures ServerEntry(name, status) ==
      (name + ": " + OnlineMark) + ['\n'] + ("Players: " + status.players) + ['\n'] + ("Version: " + status.version)
  {
    assert "\nPlayers: " == ['\n'] + "Players: " && "\nVersion: " == ['\n'] + "Version: ";
  }

  /** The lines of an online entry give back its players and version. */
  lemma OnlineEntryLines(name: string, status: StatusSnapshot)
    requires status.online
    requires '\n' !in name && '\n' !in status.players && '\n' !in status.version
    ensures Split(ServerEntry(name, status), '\n') ==
      [name + ": " + OnlineMark, "Players: " + status.players, "Version: " + status.version]
  {
    OnlineEntryAsLines(name, status);
    SplitThree(name + ": " + OnlineMark, "Players: " + status.players, "Version: " + status.version, '\n');
  }

  /** A server whose probe failed is shown as offline, without players or version. */
  lemma FailedProbeShowsOffline(name: string)
    ensures ServerEntry(name, GetServerStatus(None)) == name + ": " + OfflineMark
  {
  }

  /** The entries of the main servers: entry i pairs server i with status i. */
  function MainServerEntries(servers: seq<ServerSpec>, statuses: seq<StatusSnapshot>): (entries: seq<string>)
    requires |statuses| == |servers|
    ensures |entries| == |servers|
    ensures forall i :: 0 <= i < |servers| ==> entries[i] == ServerEntry(servers[i].name, statuses[i])
  {
    if servers == [] then []
    else [ServerEntry(servers[0].name, statuses[0])] + MainServerEntries(servers[1..], statuses[1..])
  }

  /**
   * The "Main Servers" field: the entries joined by blank lines. It is empty
   * exactly for no main servers (every entry holds at least the name and
   * ": "), and starts with the first server's entry.
   */
  function MainServersField(servers: seq<ServerSpec>, statuses: seq<StatusSnapshot>): (r: string)
    requires |statuses| == |servers|
    ensures r == [] <==> servers == []
    ensures servers != [] ==> var first := ServerEntry(servers[0].name, statuses[0]);
      |first| <= |r| && r[..|first|] == first
    ensures |servers| == 1 ==> r == ServerEntry(servers[0].name, statuses[0])
  {
    JoinWith(MainServerEntries(servers, statuses), EntrySeparator)
  }

  lemma MainServerEntriesAppend(servers: seq<ServerSpec>, statuses: seq<StatusSnapshot>, server: ServerSpec, status: StatusSnapshot)
    requires |statuses| == |servers|
    ensures MainServerEntries(servers + [server], statuses + [status]) ==
      MainServerEntries(servers, statuses) + [ServerEntry(server.name, status)]
  {
  }

  /**
   * Configuration order is output order: one more server at the end of the
   * configuration adds a blank line and its entry at the end of the field,
   * and leaves the text before it as it was.
   */
  lemma MainServersFieldAppend(servers: seq<ServerSpec>, statuses: seq<StatusSnapshot>, server: ServerSpec, status: StatusSnapshot)
    requires |statuses| == |servers|
    ensures MainServersField(servers + [server], statuses + [status]) ==
      if servers == [] then ServerEntry(server.name, status)
      else MainServersField(servers, statuses) + EntrySeparator + ServerEntry(server.name, status)
  {
    MainServerEntriesAppend(servers, statuses, server, status);
    if servers != [] {
      JoinWithAppend(MainServerEntries(servers, statuses), EntrySeparator, ServerEntry(server.name, status));
    }
  }

  const ProxyHeading: string := "\n        **Proxy:**\n        "
  const BackupHeading: string := "\n\n        **Backup:**\n        "

  /**
   * The fixed text of the "Additional Information" field: the Proxy heading,
   * the Proxy marker, the Backup heading, the Backup marker and a trailing
   * line break with indentation. Each marker begins right after its heading.
   */
  function AdditionalInfoText(proxyOnline: bool, backupOnline: bool): (s: string)
    ensures |s| > |ProxyHeading| + |Mark(proxyOnline)| + |BackupHeading|
    ensures s[..|ProxyHeading|] == ProxyHeading
    ensures s[|ProxyHeading|] == (if proxyOnline then GreenCircle else RedCircle)
    ensures s[|ProxyHeading| + |Mark(proxyOnline)|..|ProxyHeading| + |Mark(proxyOnline)| + |BackupHeading|] == BackupHeading
    ensures s[|ProxyHeading| + |Mark(proxyOnline)| + |BackupHeading|] == (if backupOnline then GreenCircle else RedCircle)
  {
    var backup := BackupHeading + (Mark(backupOnline) + "\n        ");
    var s := ProxyHeading + (Mark(proxyOnline) + backup);
    assert s[|ProxyHeading|] == Mark(proxyOnline)[0];
    assert backup[|BackupHeading|] == Mark(backupOnline)[0];
    assert backup[..|BackupHeading|] == BackupHeading;
    assert s[|ProxyHeading| + |Mark(proxyOnline)|..] == backup;
    assert s[|ProxyHeading| + |Mark(proxyOnline)| + |BackupHeading|] == backup[|BackupHeading|];
    s
  }

  /** The field tells both flags apart: different flags give different text. */
  lemma AdditionalInfoTextInjective(p1: bool, b1: bool, p2: bool, b2: bool)
    requires AdditionalInfoText(p1, b1) == AdditionalInfoText(p2, b2)
    ensures p1 == p2 && b1 == b2
  {
    assert |Mark(p1)| == |Mark(p2)|;
  }

  /**
   * The "Additional Information" field reads the statuses at indices 0 and 1
   * only; with fewer than two additional servers reading index 1 throws,
   * which is `None` here.
   */
  function AdditionalInfoField(statuses: seq<StatusSnapshot>): (r: Option<string>)
    ensures r.Some? <==> |statuses| >= 2
    ensures r.Some? ==> r.value == AdditionalInfoText(statuses[0].online, statuses[1].online)
  {
    if |statuses| < 2 then None else Some(AdditionalInfoText(statuses[0].online, statuses[1].online))
  }

  /** Servers after the second, and everything but the online flag, do not change the field. */
  lemma AdditionalInfoIgnoresRest(s1: seq<StatusSnapshot>, s2: seq<StatusSnapshot>)
    requires |s1| >= 2 && |s2| >= 2
    requires s1[0].online == s2[0].online && s1[1].online == s2[1].online
    ensures AdditionalInfoField(s1) == AdditionalInfoField(s2)
  {
  }

  /**
   * `addFields` refuses a field value that is empty or longer than 1024
   * UTF-16 code units, and throws.
   */
  predicate FieldValueAccepted(value: string) {
    1 <= Utf16Length(value) <= FieldValueLimit
  }

  /** The "Additional Information" text is always short enough to be accepted. */
  lemma AdditionalInfoAccepted(proxyOnline: bool, backupOnline: bool)
    ensures FieldValueAccepted(AdditionalInfoText(proxyOnline, backupOnline))
  {
    assert |AdditionalInfoText(proxyOnline, backupOnline)| <= 100;
  }

  /**
   * The embed of one update, or `None` when building it throws: the Main
   * Servers value is refused by `addFields` (no main servers, or more than
   * 1024 code units), or there are fewer than two additional servers.
   */
  function BuildEmbed(config: ServerConfig, mainStatuses: seq<StatusSnapshot>, additionalStatuses: seq<StatusSnapshot>,
                      now: LocalTime, sameDay: bool): (r: Option<Document>)
    requires |mainStatuses| == |config.mainServers|
    ensures r.Some? <==> FieldValueAccepted(MainServersField(config.mainServers, mainStatuses)) && |additionalStatuses| >= 2
    ensures r.Some? ==> r.value.title == Title && r.value.color == Color
    ensures r.Some? ==> r.value.footer == FooterPrefix + FormatTime(now, sameDay)
    ensures r.Some? ==> |r.value.fields| == 2
    ensures r.Some? ==> r.value.fields[0] == Field(MainServersName, MainServersField(config.mainServers, mainStatuses), false)
    ensures r.Some? ==> r.value.fields[1] == Field(AdditionalInfoName, AdditionalInfoField(additionalStatuses).value, false)
  {
    var main := MainServersField(config.mainServers, mainStatuses);
    if !FieldValueAccepted(main) then None
    else match AdditionalInfoField(additionalStatuses)
      case None => None
      case Some(additional) =>
        Some(Document(Title, Color, FooterPrefix + FormatTime(now, sameDay),
          [Field(MainServersName, main, false), Field(AdditionalInfoName, additional, false)]))
  }

  /** With no main servers the Main Servers value is empty, so building the embed throws. */
  lemma NoMainServersFails(config: ServerConfig, additionalStatuses: seq<StatusSnapshot>, now: LocalTime, sameDay: bool)
    requires config.mainServers == []
    ensures BuildEmbed(config, [], additionalStatuses, now, sameDay).None?
  {
  }
}
