/**
 * The status probe of one server: the request URL and the mapping from the
 * status API's JSON answer to the snapshot shown in the embed. The HTTP
 * request and the JSON parse are abstracted into an optional response:
 * `None` stands for any error thrown while fetching or parsing.
 */
module Probe {
  import opened Wrappers
  import opened Text

  const ApiPrefix: string := "https://api.mcsrvstat.us/2/"
  const NotAvailable: string := "N/A"
  const UnknownVersion: string := "Unknown"

  /** The `players` object of the answer. */
  datatype PlayerCounts = PlayerCounts(online: nat, max: nat)

  /** The fields of the answer that the probe reads; a missing field is `None`. */
  datatype ApiResponse = ApiResponse(online: Option<bool>, players: Option<PlayerCounts>, version: Option<string>)

  /** What the embed shows for one server. */
  datatype StatusSnapshot = StatusSnapshot(online: bool, players: string, version: string)

  /** The snapshot of a server whose status could not be fetched or parsed. */
  function Unreachable(): (s: StatusSnapshot)
    ensures !s.online && s.players == NotAvailable && s.version == UnknownVersion
  {
    StatusSnapshot(false, NotAvailable, UnknownVersion)
  }

  /** The request URL `https://api.mcsrvstat.us/2/<ip>:<port>`. */
  function StatusUrl(ip: string, port: nat): (url: string)
    ensures |url| > |ApiPrefix| && url[..|ApiPrefix|] == ApiPrefix
  {
    ApiPrefix + ip + ":" + NatToString(port)
  }

  /**
   * The port is what follows the last colon of the URL, whatever colons the
   * address holds, and the address is what lies between the prefix and that
   * colon.
   */
  lemma StatusUrlNamesPort(ip: string, port: nat)
    ensures var url := StatusUrl(ip, port);
      var parts := Split(url, ':');
      var last := parts[|parts| - 1];
      && AllDigits(last) && ParseNat(last) == port
      && |ApiPrefix| <= |url| - 1 - |last| && url[|ApiPrefix|..|url| - 1 - |last|] == ip
  {
    var p := NatToString(port);
    assert StatusUrl(ip, port) == (ApiPrefix + ip) + [':'] + p;
    SplitAtSeparator(ApiPrefix + ip, ':', p);
    SplitNoSeparator(p, ':');
    ParseNatToString(port);
  }

  /** `${players.online}/${players.max}`. */
  function PlayersText(p: PlayerCounts): (s: string)
    ensures |s| > 0 && IsDigit(s[0]) && s != NotAvailable
  {
    NatToString(p.online) + "/" + NatToString(p.max)
  }

  /** The player summary splits at its one slash back into the two counts. */
  lemma PlayersTextRoundTrip(p: PlayerCounts)
    ensures var parts := Split(PlayersText(p), '/');
      |parts| == 2 && AllDigits(parts[0]) && AllDigits(parts[1])
      && ParseNat(parts[0]) == p.online && ParseNat(parts[1]) == p.max
  {
    var a, b := NatToString(p.online), NatToString(p.max);
    assert PlayersText(p) == a + ['/'] + b;
    DigitsExclude(a, '/');
    DigitsExclude(b, '/');
    SplitTwo(a, b, '/');
    ParseNatToString(p.online);
    ParseNatToString(p.max);
  }

  /**
   * getServerStatus: `online || false`, the player summary when `players` is
   * present, `version || "Unknown"` (the empty string is falsy); any failure
   * gives the unreachable snapshot, so the probe never fails outward.
   */
  function GetServerStatus(response: Option<ApiResponse>): (s: StatusSnapshot)
    ensures response.None? ==> s == Unreachable()
    ensures s.online <==> response.Some? && response.value.online == Some(true)
    ensures s.players == NotAvailable <==> response.None? || response.value.players.None?
    ensures response.Some? && response.value.players.Some? ==> s.players == PlayersText(response.value.players.value)
    ensures s.version != ""
    ensures s.version == UnknownVersion || (response.Some? && response.value.version == Some(s.version))
    ensures response.Some? && response.value.version.Some? && response.value.version.value != ""
            ==> s.version == response.value.version.value
  {
    match response
    case None => Unreachable()
    case Some(json) =>
      StatusSnapshot(
        json.online.Some? && json.online.value,
        if json.players.Some? then PlayersText(json.players.value) else NotAvailable,
        if json.version.Some? && json.version.value != "" then json.version.value else UnknownVersion)
  }

  /**
   * `Promise.all(servers.map(getServerStatus))`: one snapshot per response,
   * in the order of the servers, whatever order the requests complete in.
   */
  function GetAllStatuses(responses: seq<Option<ApiResponse>>): (statuses: seq<StatusSnapshot>)
    ensures |statuses| == |responses|
    ensures forall i :: 0 <= i < |responses| ==> statuses[i] == GetServerStatus(responses[i])
  {
    if responses == [] then []
    else [GetServerStatus(responses[0])] + GetAllStatuses(responses[1..])
  }
}
