/** The two LINE stages: the credentials read from the settings table and
    the one push request. The table is an abstract map from the item key
    (the `type` attribute) to the item's deserialised attributes; the LINE
    API is a function from the request sent to the reply received. */
module LineNotification {
  import opened Optional

  /** A settings-table item: attribute name to its deserialised value. */
  type Item = map<string, string>

  const ChannelIdKey := "line_channel_id"
  const AccessTokenKey := "line_access_token"
  const KeyList := [ChannelIdKey, AccessTokenKey]
  const ValueAttribute := "value"

  /** `item.get('value')`: absent is Python's `None`, not an error. */
  function ValueOf(item: Item): Option<string> {
    if ValueAttribute in item then Some(item[ValueAttribute]) else None
  }

  datatype Credentials = Credentials(channelId: Option<string>, accessToken: Option<string>)

  /** The credentials the settings table determines: both items must exist,
      each field is that item's `value` attribute (possibly absent). */
  function LineTokens(table: map<string, Item>): Option<Credentials> {
    if ChannelIdKey in table && AccessTokenKey in table
    then Some(Credentials(ValueOf(table[ChannelIdKey]), ValueOf(table[AccessTokenKey])))
    else None
  }

  /** `fetch_line_tokens`: one lookup per key in order, giving up at the
      first missing item; no partial credentials are ever returned. */
  method FetchLineTokens(table: map<string, Item>) returns (r: Option<Credentials>)
    ensures r.None? <==> ChannelIdKey !in table || AccessTokenKey !in table
    ensures r.Some? ==> r.value.channelId == ValueOf(table[ChannelIdKey])
                        && r.value.accessToken == ValueOf(table[AccessTokenKey])
    ensures r == LineTokens(table)
  {
    var tokens: seq<Option<string>> := [];
    var i := 0;
    while i < |KeyList|
      invariant 0 <= i <= |KeyList|
      invariant |tokens| == i
      invariant forall j :: 0 <= j < i ==> KeyList[j] in table && tokens[j] == ValueOf(table[KeyList[j]])
    {
      var key := KeyList[i];
      if key !in table {
        return None;
      }
      tokens := tokens + [ValueOf(table[key])];
      i := i + 1;
    }
    return Some(Credentials(tokens[0], tokens[1]));
  }

  const PushUrl := "https://api.line.me/v2/bot/message/push"

  /** The push request: bearer authorisation from the access token, the
      channel as recipient, one text message. */
  datatype PushRequest = PushRequest(url: string, authorization: string, to: Option<string>, text: string)

  /** The call raised, or it answered with a status and a body that did or
      did not parse as JSON. */
  datatype LineReply = TransportError | Reply(status: int, jsonBody: bool)

  /** `str(x)` of an optional string: `None` prints as "None". */
  function PyStr(o: Option<string>): string {
    match o
    case None => "None"
    case Some(s) => s
  }

  function BuildPushRequest(message: string, tokens: Credentials): (q: PushRequest)
    ensures q.url == PushUrl && q.text == message && q.to == tokens.channelId
    ensures tokens.accessToken.Some? ==> q.authorization == "Bearer " + tokens.accessToken.value
    ensures tokens.accessToken.None? ==> q.authorization == "Bearer None"
  {
    PushRequest(PushUrl, "Bearer " + PyStr(tokens.accessToken), tokens.channelId, message)
  }

  /** `send_line_notification`: one attempt; the reply is kept only when
      its body is JSON (parsed before the status is looked at) and the
      status is 200. */
  function SendLineNotification(message: string, tokens: Credentials, line: PushRequest -> LineReply)
    : (r: Option<LineReply>)
    ensures r.Some? <==> line(BuildPushRequest(message, tokens)) == Reply(200, true)
    ensures r.Some? ==> r.value == Reply(200, true)
  {
    match line(BuildPushRequest(message, tokens))
    case TransportError => None
    case Reply(status, jsonBody) =>
      if !jsonBody then None
      else if status != 200 then None
      else Some(Reply(status, jsonBody))
  }
}
