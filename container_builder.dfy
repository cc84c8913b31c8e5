/**
  The `containermessage` client: its fixed configuration (bot token, API base
  URL, request headers), the request each send describes (URL, headers,
  body) and the rule that turns the platform's response into the result.
  The HTTP POST itself is the `transport` parameter, a function from the
  request to the response the platform gives back.
 */
module ContainerBuilder {
  import opened Wrappers
  import opened Json
  import Dicts
  import Decimal
  import Payload

  const DISCORD_API_BASE: string := "https://discord.com/api/v10"

  /** The target of a send: a channel or thread object with an `id`, or a raw channel id. */
  datatype Channel = Handle(id: int) | RawId(value: int)

  /** `channel.id if hasattr(channel, 'id') else channel`. */
  function ChannelId(channel: Channel): (id: int)
    ensures channel.Handle? ==> id == channel.id
    ensures channel.RawId? ==> id == channel.value
  {
    match channel
    case Handle(id) => id
    case RawId(value) => value
  }

  /** The channel id a messages URL under `baseUrl` names, if it is one. */
  function ChannelIdOfUrl(baseUrl: string, url: string): Option<int> {
    var prefix := baseUrl + "/channels/";
    var suffix := "/messages";
    if |url| >= |prefix| + |suffix| && url[..|prefix|] == prefix && url[|url| - |suffix|..] == suffix then
      Decimal.ParseDecimal(url[|prefix|..|url| - |suffix|])
    else None
  }

  /**
    `f"{base_url}/channels/{channel_id}/messages"`: the URL starts with the
    base and names exactly the channel it was built for.
   */
  function MessagesUrl(baseUrl: string, channelId: int): (url: string)
    ensures |url| > |baseUrl| && url[..|baseUrl|] == baseUrl
    ensures ChannelIdOfUrl(baseUrl, url) == Some(channelId)
  {
    var prefix := baseUrl + "/channels/";
    var digits := Decimal.DecimalString(channelId);
    var url := prefix + digits + "/messages";
    assert url[..|baseUrl|] == baseUrl;
    assert url[..|prefix|] == prefix;
    assert url[|url| - 9..] == "/messages";
    assert url[|prefix|..|url| - 9] == digits;
    Decimal.DecimalRoundTrip(channelId);
    url
  }

  /** The reader accepts exactly the URLs the builder writes: a URL it reads as `channelId` is that channel's URL. */
  lemma ChannelIdOfUrlExact(baseUrl: string, url: string, channelId: int)
    requires ChannelIdOfUrl(baseUrl, url) == Some(channelId)
    ensures url == MessagesUrl(baseUrl, channelId)
  {
    var prefix := baseUrl + "/channels/";
    var middle := url[|prefix|..|url| - 9];
    Decimal.ParseDecimalExact(middle, channelId);
    assert url == url[..|prefix|] + middle + url[|url| - 9..];
  }

  /** Different channels get different URLs. */
  lemma MessagesUrlInjective(baseUrl: string, a: int, b: int)
    requires MessagesUrl(baseUrl, a) == MessagesUrl(baseUrl, b)
    ensures a == b
  {
    assert ChannelIdOfUrl(baseUrl, MessagesUrl(baseUrl, a)) == Some(a);
  }

  /** A channel object and its raw id address the same Discord endpoint. */
  lemma ChannelUrl(id: int)
    ensures MessagesUrl(DISCORD_API_BASE, ChannelId(Handle(id))) == MessagesUrl(DISCORD_API_BASE, ChannelId(RawId(id)))
    ensures ChannelIdOfUrl(DISCORD_API_BASE, MessagesUrl(DISCORD_API_BASE, ChannelId(Handle(id)))) == Some(id)
    ensures MessagesUrl(DISCORD_API_BASE, id) == "https://discord.com/api/v10/channels/" + Decimal.DecimalString(id) + "/messages"
  {
    var digits := Decimal.DecimalString(id);
    assert DISCORD_API_BASE + "/channels/" == "https://discord.com/api/v10/channels/";
    assert MessagesUrl(DISCORD_API_BASE, id) == DISCORD_API_BASE + "/channels/" + digits + "/messages";
  }

  /** The bot token an `Authorization: Bot <token>` header carries. */
  function BotToken(headers: Dicts.Items<string>): Option<string> {
    var auth := Dicts.Get(headers, "Authorization");
    if auth.Some? && |auth.value| >= 4 && auth.value[..4] == "Bot " then Some(auth.value[4..]) else None
  }

  /**
    The headers `__init__` sets up for a bot token: exactly `Authorization`
    and `Content-Type`, the content type JSON, and the authorization carrying
    the token unchanged.
   */
  function AuthHeaders(botToken: string): (headers: Dicts.Items<string>)
    ensures Dicts.Keys(headers) == ["Authorization", "Content-Type"]
    ensures Dicts.Get(headers, "Content-Type") == Some("application/json")
    ensures BotToken(headers) == Some(botToken)
  {
    var auth := "Bot " + botToken;
    Dicts.PairLiteral("Authorization", auth, "Content-Type", "application/json", "Authorization");
    Dicts.PairLiteral("Authorization", auth, "Content-Type", "application/json", "Content-Type");
    assert auth[..4] == "Bot " && auth[4..] == botToken;
    [("Authorization", auth), ("Content-Type", "application/json")]
  }

  /** An HTTP POST with a JSON body. */
  datatype Request = Request(url: string, headers: Dicts.Items<string>, body: Value)

  /** The status code of the platform's answer and its decoded body. */
  datatype Response = Response(status: int, body: Value)

  /** The Python value `response.json()` gives for a decoded body: JSON `null` is `None`. */
  function Decoded(body: Value): (r: Option<Value>)
    ensures r.None? <==> body.Null?
    ensures r.Some? ==> r.value == body
  {
    if body.Null? then None else Some(body)
  }

  /**
    The send result: `None` on every status other than 200; on 200 the
    decoded body, which is `None` only for a JSON `null` body.
   */
  function ResultOf(response: Response): (result: Option<Value>)
    ensures response.status != 200 ==> result.None?
    ensures result.Some? <==> response.status == 200 && !response.body.Null?
    ensures result.Some? ==> result.value == response.body
  {
    if response.status == 200 then Decoded(response.body) else None
  }

  /**
    `send_multiple`'s request for `texts`, as a configured client builds it:
    to the channel's messages URL, with the client's headers, a body whose
    container displays exactly `texts`.
   */
  function MultipleRequest(baseUrl: string, headers: Dicts.Items<string>, channel: Channel, texts: seq<string>): (request: Request)
    ensures ChannelIdOfUrl(baseUrl, request.url) == Some(ChannelId(channel))
    ensures request.headers == headers
    ensures request.body.Object? && Payload.ContainerTexts(request.body.fields) == Some(texts)
  {
    Request(MessagesUrl(baseUrl, ChannelId(channel)), headers, Object(Payload.MultiplePayload(texts)))
  }

  /** The names `send(self, channel, content, **kwargs)` binds itself. */
  const SEND_PARAMETERS: set<string> := {"self", "channel", "content"}

  /**
    `send`'s request for `content` and `overrides`, as a configured client
    builds it: to the channel's messages URL, with the client's headers, and
    a body in which every override wins and, unless `components` is
    overridden, the container displays exactly `content`.
   */
  function SingleRequest(baseUrl: string, headers: Dicts.Items<string>, channel: Channel, content: string, overrides: Dicts.Items<Value>): (request: Request)
    requires Payload.NoParameterClash(overrides, SEND_PARAMETERS)
    ensures ChannelIdOfUrl(baseUrl, request.url) == Some(ChannelId(channel))
    ensures request.headers == headers
    ensures request.body.Object?
    ensures forall k :: Dicts.HasKey(overrides, k) ==> Dicts.Get(request.body.fields, k) == Dicts.Get(overrides, k)
    ensures !Dicts.HasKey(overrides, "components") ==> Payload.ContainerTexts(request.body.fields) == Some([content])
  {
    Payload.ShallowMerge(content, overrides);
    Request(MessagesUrl(baseUrl, ChannelId(channel)), headers, Object(Payload.SinglePayload(content, overrides)))
  }

  class ContainerMessage {
    const botToken: string
    const baseUrl: string
    const headers: Dicts.Items<string>

    constructor (botToken: string)
      ensures this.botToken == botToken
      ensures baseUrl == DISCORD_API_BASE
      ensures headers == AuthHeaders(botToken)
    {
      this.botToken := botToken;
      baseUrl := DISCORD_API_BASE;
      headers := AuthHeaders(botToken);
    }

    /** `build_payload(content, **overrides)`: the base dict, updated in place with the overrides. */
    method BuildPayload(content: string, overrides: Dicts.Items<Value>) returns (payload: Dicts.Items<Value>)
      requires Payload.NoParameterClash(overrides, Payload.BUILD_PAYLOAD_PARAMETERS)
      ensures payload == Payload.SinglePayload(content, overrides)
      ensures forall k :: Dicts.HasKey(overrides, k) ==> Dicts.Get(payload, k) == Dicts.Get(overrides, k)
      ensures !Dicts.HasKey(overrides, "flags") ==> Dicts.Get(payload, "flags") == Some(Int(Payload.IS_COMPONENTS_V2))
    {
      var dict := new Dicts.Dict(Payload.Base([Payload.TextDisplay(content)]));
      dict.Update(overrides);
      payload := dict.items;
      Payload.ShallowMerge(content, overrides);
    }

    /**
      `send(channel, content, **overrides)`: posts the `build_payload` body to
      the channel's messages URL with the client's headers, and returns the
      decoded body when the platform answers 200, `None` otherwise.
     */
    method Send(channel: Channel, content: string, overrides: Dicts.Items<Value>, transport: Request -> Response)
      returns (result: Option<Value>)
      requires Payload.NoParameterClash(overrides, SEND_PARAMETERS)
      ensures result == ResultOf(transport(SingleRequest(baseUrl, headers, channel, content, overrides)))
    {
      var channelId := ChannelId(channel);
      var payload := new Dicts.Dict(Payload.Base([Payload.TextDisplay(content)]));
      payload.Update(overrides);
      var url := MessagesUrl(baseUrl, channelId);
      var response := transport(Request(url, headers, Object(payload.items)));
      if response.status == 200 {
        result := if response.body.Null? then None else Some(response.body);
      } else {
        result := None;
      }
    }

    /**
      `send_multiple(channel, texts)`: posts one container holding a text
      display per text, with no overrides, and returns the decoded body
      when the platform answers 200, `None` otherwise.
     */
    method SendMultiple(channel: Channel, texts: seq<string>, transport: Request -> Response)
      returns (result: Option<Value>)
      ensures result == ResultOf(transport(MultipleRequest(baseUrl, headers, channel, texts)))
    {
      var channelId := ChannelId(channel);
      var textComponents := Payload.TextDisplays(texts);
      var payload := Payload.Base(textComponents);
      var url := MessagesUrl(baseUrl, channelId);
      var response := transport(Request(url, headers, Object(payload)));
      if response.status == 200 {
        result := if response.body.Null? then None else Some(response.body);
      } else {
        result := None;
      }
    }
  }

  /** `send_container(bot_token, channel, content)`: a fresh client's `send` with no overrides. */
  method SendContainer(botToken: string, channel: Channel, content: string, transport: Request -> Response)
    returns (result: Option<Value>)
    ensures result == ResultOf(transport(SingleRequest(DISCORD_API_BASE, AuthHeaders(botToken), channel, content, [])))
  {
    var container := new ContainerMessage(botToken);
    result := container.Send(channel, content, [], transport);
  }

  /** One text through `send_multiple` posts the same request as `send` with that text and no overrides. */
  lemma SingleTextRequestsAgree(baseUrl: string, headers: Dicts.Items<string>, channel: Channel, content: string)
    ensures SingleRequest(baseUrl, headers, channel, content, []) == MultipleRequest(baseUrl, headers, channel, [content])
  {
    Payload.SingleIsMultipleOfOne(content);
  }
}
