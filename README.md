# Discord Container Builder — a Dafny model

This project models `containermessage`, the helper that composes Discord
"Components V2" messages and posts them to the REST API. A message body is
`{flags: 32768, components: [container]}`. The container is
`{type: 17, components: [...]}`, and each of its children is a text display
`{type: 10, content: s}`. `build_payload` and `send` build a body with one text
display and then store the caller's keyword overrides over it with
`payload.update(kwargs)`. `send_multiple` builds one text display per text, in
order, and applies no overrides. Each send posts the body to
`{base_url}/channels/{channel_id}/messages` with an `Authorization: Bot <token>`
header. On status 200 it returns the decoded body, which Python gives as `None`
when the body is JSON `null` or empty. On any other status it returns `None`.

Modules:

- `Wrappers` (wrappers.dfy): `Option`, for Python's `Optional`.
- `Json` (json.dfy): the JSON-like values in payloads, overrides and responses.
- `Dicts` (dicts.dfy): Python's insertion-ordered `dict`, as a list of bindings
  (`Get`, `Set`, `UpdateAll`). It also has a mutable `Dict` class whose
  `Update` method is `dict.update` done in place.
- `Decimal` (decimal.dfy): Python's `str(int)`, used to put the channel id into
  the URL, and a parser that reads it back.
- `Payload` (payload.dfy): the constants, the payload builders, readers that
  look a payload up the way the platform does (`payload["components"][0]...`),
  and the shape and precedence lemmas.
- `ContainerBuilder` (container_builder.dfy):
  - channel-id resolution, the messages URL and the headers;
  - the status-200 rule;
  - the `ContainerMessage` class with `BuildPayload`, `Send` and `SendMultiple`;
  - `SendContainer`.

The HTTP POST is a parameter, `transport: Request -> Response`: a function from
the request the client describes (URL, headers, body) to the platform's answer
(status and decoded body). Each send method's postcondition says that its
result is `ResultOf` of the answer to exactly the request built from its
arguments.

A dict's keys are unique. `Dicts.Get` reads the last binding of a key, so for a
dict this is its only binding. For an override list that binds a key twice, the
later binding wins, exactly as `dict.update` does.

## Model

| member | source | states |
|---|---|---|
| Payload.ComponentsV2FlagValue | container_builder.py:11 | The components-v2 flag, written as bit 15 (`1 << 15`), is 32768. |
| Payload.TextDisplay | container_builder.py:39-42 | Models the text-display literal. It has exactly the keys `type` and `content`, and reads back as type 10 with its content unchanged, including the empty string. |
| Payload.TextDisplays | container_builder.py:71-77 | Models the list comprehension of `send_multiple`. It has one element per text, and element i reads back as a type-10 display holding `texts[i]`. `Payload.TextsOfTextDisplays` gives the whole-list round trip. |
| Payload.TextsOfTextDisplays | container_builder.py:71-77 | The comprehension round-trips: the text displays built from `texts` read back as exactly `texts`, in order. |
| Payload.Container | container_builder.py:82-85 | Models the container literal. It has exactly the keys `type` and `components`, its type is 17, and its `components` is exactly the given children. |
| Payload.Base | container_builder.py:79-87 | Models the dict literal both builders start from. It has exactly the unique keys `flags` and `components`, and `flags` is the components-v2 flag. Its `components` is one type-17 container holding the given children. |
| Payload.SinglePayload | container_builder.py:111-125 | Models `build_payload`: the base literal for one text display, then `update` with the overrides. Every override key has the override's value and every other key keeps its base value. The keys are `flags`, `components`, then the new override keys in order, and they stay unique. It requires that no override is named `self` or `content`, the names Python binds itself. |
| Payload.MultiplePayload | container_builder.py:71-87 | Models the `send_multiple` body. It has exactly the keys `flags` (32768) and `components`. Its one type-17 container has exactly n children, child i is type 10 with content `texts[i]`, and the whole reads back as `texts`. |
| Payload.SinglePayloadShape | container_builder.py:111-124 | With no overrides, `build_payload` has exactly the keys `flags` (32768) and `components`. Its one type-17 container has exactly one type-10 child holding `content` unchanged. |
| Payload.SingleIsMultipleOfOne | container_builder.py:79-87 | `send_multiple` with one text builds the same body as `build_payload` with that text and no overrides. |
| Payload.ShallowMerge | container_builder.py:111-125 | An override of `components` or `flags` replaces the whole value, with no deep merge. Without a `flags` override the flag stays 32768. Without a `components` override the container still displays `content`. |
| Dicts.Get | container_builder.py:125 | Models a dict lookup. It finds a value exactly when the key is bound. |
| Dicts.Replace | container_builder.py:125 | Models the case of `d[k] = v` where `k` already exists. The keys and their order stay the same, `k` reads `v`, and every other key reads as before. |
| Dicts.Set | container_builder.py:125 | Models `d[k] = v`, one step of `update`. `k` reads `v` and every other key keeps its value. An existing key keeps its position, a new key is appended, and the keys stay unique. |
| Dicts.NewKeys | container_builder.py:125 | The keys an update introduces are exactly the keys of `other` not already present. |
| Dicts.UpdateAll | container_builder.py:48 | Models `d.update(other)`. A key of `other` has `other`'s last value, and any other key has `d`'s value. The keys are `d`'s keys in place, followed by the keys `other` introduces, in `other`'s order, and they stay unique. |
| Dicts.UpdateAllHasKey | container_builder.py:48 | The keys after `d.update(other)` are exactly the union of `d`'s keys and `other`'s keys. |
| Dicts.PairLiteral | container_builder.py:16-19 | A two-key dict literal has those keys in order, unique, and maps each key to its value and nothing else. |
| Dicts.Dict.constructor | container_builder.py:33-46 | A dict literal with unique keys makes a valid dict holding exactly those bindings. |
| Dicts.Dict.SetItem | container_builder.py:125 | The in-place `d[k] = v` keeps the dict valid, and its new contents are `Set` of the old ones. |
| Dicts.Dict.Update | container_builder.py:48 | The in-place `payload.update(kwargs)` keeps the dict valid, and its new contents are `UpdateAll` of the old contents and the overrides. |
| Decimal.NatToString | container_builder.py:50 | The decimal form of a channel id has at least one digit, only digits, and no leading zero unless the id is 0. |
| Decimal.DecimalString | container_builder.py:50 | Models `str(id)`. It is non-empty and starts with `-` exactly when the id is negative. |
| Decimal.ParseNatToString | container_builder.py:50 | Reading back the digits of n gives n. |
| Decimal.DecimalRoundTrip | container_builder.py:50 | Reading back `str(id)` gives `id`. |
| Decimal.NatToStringParseNat | container_builder.py:50 | Canonical digits (no leading zero) are exactly the digits of the number they denote. |
| Decimal.ParseDecimalExact | container_builder.py:50 | The parser accepts only what `str` writes. A string it reads as `n` is `str(n)`, so leading zeros and `-0` are rejected. |
| Decimal.DecimalInjective | container_builder.py:50 | Different ids format to different strings. |
| ContainerBuilder.ChannelId | container_builder.py:31 | The target id is the object's `id` for a channel or thread handle, and the value itself for a raw id. |
| ContainerBuilder.MessagesUrl | container_builder.py:50 | Models `f"{base_url}/channels/{channel_id}/messages"`. The URL starts with the base and parses back to exactly the channel id it was built for. |
| ContainerBuilder.ChannelIdOfUrlExact | container_builder.py:50 | The URL reader accepts exactly the URLs the f-string writes. A URL it reads as channel `id` is `MessagesUrl(base, id)`. |
| ContainerBuilder.MessagesUrlInjective | container_builder.py:89 | Two different channel ids never get the same messages URL. |
| ContainerBuilder.ChannelUrl | container_builder.py:15-50 | A handle and a raw id with the same id address the same endpoint. With the fixed base, that endpoint is `"https://discord.com/api/v10/channels/" + str(id) + "/messages"`. |
| ContainerBuilder.AuthHeaders | container_builder.py:16-19 | Models the headers `__init__` sets. They are exactly `Authorization` and `Content-Type`, in that order. The content type is `application/json`, and the authorization is `Bot ` followed by the token, which reads back unchanged. |
| ContainerBuilder.Decoded | container_builder.py:55 | Models the Python value of a decoded body. JSON `null` is `None`, and any other body is itself. |
| ContainerBuilder.ResultOf | container_builder.py:54-59 | Every status other than 200 gives `None`. The result is `Some(body)` exactly when the status is 200 and the body is not JSON `null`. |
| ContainerBuilder.MultipleRequest | container_builder.py:69-92 | Models what `send_multiple` posts. The URL names the resolved channel, the headers are the client's, and the body's container displays exactly `texts`. |
| ContainerBuilder.SingleRequest | container_builder.py:31-53 | Models what `send` posts. The URL names the resolved channel and the headers are the client's. Every override key has the override's value, and without a `components` override the container displays exactly `content`. |
| ContainerBuilder.ContainerMessage.constructor | container_builder.py:13-19 | The client keeps its token, the fixed API base URL and the authorization headers for that token. |
| ContainerBuilder.ContainerMessage.BuildPayload | container_builder.py:100-126 | The built dict is the base literal updated in place with the overrides, which is `SinglePayload`. Every override key has the override's value. Without a `flags` override, `flags` is 32768. It requires no override named `self` or `content`. |
| ContainerBuilder.ContainerMessage.Send | container_builder.py:21-59 | `send` gives `ResultOf` of the answer to exactly `SingleRequest`: the channel's messages URL, the client's headers, and the `build_payload` body for the same arguments. It requires no override named `self`, `channel` or `content`. |
| ContainerBuilder.ContainerMessage.SendMultiple | container_builder.py:61-98 | `send_multiple` gives `ResultOf` of the answer to exactly `MultipleRequest`: the channel's messages URL, the client's headers, and the one-display-per-text body. |
| ContainerBuilder.SendContainer | container_builder.py:128-139 | `send_container` is `send` with no overrides on a fresh client for the token. It posts to the fixed base URL with that token's headers. |
| ContainerBuilder.SingleTextRequestsAgree | container_builder.py:71-89 | `send_multiple` with one text posts the same request as `send` with that text and no overrides. |

## Left out

- The aiohttp session, the POST and its awaiting (container_builder.py:52-53, 91-92) are network I/O. They are the `transport` parameter. A transport failure, which the source lets propagate, has no counterpart, because the transport is a total function.
- Encoding the payload as JSON is a library call. The response body arrives already decoded as a `Json.Value`. The raw text that `response.text()` reads on failure is not modelled.
- ContainerBuilder.ResultOf: a 200 answer that aiohttp will not decode raises in the source (container_builder.py:55) and has no counterpart here. That happens when the body is not JSON, or when the Content-Type is not application/json. An empty 200 body gives `None`; the model matches this when the transport reports the body as `Null`.
- ContainerBuilder.ContainerMessage.BuildPayload: a keyword override named `self` or `content` makes Python raise `TypeError` ("got multiple values for argument") before the body runs (container_builder.py:100). That error is a precondition here, not a modelled error path.
- ContainerBuilder.ContainerMessage.Send: the same `TypeError` arises for an override named `self`, `channel` or `content` (container_builder.py:21). It is a precondition here too.
- The failure diagnostic `print` (container_builder.py:58, 97) is console output.
- `SECTION_TYPE` (container_builder.py:9) is defined but never used.
- The `discord.TextChannel` and `discord.Thread` types, and `hasattr` duck typing, are reduced to the variant `Channel = Handle(id) | RawId(value)`. Ids are integers, as the source's annotation says. A raw id given as a string is not modelled.
- Keyword-override values may be arbitrary Python objects in the source. Here they are `Json.Value`s, which are null, booleans, integers, strings, lists and string-keyed dicts. Floats and other Python objects have no counterpart.
- test-discord.py (bot setup, secret loading, command handlers, `bot.run`) is external wiring and is not part of this model.
