/**
  The message body of a Components V2 message, as `containermessage` builds
  it: `{flags: 32768, components: [{type: 17, components: [text displays]}]}`
  where each text display is `{type: 10, content: s}`, with the caller's
  keyword overrides stored over the top level.  The readers look a payload
  back up the way the platform does (`payload["components"][0]...`), and the
  contracts state what a built payload is in their terms.
 */
module Payload {
  import opened Wrappers
  import opened Json
  import Dicts

  const CONTAINER_TYPE: int := 17
  const TEXT_DISPLAY_TYPE: int := 10
  /** The "uses components V2" message flag, bit 15. */
  const IS_COMPONENTS_V2: int := (1 as bv16 << 15) as int

  lemma ComponentsV2FlagValue()
    ensures IS_COMPONENTS_V2 == 32768
  {
  }

  // Readers.

  /** The text of a type-10 text display. */
  function TextOf(v: Value): Option<string> {
    if v.Object? && Dicts.Get(v.fields, "type") == Some(Int(TEXT_DISPLAY_TYPE)) then
      var content := Dicts.Get(v.fields, "content");
      if content.Some? && content.value.Str? then Some(content.value.s) else None
    else None
  }

  /** The texts of a list of text displays, if every element is one. */
  function TextsOf(vs: seq<Value>): Option<seq<string>> {
    if vs == [] then Some([])
    else
      match (TextOf(vs[0]), TextsOf(vs[1..]))
      case (Some(t), Some(ts)) => Some([t] + ts)
      case _ => None
  }

  /** The children of the payload's container, if `components` holds exactly one type-17 container. */
  function Children(payload: Dicts.Items<Value>): Option<seq<Value>> {
    var top := Dicts.Get(payload, "components");
    if top.Some? && top.value.Array? && |top.value.elems| == 1 then
      var container := top.value.elems[0];
      if container.Object? && Dicts.Get(container.fields, "type") == Some(Int(CONTAINER_TYPE)) then
        var children := Dicts.Get(container.fields, "components");
        if children.Some? && children.value.Array? then Some(children.value.elems) else None
      else None
    else None
  }

  /** The texts a payload displays, read back through its container. */
  function ContainerTexts(payload: Dicts.Items<Value>): Option<seq<string>> {
    match Children(payload)
    case Some(children) => TextsOf(children)
    case None => None
  }

  // Builders.

  /** A text display: exactly the keys `type` and `content`, read back as type 10 holding `content` unchanged. */
  function TextDisplay(content: string): (v: Value)
    ensures v.Object? && Dicts.Keys(v.fields) == ["type", "content"]
    ensures TextOf(v) == Some(content)
  {
    var fields := [("type", Int(TEXT_DISPLAY_TYPE)), ("content", Str(content))];
    Dicts.PairLiteral("type", Int(TEXT_DISPLAY_TYPE), "content", Str(content), "type");
    Dicts.PairLiteral("type", Int(TEXT_DISPLAY_TYPE), "content", Str(content), "content");
    Object(fields)
  }

  /** The list comprehension of `send_multiple`: one text display per text, in order. */
  function TextDisplays(texts: seq<string>): (vs: seq<Value>)
    ensures |vs| == |texts|
    ensures forall i :: 0 <= i < |texts| ==> TextOf(vs[i]) == Some(texts[i])
  {
    seq(|texts|, i requires 0 <= i < |texts| => TextDisplay(texts[i]))
  }

  /** A container: exactly the keys `type` (17) and `components`, which holds `children`. */
  function Container(children: seq<Value>): (v: Value)
    ensures v.Object? && Dicts.Keys(v.fields) == ["type", "components"]
    ensures Dicts.Get(v.fields, "type") == Some(Int(CONTAINER_TYPE))
    ensures Dicts.Get(v.fields, "components") == Some(Array(children))
  {
    var fields := [("type", Int(CONTAINER_TYPE)), ("components", Array(children))];
    Dicts.PairLiteral("type", Int(CONTAINER_TYPE), "components", Array(children), "type");
    Dicts.PairLiteral("type", Int(CONTAINER_TYPE), "components", Array(children), "components");
    Object(fields)
  }

  /**
    The dict literal both builders start from: exactly the unique keys `flags`
    (the components-v2 flag) and `components`, one type-17 container holding
    `children`.
   */
  function Base(children: seq<Value>): (p: Dicts.Items<Value>)
    ensures Dicts.Keys(p) == ["flags", "components"]
    ensures Dicts.UniqueKeys(p)
    ensures Dicts.Get(p, "flags") == Some(Int(IS_COMPONENTS_V2))
    ensures Children(p) == Some(children)
  {
    var c := Container(children);
    Dicts.PairLiteral("flags", Int(IS_COMPONENTS_V2), "components", Array([c]), "flags");
    Dicts.PairLiteral("flags", Int(IS_COMPONENTS_V2), "components", Array([c]), "components");
    [("flags", Int(IS_COMPONENTS_V2)), ("components", Array([c]))]
  }

  /**
    The names `build_payload(self, content, **kwargs)` binds itself: Python
    raises `TypeError` ("got multiple values for argument") for a keyword
    override with one of these names, before the body runs.
   */
  const BUILD_PAYLOAD_PARAMETERS: set<string> := {"self", "content"}

  /** No override names one of `parameters`, so Python can bind the call. */
  predicate NoParameterClash(overrides: Dicts.Items<Value>, parameters: set<string>) {
    forall k :: k in parameters ==> !Dicts.HasKey(overrides, k)
  }

  /**
    What `build_payload(content, **overrides)` returns, and what `send` posts:
    every override key takes the override's value, every other key keeps the
    base value, and the keys are `flags`, `components`, then the new override
    keys in order, each once.
   */
  function SinglePayload(content: string, overrides: Dicts.Items<Value>): (p: Dicts.Items<Value>)
    requires NoParameterClash(overrides, BUILD_PAYLOAD_PARAMETERS)
    ensures forall k :: Dicts.HasKey(overrides, k) ==> Dicts.Get(p, k) == Dicts.Get(overrides, k)
    ensures forall k :: !Dicts.HasKey(overrides, k) ==> Dicts.Get(p, k) == Dicts.Get(Base([TextDisplay(content)]), k)
    ensures Dicts.Keys(p) == ["flags", "components"] + Dicts.NewKeys(["flags", "components"], overrides)
    ensures Dicts.UniqueKeys(p)
  {
    Dicts.UpdateAll(Base([TextDisplay(content)]), overrides)
  }

  /**
    What `send_multiple(channel, texts)` posts: exactly `flags` (32768) and
    `components`, a single type-17 container whose children are one type-10
    text display per text, in order, reading back as exactly `texts`.
   */
  function MultiplePayload(texts: seq<string>): (p: Dicts.Items<Value>)
    ensures Dicts.Keys(p) == ["flags", "components"]
    ensures Dicts.Get(p, "flags") == Some(Int(32768))
    ensures Children(p).Some? && |Children(p).value| == |texts|
    ensures forall i :: 0 <= i < |texts| ==> TextOf(Children(p).value[i]) == Some(texts[i])
    ensures ContainerTexts(p) == Some(texts)
  {
    TextsOfTextDisplays(texts);
    Base(TextDisplays(texts))
  }

  // Properties.

  /** The comprehension round-trips: the displays built from `texts` read back as `texts`. */
  lemma {:induction false} TextsOfTextDisplays(texts: seq<string>)
    ensures TextsOf(TextDisplays(texts)) == Some(texts)
  {
    if texts != [] {
      assert TextDisplays(texts)[1..] == TextDisplays(texts[1..]);
      TextsOfTextDisplays(texts[1..]);
      assert [texts[0]] + texts[1..] == texts;
    }
  }

  /**
    Without overrides, `build_payload(content)` has exactly the keys `flags`
    (32768) and `components`, a single type-17 container with exactly one
    type-10 child whose content is `content` unchanged.
   */
  lemma SinglePayloadShape(content: string)
    ensures Dicts.Keys(SinglePayload(content, [])) == ["flags", "components"]
    ensures Dicts.Get(SinglePayload(content, []), "flags") == Some(Int(32768))
    ensures Children(SinglePayload(content, [])) == Some([TextDisplay(content)])
    ensures ContainerTexts(SinglePayload(content, [])) == Some([content])
  {
    TextsOfTextDisplays([content]);
    assert TextDisplays([content]) == [TextDisplay(content)];
  }

  /** One text sent with `send_multiple` is the same body as `send` with no overrides. */
  lemma SingleIsMultipleOfOne(content: string)
    ensures SinglePayload(content, []) == MultiplePayload([content])
  {
    assert TextDisplays([content]) == [TextDisplay(content)];
  }

  /**
    The merge is shallow: an override of `components` or `flags` replaces the
    whole value, and without such an override the built value stays, so with
    no `flags` override the flag is 32768 and with no `components` override
    the container still displays `content`.
   */
  lemma ShallowMerge(content: string, overrides: Dicts.Items<Value>)
    requires NoParameterClash(overrides, BUILD_PAYLOAD_PARAMETERS)
    ensures Dicts.HasKey(overrides, "components") ==>
      Dicts.Get(SinglePayload(content, overrides), "components") == Dicts.Get(overrides, "components")
    ensures Dicts.HasKey(overrides, "flags") ==>
      Dicts.Get(SinglePayload(content, overrides), "flags") == Dicts.Get(overrides, "flags")
    ensures !Dicts.HasKey(overrides, "flags") ==>
      Dicts.Get(SinglePayload(content, overrides), "flags") == Some(Int(32768))
    ensures !Dicts.HasKey(overrides, "components") ==>
      ContainerTexts(SinglePayload(content, overrides)) == Some([content])
  {
    var b := Base([TextDisplay(content)]);
    var p := SinglePayload(content, overrides);
    if !Dicts.HasKey(overrides, "components") {
      assert Dicts.Get(p, "components") == Dicts.Get(b, "components");
      TextsOfTextDisplays([content]);
      assert TextDisplays([content]) == [TextDisplay(content)];
    }
  }
}
