/**
 * The result shapes of `prompts/list` and `prompts/get` as the pydantic
 * models declare them, written as parsers from decoded JSON to typed values
 * (`None` is a validation error), with the JSON each typed value stands for.
 *
 * Validation follows pydantic 2 in its default lax mode: unknown fields are
 * ignored, a `str` field takes only a string, an optional field may be
 * absent or null, and a `bool` field also takes 0, 1 and the usual yes/no
 * words in any letter case.
 */
module Schema {
  import opened JsonData
  import Text

  datatype Argument = Argument(name: string, description: string, required: bool)

  datatype Prompt = Prompt(name: string, description: string, arguments: Option<seq<Argument>>)

  datatype PromptsListResult = PromptsListResult(prompts: seq<Prompt>, nextCursor: Option<string>)

  /** The content union, discriminated by its `type` field. */
  datatype MessageContent =
    | TextContent(text: string)
    | ImageContent(data: string, mimeType: string)
    | ResourceContent(resource: map<string, string>)

  datatype Role = User | Assistant

  datatype PromptMessage = PromptMessage(role: Role, content: MessageContent)

  datatype PromptsGetResult = PromptsGetResult(description: Option<string>, messages: seq<PromptMessage>)

  // ---------------------------------------------------------------- field rules

  function ParseStr(j: Json): (r: Option<string>)
    ensures r.Some? <==> j.Str?
  {
    if j.Str? then Some(j.s) else None
  }

  /** A required `str` field. */
  function StrField(m: map<string, Json>, key: string): (r: Option<string>)
    ensures r.Some? <==> key in m && m[key].Str?
    ensures r.Some? ==> m[key] == Str(r.value)
  {
    if key in m then ParseStr(m[key]) else None
  }

  /** An `Optional[str] = None` field: absent or null is `None`, a string is kept, anything else fails. */
  function OptStrField(m: map<string, Json>, key: string): (r: Option<Option<string>>)
    ensures r.Some? <==> key !in m || m[key] == Null || m[key].Str?
    ensures r == Some(None) <==> key !in m || m[key] == Null
  {
    if key !in m || m[key] == Null then Some(None)
    else if m[key].Str? then Some(Some(m[key].s))
    else None
  }

  const TrueWords: set<string> := {"1", "on", "t", "true", "y", "yes"}
  const FalseWords: set<string> := {"0", "off", "f", "false", "n", "no"}

  /** A `bool` field in lax mode. */
  function ParseLaxBool(j: Json): (r: Option<bool>)
    ensures j.Bool? ==> r == Some(j.b)
    ensures j.Arr? || j.Obj? || j == Null ==> r.None?
  {
    match j
    case Bool(b) => Some(b)
    case Num(n) => if n == 0 then Some(false) else if n == 1 then Some(true) else None
    case Str(s) =>
      var w := Text.LowerAscii(s);
      if w in TrueWords then Some(true) else if w in FalseWords then Some(false) else None
    case _ => None
  }

  // ---------------------------------------------------------------- parsers

  /** An `Argument`: a string `name`, a string `description` and a lax `required` boolean, all three present. */
  function ParseArgument(j: Json): (r: Option<Argument>)
    ensures r.Some? <==>
              j.Obj? && StrField(j.fields, "name").Some? && StrField(j.fields, "description").Some? &&
              "required" in j.fields && ParseLaxBool(j.fields["required"]).Some?
    ensures r.Some? ==>
              j.Obj? && "name" in j.fields && "description" in j.fields && "required" in j.fields &&
              j.fields["name"] == Str(r.value.name) && j.fields["description"] == Str(r.value.description) &&
              ParseLaxBool(j.fields["required"]) == Some(r.value.required)
  {
    if !j.Obj? then None
    else
      var name := StrField(j.fields, "name");
      var description := StrField(j.fields, "description");
      var required := if "required" in j.fields then ParseLaxBool(j.fields["required"]) else None;
      if name.Some? && description.Some? && required.Some? then
        Some(Argument(name.value, description.value, required.value))
      else None
  }

  /** A `List[Argument]`: every element must validate. */
  function ParseArguments(items: seq<Json>): (r: Option<seq<Argument>>)
    ensures r.Some? ==> |r.value| == |items|
    ensures r.Some? <==> forall i :: 0 <= i < |items| ==> ParseArgument(items[i]).Some?
    ensures r.Some? ==> forall i :: 0 <= i < |items| ==> ParseArgument(items[i]) == Some(r.value[i])
    decreases |items|
  {
    if items == [] then Some([])
    else
      var head := ParseArgument(items[0]);
      var tail := ParseArguments(items[1..]);
      if head.Some? && tail.Some? then Some([head.value] + tail.value) else None
  }

  /**
   * A `Prompt`: a string `name` and `description`, and `arguments` that are
   * absent, null, or a list of valid arguments.
   */
  function ParsePrompt(j: Json): (r: Option<Prompt>)
    ensures r.Some? <==>
              j.Obj? && StrField(j.fields, "name").Some? && StrField(j.fields, "description").Some? &&
              ("arguments" !in j.fields || j.fields["arguments"] == Null ||
               (j.fields["arguments"].Arr? && ParseArguments(j.fields["arguments"].items).Some?))
    ensures r.Some? ==>
              j.Obj? && "name" in j.fields && "description" in j.fields &&
              j.fields["name"] == Str(r.value.name) && j.fields["description"] == Str(r.value.description)
    ensures r.Some? ==> (r.value.arguments.None? <==> "arguments" !in j.fields || j.fields["arguments"] == Null)
    ensures r.Some? && r.value.arguments.Some? ==>
              "arguments" in j.fields && j.fields["arguments"].Arr? &&
              ParseArguments(j.fields["arguments"].items) == Some(r.value.arguments.value)
  {
    if !j.Obj? then None
    else
      var name := StrField(j.fields, "name");
      var description := StrField(j.fields, "description");
      var arguments :=
        if "arguments" !in j.fields || j.fields["arguments"] == Null then Some(None)
        else if j.fields["arguments"].Arr? then
          var parsed := ParseArguments(j.fields["arguments"].items);
          if parsed.Some? then Some(Some(parsed.value)) else None
        else None;
      if name.Some? && description.Some? && arguments.Some? then
        Some(Prompt(name.value, description.value, arguments.value))
      else None
  }

  function ParsePrompts(items: seq<Json>): (r: Option<seq<Prompt>>)
    ensures r.Some? ==> |r.value| == |items|
    ensures r.Some? <==> forall i :: 0 <= i < |items| ==> ParsePrompt(items[i]).Some?
    ensures r.Some? ==> forall i :: 0 <= i < |items| ==> ParsePrompt(items[i]) == Some(r.value[i])
    decreases |items|
  {
    if items == [] then Some([])
    else
      var head := ParsePrompt(items[0]);
      var tail := ParsePrompts(items[1..]);
      if head.Some? && tail.Some? then Some([head.value] + tail.value) else None
  }

  function ParsePromptsListResult(j: Json): (r: Option<PromptsListResult>)
    ensures r.Some? ==> j.Obj? && "prompts" in j.fields && j.fields["prompts"].Arr?
    ensures r.Some? ==> |r.value.prompts| == |j.fields["prompts"].items|
    ensures r.Some? ==> OptStrField(j.fields, "nextCursor") == Some(r.value.nextCursor)
    ensures r.Some? <==>
              j.Obj? && "prompts" in j.fields && j.fields["prompts"].Arr? &&
              ParsePrompts(j.fields["prompts"].items).Some? && OptStrField(j.fields, "nextCursor").Some?
    ensures r.Some? ==> ParsePrompts(j.fields["prompts"].items) == Some(r.value.prompts)
  {
    if !j.Obj? || "prompts" !in j.fields || !j.fields["prompts"].Arr? then None
    else
      var prompts := ParsePrompts(j.fields["prompts"].items);
      var cursor := OptStrField(j.fields, "nextCursor");
      if prompts.Some? && cursor.Some? then Some(PromptsListResult(prompts.value, cursor.value)) else None
  }

  /** A `Dict[str, str]`: every value must be a string. */
  function ParseStrMap(m: map<string, Json>): (r: Option<map<string, string>>)
    ensures r.Some? <==> forall k :: k in m ==> m[k].Str?
    ensures r.Some? ==> r.value.Keys == m.Keys && forall k :: k in m ==> m[k] == Str(r.value[k])
  {
    if forall k :: k in m ==> m[k].Str? then Some(map k | k in m :: m[k].s) else None
  }

  /**
   * The discriminated content union: the `type` tag picks the variant and any
   * other tag, or a missing one, is rejected.
   */
  function ParseContent(j: Json): (r: Option<MessageContent>)
    ensures r.Some? ==> j.Obj? && "type" in j.fields
    ensures r.Some? ==> j.fields["type"] in {Str("text"), Str("image"), Str("resource")}
    ensures r.Some? && r.value.TextContent? <==> r.Some? && j.fields["type"] == Str("text")
    ensures r.Some? && r.value.ImageContent? <==> r.Some? && j.fields["type"] == Str("image")
    ensures r.Some? && r.value.ResourceContent? <==> r.Some? && j.fields["type"] == Str("resource")
    ensures r.Some? <==>
              j.Obj? && "type" in j.fields &&
              ((j.fields["type"] == Str("text") && StrField(j.fields, "text").Some?) ||
               (j.fields["type"] == Str("image") && StrField(j.fields, "data").Some? && StrField(j.fields, "mimeType").Some?) ||
               (j.fields["type"] == Str("resource") && "resource" in j.fields && j.fields["resource"].Obj? &&
                ParseStrMap(j.fields["resource"].fields).Some?))
    ensures r.Some? && r.value.TextContent? ==> "text" in j.fields && j.fields["text"] == Str(r.value.text)
    ensures r.Some? && r.value.ImageContent? ==>
              "data" in j.fields && "mimeType" in j.fields &&
              j.fields["data"] == Str(r.value.data) && j.fields["mimeType"] == Str(r.value.mimeType)
    ensures r.Some? && r.value.ResourceContent? ==>
              "resource" in j.fields && j.fields["resource"].Obj? &&
              ParseStrMap(j.fields["resource"].fields) == Some(r.value.resource)
  {
    if !j.Obj? || "type" !in j.fields then None
    else
      var m := j.fields;
      if m["type"] == Str("text") then
        var text := StrField(m, "text");
        if text.Some? then Some(TextContent(text.value)) else None
      else if m["type"] == Str("image") then
        var data := StrField(m, "data");
        var mime := StrField(m, "mimeType");
        if data.Some? && mime.Some? then Some(ImageContent(data.value, mime.value)) else None
      else if m["type"] == Str("resource") then
        if "resource" in m && m["resource"].Obj? then
          var res := ParseStrMap(m["resource"].fields);
          if res.Some? then Some(ResourceContent(res.value)) else None
        else None
      else None
  }

  function ParseRole(j: Json): (r: Option<Role>)
    ensures r.Some? <==> j == Str("user") || j == Str("assistant")
    ensures r == Some(User) <==> j == Str("user")
  {
    if j == Str("user") then Some(User)
    else if j == Str("assistant") then Some(Assistant)
    else None
  }

  /** A `PromptMessage`: a valid role and valid content, both present. */
  function ParsePromptMessage(j: Json): (r: Option<PromptMessage>)
    ensures r.Some? <==>
              j.Obj? && "role" in j.fields && "content" in j.fields &&
              ParseRole(j.fields["role"]).Some? && ParseContent(j.fields["content"]).Some?
    ensures r.Some? ==>
              j.Obj? && "role" in j.fields && "content" in j.fields &&
              ParseRole(j.fields["role"]) == Some(r.value.role) && ParseContent(j.fields["content"]) == Some(r.value.content)
  {
    if !j.Obj? || "role" !in j.fields || "content" !in j.fields then None
    else
      var role := ParseRole(j.fields["role"]);
      var content := ParseContent(j.fields["content"]);
      if role.Some? && content.Some? then Some(PromptMessage(role.value, content.value)) else None
  }

  function ParseMessages(items: seq<Json>): (r: Option<seq<PromptMessage>>)
    ensures r.Some? ==> |r.value| == |items|
    ensures r.Some? <==> forall i :: 0 <= i < |items| ==> ParsePromptMessage(items[i]).Some?
    ensures r.Some? ==> forall i :: 0 <= i < |items| ==> ParsePromptMessage(items[i]) == Some(r.value[i])
    decreases |items|
  {
    if items == [] then Some([])
    else
      var head := ParsePromptMessage(items[0]);
      var tail := ParseMessages(items[1..]);
      if head.Some? && tail.Some? then Some([head.value] + tail.value) else None
  }

  /** A `prompts/get` result: an optional description and at least one message. */
  function ParsePromptsGetResult(j: Json): (r: Option<PromptsGetResult>)
    ensures r.Some? ==> j.Obj? && "messages" in j.fields && j.fields["messages"].Arr?
    ensures r.Some? ==> |r.value.messages| == |j.fields["messages"].items| >= 1
    ensures r.Some? <==>
              j.Obj? && "messages" in j.fields && j.fields["messages"].Arr? && |j.fields["messages"].items| >= 1 &&
              OptStrField(j.fields, "description").Some? && ParseMessages(j.fields["messages"].items).Some?
    ensures r.Some? ==>
              OptStrField(j.fields, "description") == Some(r.value.description) &&
              ParseMessages(j.fields["messages"].items) == Some(r.value.messages)
  {
    if !j.Obj? || "messages" !in j.fields || !j.fields["messages"].Arr? then None
    else
      var description := OptStrField(j.fields, "description");
      var items := j.fields["messages"].items;
      var messages := ParseMessages(items);
      if description.Some? && messages.Some? && |items| >= 1 then
        Some(PromptsGetResult(description.value, messages.value))
      else None
  }

  // ---------------------------------------------------------------- the JSON of typed values

  function ArgumentJson(a: Argument): Json
  {
    Obj(map["name" := Str(a.name), "description" := Str(a.description), "required" := Bool(a.required)])
  }

  function ArgumentsJson(xs: seq<Argument>): (r: seq<Json>)
    ensures |r| == |xs|
    decreases |xs|
  {
    if xs == [] then [] else [ArgumentJson(xs[0])] + ArgumentsJson(xs[1..])
  }

  /** A prompt as the listings carry it: `arguments` is left out when there are none. */
  function PromptJson(p: Prompt): Json
  {
    var base := map["name" := Str(p.name), "description" := Str(p.description)];
    Obj(if p.arguments.Some? then base["arguments" := Arr(ArgumentsJson(p.arguments.value))] else base)
  }

  function PromptsJson(ps: seq<Prompt>): (r: seq<Json>)
    ensures |r| == |ps|
    decreases |ps|
  {
    if ps == [] then [] else [PromptJson(ps[0])] + PromptsJson(ps[1..])
  }

  function PromptsListJson(r: PromptsListResult): Json
  {
    var base := map["prompts" := Arr(PromptsJson(r.prompts))];
    Obj(if r.nextCursor.Some? then base["nextCursor" := Str(r.nextCursor.value)] else base)
  }

  function StrMapJson(m: map<string, string>): map<string, Json>
  {
    map k | k in m :: Str(m[k])
  }

  function ContentJson(c: MessageContent): Json
  {
    match c
    case TextContent(text) => Obj(map["type" := Str("text"), "text" := Str(text)])
    case ImageContent(data, mime) => Obj(map["type" := Str("image"), "data" := Str(data), "mimeType" := Str(mime)])
    case ResourceContent(res) => Obj(map["type" := Str("resource"), "resource" := Obj(StrMapJson(res))])
  }

  function RoleJson(r: Role): Json
  {
    if r == User then Str("user") else Str("assistant")
  }

  function MessageJson(m: PromptMessage): Json
  {
    Obj(map["role" := RoleJson(m.role), "content" := ContentJson(m.content)])
  }

  function MessagesJson(ms: seq<PromptMessage>): (r: seq<Json>)
    ensures |r| == |ms|
    decreases |ms|
  {
    if ms == [] then [] else [MessageJson(ms[0])] + MessagesJson(ms[1..])
  }

  function PromptsGetJson(r: PromptsGetResult): Json
  {
    var base := map["messages" := Arr(MessagesJson(r.messages))];
    Obj(if r.description.Some? then base["description" := Str(r.description.value)] else base)
  }

  // ---------------------------------------------------------------- round trips

  lemma {:induction false} ArgumentsRoundTrip(xs: seq<Argument>)
    ensures ParseArguments(ArgumentsJson(xs)) == Some(xs)
    decreases |xs|
  {
    if xs != [] {
      ArgumentsRoundTrip(xs[1..]);
      var js := ArgumentsJson(xs);
      assert js[1..] == ArgumentsJson(xs[1..]);
      assert [xs[0]] + xs[1..] == xs;
    }
  }

  lemma PromptRoundTrip(p: Prompt)
    ensures ParsePrompt(PromptJson(p)) == Some(p)
  {
    if p.arguments.Some? {
      ArgumentsRoundTrip(p.arguments.value);
    }
  }

  lemma {:induction false} PromptsRoundTrip(ps: seq<Prompt>)
    ensures ParsePrompts(PromptsJson(ps)) == Some(ps)
    decreases |ps|
  {
    if ps != [] {
      PromptRoundTrip(ps[0]);
      PromptsRoundTrip(ps[1..]);
      assert PromptsJson(ps)[1..] == PromptsJson(ps[1..]);
      assert [ps[0]] + ps[1..] == ps;
    }
  }

  /** Every typed `prompts/list` result, written as JSON, validates back to itself. */
  lemma PromptsListRoundTrip(r: PromptsListResult)
    ensures ParsePromptsListResult(PromptsListJson(r)) == Some(r)
  {
    PromptsRoundTrip(r.prompts);
  }

  lemma ContentRoundTrip(c: MessageContent)
    ensures ParseContent(ContentJson(c)) == Some(c)
  {
    if c.ResourceContent? {
      var m := StrMapJson(c.resource);
      assert (map k | k in m :: m[k].s) == c.resource;
    }
  }

  lemma {:induction false} MessagesRoundTrip(ms: seq<PromptMessage>)
    ensures ParseMessages(MessagesJson(ms)) == Some(ms)
    decreases |ms|
  {
    if ms != [] {
      ContentRoundTrip(ms[0].content);
      MessagesRoundTrip(ms[1..]);
      assert MessagesJson(ms)[1..] == MessagesJson(ms[1..]);
      assert [ms[0]] + ms[1..] == ms;
    }
  }

  /** Every typed `prompts/get` result with at least one message, written as JSON, validates back to itself. */
  lemma PromptsGetRoundTrip(r: PromptsGetResult)
    requires |r.messages| >= 1
    ensures ParsePromptsGetResult(PromptsGetJson(r)) == Some(r)
  {
    MessagesRoundTrip(r.messages);
  }

  // ---------------------------------------------------------------- what the models do not enforce

  /** An empty message list is rejected whatever else the result holds. */
  lemma EmptyMessagesRejected(m: map<string, Json>)
    ensures ParsePromptsGetResult(Obj(m["messages" := Arr([])])).None?
  {
  }

  /**
   * The `resource` of a resource content item is any string-to-string map:
   * the uri / mimeType / text-or-blob rule stated next to the model is not
   * checked, so a map with none of those keys is accepted.
   */
  lemma ResourceWithoutUriAccepted()
    ensures ParseContent(ContentJson(ResourceContent(map["note" := "no uri here"])))
         == Some(ResourceContent(map["note" := "no uri here"]))
  {
    ContentRoundTrip(ResourceContent(map["note" := "no uri here"]));
  }

  /** An argument's `required` flag given as the string "Yes" is accepted as true. */
  lemma LaxBoolAcceptsWords()
    ensures ParseLaxBool(Str("Yes")) == Some(true)
    ensures ParseLaxBool(Str("off")) == Some(false)
    ensures ParseLaxBool(Num(2)).None?
  {
    assert Text.LowerAscii("Yes") == "yes";
    assert Text.LowerAscii("off") == "off";
  }
}
