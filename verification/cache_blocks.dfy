/** The blocks of a request body that are fingerprinted (internal/emulation/cache.go), and
    which spellings of a request they do not see. Texts are byte strings, times nanoseconds. */
module CacheBlocks {
  import opened CanonicalJson
  import opened Numbers
  import opened Options

  const MINUTE := 60_000_000_000
  const HOUR := 60 * MINUTE

  // ---------------------------------------------------------------- reading the body

  type Payload = map<string, Json>

  // A missing key reads as nil.
  function Get(m: map<string, Json>, key: string): Json {
    if key in m then m[key] else Null
  }

  function Fields(raw: Json): map<string, Json> {
    if raw.Obj? then raw.fields else map[]
  }

  function StrOf(v: Json): string {
    if v.Str? then v.str else ""
  }

  function Strip(v: Json): Json {
    match v
    case Obj(m) => Obj(map k | k in m && k != "cache_control" :: Strip(m[k]))
    case Arr(a) => Arr(seq(|a|, i requires 0 <= i < |a| => Strip(a[i])))
    case _ => v
  }

  const BILLING_PREFIX := "x-anthropic-billing-header:"
  const BILLING_TEXT := "__anthropic_billing_header__"

  function CanonicalSystem(v: Json): Json {
    if v.Obj? && BILLING_PREFIX <= StrOf(Get(v.fields, "text"))
    then Obj(v.fields["text" := Str(BILLING_TEXT)])
    else v
  }

  predicate IsSpace(c: char) {
    c == ' ' || (9 <= c as int <= 13)
  }

  function TrimLeft(s: string): string {
    if s != [] && IsSpace(s[0]) then TrimLeft(s[1..]) else s
  }

  function TrimRight(s: string): string {
    if s != [] && IsSpace(s[|s| - 1]) then TrimRight(s[..|s| - 1]) else s
  }

  function Fold(s: string): string {
    seq(|s|, i requires 0 <= i < |s| => if 'A' <= s[i] <= 'Z' then (s[i] as int + 32) as char else s[i])
  }

  function ExtractTtl(v: Json): Option<int> {
    if !v.Obj? || !Get(v.fields, "cache_control").Obj? then None
    else
      var cc := Get(v.fields, "cache_control").fields;
      var typ := StrOf(Get(cc, "type"));
      if typ != "" && Fold(typ) != "ephemeral" then None
      else Some(if Fold(TrimRight(TrimLeft(StrOf(Get(cc, "ttl"))))) == "1h" then HOUR else 5 * MINUTE)
  }

  function TextBlock(text: string): Json {
    Obj(map["type" := Str("text"), "text" := Str(text)])
  }

  function SystemBlocks(v: Json): seq<Json> {
    match v
    case Str(s) => if TrimLeft(s) == "" then [] else [TextBlock(s)]
    case Arr(a) => a
    case _ => []
  }

  /** One fingerprinted block. `inMessage` stands for a non-nil message index. */
  datatype Pending = Pending(value: Json, tokens: int, ttl: Option<int>, inMessage: bool, isMessageEnd: bool)

  /** The token estimators, left uninterpreted. */
  datatype Estimators = Estimators(serialized: Json -> int, system: Json -> int, value: Json -> int, payload: Payload -> int)

  function ToolBlock(i: nat, tool: Json, est: Estimators): Pending {
    Pending(Obj(map["kind" := Str("tool"), "tool_index" := Number(Itoa(i)), "tool" := Strip(tool)]),
            est.serialized(Strip(tool)), ExtractTtl(tool), false, false)
  }

  function SystemBlock(i: nat, sys: Json, est: Estimators): Pending {
    Pending(Obj(map["kind" := Str("system"), "system_index" := Number(Itoa(i)), "block" := CanonicalSystem(Strip(sys))]),
            est.system(sys), ExtractTtl(sys), false, false)
  }

  function MessageValue(mi: nat, role: string, bi: nat, block: Json): Json {
    Obj(map["kind" := Str("message"), "message_index" := Number(Itoa(mi)), "role" := Str(role),
            "block_index" := Number(Itoa(bi)), "block" := block])
  }

  function MessageBlocks(mi: nat, raw: Json, est: Estimators): seq<Pending> {
    var msg := Fields(raw);
    var role := StrOf(Get(msg, "role"));
    match Get(msg, "content")
    case Str(text) =>
      [Pending(MessageValue(mi, role, 0, TextBlock(text)), est.value(TextBlock(text)), None, true, true)]
    case Arr(content) =>
      seq(|content|, bi requires 0 <= bi < |content| =>
        Pending(MessageValue(mi, role, bi, Strip(content[bi])), est.value(content[bi]),
                ExtractTtl(content[bi]), true, bi == |content| - 1))
    case _ => []
  }

  function MessagesFrom(mi: nat, messages: seq<Json>, est: Estimators): seq<Pending>
    requires mi <= |messages|
    decreases |messages| - mi
  {
    if mi == |messages| then []
    else MessageBlocks(mi, messages[mi], est) + MessagesFrom(mi + 1, messages, est)
  }

  function Elements(v: Json): seq<Json> {
    if v.Arr? then v.elems else []
  }

  function Tools(p: Payload, est: Estimators): seq<Pending> {
    var tools := Elements(Get(p, "tools"));
    seq(|tools|, i requires 0 <= i < |tools| => ToolBlock(i, tools[i], est))
  }

  function System(p: Payload, est: Estimators): seq<Pending> {
    var system := SystemBlocks(Get(p, "system"));
    seq(|system|, i requires 0 <= i < |system| => SystemBlock(i, system[i], est))
  }

  /** The blocks of a request: tools, then system blocks, then message blocks. */
  function Flatten(p: Payload, est: Estimators): seq<Pending> {
    Tools(p, est) + System(p, est) + MessagesFrom(0, Elements(Get(p, "messages")), est)
  }

  function Values(bs: seq<Pending>): seq<Json> {
    seq(|bs|, i requires 0 <= i < |bs| => bs[i].value)
  }

  function Prelude(p: Payload): Json {
    Obj(map["model" := Get(p, "model"), "tool_choice" := Get(p, "tool_choice")])
  }

  // ---------------------------------------------------------------- well-formed values

  lemma {:induction false} StripWellFormed(v: Json)
    requires WellFormed(v)
    ensures WellFormed(Strip(v))
  {
    match v {
      case Obj(m) =>
        forall k | k in m && k != "cache_control"
          ensures WellFormed(Strip(m[k]))
        {
          StripWellFormed(m[k]);
        }
      case Arr(a) =>
        forall i | 0 <= i < |a|
          ensures WellFormed(Strip(a[i]))
        {
          StripWellFormed(a[i]);
        }
      case _ =>
    }
  }

  ghost predicate PayloadWellFormed(p: Payload) {
    forall k :: k in p ==> WellFormed(p[k])
  }

  lemma {:induction false} MessagesWellFormed(mi: nat, messages: seq<Json>, est: Estimators)
    requires mi <= |messages| && forall i :: 0 <= i < |messages| ==> WellFormed(messages[i])
    ensures forall b :: b in MessagesFrom(mi, messages, est) ==> WellFormed(b.value)
    decreases |messages| - mi
  {
    if mi < |messages| {
      MessageWellFormed(mi, messages[mi], est);
      MessagesWellFormed(mi + 1, messages, est);
    }
  }

  lemma {:induction false} MessageWellFormed(mi: nat, raw: Json, est: Estimators)
    requires WellFormed(raw)
    ensures forall b :: b in MessageBlocks(mi, raw, est) ==> WellFormed(b.value)
  {
    var msg := Fields(raw);
    var role := StrOf(Get(msg, "role"));
    var content := Get(msg, "content");
    match content {
      case Str(text) => MessageValueWellFormed(mi, role, 0, TextBlock(text));
      case Arr(a) =>
        forall bi | 0 <= bi < |a|
          ensures WellFormed(MessageBlocks(mi, raw, est)[bi].value)
        {
          StripWellFormed(a[bi]);
          MessageValueWellFormed(mi, role, bi, Strip(a[bi]));
        }
      case _ =>
    }
  }

  lemma {:induction false} MessageValueWellFormed(mi: nat, role: string, bi: nat, block: Json)
    requires WellFormed(block)
    ensures WellFormed(MessageValue(mi, role, bi, block))
  {
  }

  lemma FlattenWellFormed(p: Payload, est: Estimators)
    requires PayloadWellFormed(p)
    ensures forall b :: b in Flatten(p, est) ==> WellFormed(b.value)
  {
    var tools := Elements(Get(p, "tools"));
    var system := SystemBlocks(Get(p, "system"));
    forall i | 0 <= i < |tools|
      ensures WellFormed(ToolBlock(i, tools[i], est).value)
    {
      StripWellFormed(tools[i]);
    }
    forall i | 0 <= i < |system|
      ensures WellFormed(SystemBlock(i, system[i], est).value)
    {
      StripWellFormed(system[i]);
    }
    MessagesWellFormed(0, Elements(Get(p, "messages")), est);
  }

  // ---------------------------------------------------------------- spellings

  lemma {:induction false} StripIdempotent(v: Json)
    ensures Strip(Strip(v)) == Strip(v)
  {
    match v {
      case Obj(m) =>
        forall k | k in m && k != "cache_control"
          ensures Strip(Strip(m[k])) == Strip(m[k])
        {
          StripIdempotent(m[k]);
        }
      case Arr(a) =>
        forall i | 0 <= i < |a|
          ensures Strip(Strip(a[i])) == Strip(a[i])
        {
          StripIdempotent(a[i]);
        }
      case _ =>
    }
  }

  lemma StripGet(m: map<string, Json>, key: string)
    requires key != "cache_control"
    ensures Get(Strip(Obj(m)).fields, key) == Strip(Get(m, key))
    ensures StrOf(Get(Strip(Obj(m)).fields, key)) == StrOf(Get(m, key))
  {
  }

  lemma StripTextBlock(s: string)
    ensures Strip(TextBlock(s)) == TextBlock(s)
  {
    assert Strip(TextBlock(s)).fields == TextBlock(s).fields;
  }

  // A message with its text content, if any, spelled as a single text block.
  function SpelledMessage(raw: Json): Json {
    if raw.Obj? && Get(raw.fields, "content").Str?
    then Obj(raw.fields["content" := Arr([TextBlock(raw.fields["content"].str)])])
    else raw
  }

  function SpelledMessages(v: Json): Json {
    var messages := Elements(v);
    Arr(seq(|messages|, i requires 0 <= i < |messages| => SpelledMessage(messages[i])))
  }

  /** The request without any cache_control marker and with every text given as a list holding one
      text block, both in the system prompt and in the messages. */
  function Normal(p: Payload): Payload {
    p["tools" := Strip(Get(p, "tools"))]
     ["system" := Strip(Arr(SystemBlocks(Get(p, "system"))))]
     ["messages" := SpelledMessages(Strip(Get(p, "messages")))]
  }

  lemma ValuesConcat(a: seq<Pending>, b: seq<Pending>)
    ensures Values(a + b) == Values(a) + Values(b)
  {
  }

  // The fingerprinted values of one message, by its role and content.
  function ContentValues(mi: nat, role: string, content: Json): seq<Json> {
    match content
    case Str(text) => [MessageValue(mi, role, 0, TextBlock(text))]
    case Arr(a) => seq(|a|, bi requires 0 <= bi < |a| => MessageValue(mi, role, bi, Strip(a[bi])))
    case _ => []
  }

  lemma MessageByContent(mi: nat, raw: Json, est: Estimators)
    ensures Values(MessageBlocks(mi, raw, est))
            == ContentValues(mi, StrOf(Get(Fields(raw), "role")), Get(Fields(raw), "content"))
  {
  }

  lemma {:induction false} ContentSpelling(mi: nat, role: string, content: Json)
    ensures ContentValues(mi, role, Strip(content)) == ContentValues(mi, role, content)
    ensures content.Str? ==>
              ContentValues(mi, role, Arr([TextBlock(content.str)])) == ContentValues(mi, role, content)
  {
    match content {
      case Str(s) => StripTextBlock(s);
      case Arr(a) =>
        forall i | 0 <= i < |a|
          ensures Strip(Strip(a[i])) == Strip(a[i])
        {
          StripIdempotent(a[i]);
        }
      case _ =>
    }
  }

  lemma SpelledFields(m: map<string, Json>)
    ensures var n := Fields(SpelledMessage(Strip(Obj(m))));
            && StrOf(Get(n, "role")) == StrOf(Get(m, "role"))
            && Get(n, "content") == (if Get(m, "content").Str? then Arr([TextBlock(Get(m, "content").str)])
                                     else Strip(Get(m, "content")))
  {
    StripGet(m, "content");
    StripGet(m, "role");
  }

  lemma {:induction false} MessageSpelling(mi: nat, raw: Json, est: Estimators)
    ensures Values(MessageBlocks(mi, SpelledMessage(Strip(raw)), est)) == Values(MessageBlocks(mi, raw, est))
  {
    MessageByContent(mi, raw, est);
    MessageByContent(mi, SpelledMessage(Strip(raw)), est);
    if raw.Obj? {
      SpelledFields(raw.fields);
      ContentSpelling(mi, StrOf(Get(raw.fields, "role")), Get(raw.fields, "content"));
    }
  }

  lemma {:induction false} MessagesSpelling(mi: nat, messages: seq<Json>, spelled: seq<Json>, est: Estimators)
    requires mi <= |messages| == |spelled|
    requires forall i :: 0 <= i < |messages| ==> spelled[i] == SpelledMessage(Strip(messages[i]))
    ensures Values(MessagesFrom(mi, spelled, est)) == Values(MessagesFrom(mi, messages, est))
    decreases |messages| - mi
  {
    if mi < |messages| {
      MessageSpelling(mi, messages[mi], est);
      MessagesSpelling(mi + 1, messages, spelled, est);
      ValuesConcat(MessageBlocks(mi, spelled[mi], est), MessagesFrom(mi + 1, spelled, est));
      ValuesConcat(MessageBlocks(mi, messages[mi], est), MessagesFrom(mi + 1, messages, est));
    }
  }

  /** Fingerprinted values do not see cache_control markers, nor whether a text was given as a
      string or as a single text block. */
  lemma SpellingInvisible(p: Payload, est: Estimators)
    ensures Values(Flatten(Normal(p), est)) == Values(Flatten(p, est))
    ensures Prelude(Normal(p)) == Prelude(p)
  {
    ToolsSpelling(p, est);
    SystemSpelling(p, est);
    var q := Normal(p);
    var messages, messages' := Elements(Get(p, "messages")), Elements(Get(q, "messages"));
    MessagesSpelling(0, messages, messages', est);
    ValuesConcat(Tools(p, est), System(p, est));
    ValuesConcat(Tools(q, est), System(q, est));
    ValuesConcat(Tools(p, est) + System(p, est), MessagesFrom(0, messages, est));
    ValuesConcat(Tools(q, est) + System(q, est), MessagesFrom(0, messages', est));
  }

  lemma ToolsSpelling(p: Payload, est: Estimators)
    ensures Values(Tools(Normal(p), est)) == Values(Tools(p, est))
  {
    var tools, tools' := Elements(Get(p, "tools")), Elements(Get(Normal(p), "tools"));
    assert |tools'| == |tools|;
    forall i | 0 <= i < |tools|
      ensures ToolBlock(i, tools'[i], est).value == ToolBlock(i, tools[i], est).value
    {
      StripIdempotent(tools[i]);
    }
  }

  lemma SystemSpelling(p: Payload, est: Estimators)
    ensures Values(System(Normal(p), est)) == Values(System(p, est))
  {
    var system, system' := SystemBlocks(Get(p, "system")), SystemBlocks(Get(Normal(p), "system"));
    assert |system'| == |system|;
    forall i | 0 <= i < |system|
      ensures SystemBlock(i, system'[i], est).value == SystemBlock(i, system[i], est).value
    {
      StripIdempotent(system[i]);
    }
  }
}
