/** What a request's fingerprints say about the request (internal/emulation/cache.go): everything in its tools,
    its system prompt and its messages is in them, in its place, but for markers and spelling. */
module CacheContents {
  import opened CacheBlocks
  import opened CacheFingerprint
  import opened CanonicalJson
  import opened Numbers
  import opened Options

  // ---------------------------------------------------------------- what markers are

  /** One step into a value. */
  datatype Hop = Key(key: string) | Index(index: nat)

  function At(v: Json, path: seq<Hop>): Option<Json>
    decreases |path|
  {
    if path == [] then Some(v)
    else
      match path[0]
      case Key(k) => if v.Obj? && k in v.fields then At(v.fields[k], path[1..]) else None
      case Index(i) => if v.Arr? && i < |v.elems| then At(v.elems[i], path[1..]) else None
  }

  /** What a value is by itself: an atom, so many elements, or fields under these keys. */
  datatype Node = Atom(v: Json) | OfLength(n: nat) | WithKeys(keys: set<string>)

  function NodeOf(v: Json): Node {
    match v
    case Arr(a) => OfLength(|a|)
    case Obj(m) => WithKeys(m.Keys)
    case _ => Atom(v)
  }

  function Unmarked(n: Node): Node {
    if n.WithKeys? then WithKeys(n.keys - {"cache_control"}) else n
  }

  predicate MeetsMarker(path: seq<Hop>) {
    exists i :: 0 <= i < |path| && path[i] == Key("cache_control")
  }

  /** Stripping takes away the markers, at any depth, and nothing else: along every path that meets no marker there
      is the same as before, along one that does there is nothing. */
  lemma {:induction false} StripAt(v: Json, path: seq<Hop>)
    ensures if MeetsMarker(path) then At(Strip(v), path).None?
            else (At(Strip(v), path).Some? <==> At(v, path).Some?)
                 && (At(v, path).Some? ==> NodeOf(At(Strip(v), path).value) == Unmarked(NodeOf(At(v, path).value)))
    decreases |path|
  {
    if path != [] {
      MarkerOnPath(path);
      match path[0] {
        case Key(k) =>
          if v.Obj? && k in v.fields && k != "cache_control" {
            StripAt(v.fields[k], path[1..]);
          }
        case Index(i) =>
          if v.Arr? && i < |v.elems| {
            StripAt(v.elems[i], path[1..]);
          }
      }
    }
  }

  lemma MarkerOnPath(path: seq<Hop>)
    requires path != []
    ensures MeetsMarker(path) <==> path[0] == Key("cache_control") || MeetsMarker(path[1..])
  {
    if MeetsMarker(path[1..]) {
      var i :| 0 <= i < |path[1..]| && path[1..][i] == Key("cache_control");
      assert path[i + 1] == Key("cache_control");
    }
    if i :| 0 <= i < |path| && path[i] == Key("cache_control") {
      assert i > 0 ==> path[1..][i - 1] == path[i];
    }
  }

  // ---------------------------------------------------------------- the parts of a request

  function Stripped(vs: seq<Json>): seq<Json> {
    seq(|vs|, i requires 0 <= i < |vs| => Strip(vs[i]))
  }

  // A text on its own, as a block.
  function Text(s: string): Json {
    Obj(map["type" := Str("text"), "text" := Str(s)])
  }

  // Billing headers are all alike.
  function Unbilled(v: Json): Json {
    if v.Obj? && "text" in v.fields && v.fields["text"].Str? && "x-anthropic-billing-header:" <= v.fields["text"].str
    then Obj(v.fields["text" := Str("__anthropic_billing_header__")])
    else v
  }

  predicate Blank(s: string) {
    forall i :: 0 <= i < |s| ==> IsSpace(s[i])
  }

  /** The tools without markers. */
  function ToolParts(p: Payload): seq<Json> {
    if "tools" in p && p["tools"].Arr? then Stripped(p["tools"].elems) else []
  }

  /** The system prompt's blocks without markers; a text is one block, a blank one none. */
  function SystemParts(p: Payload): seq<Json> {
    if "system" !in p then []
    else
      match p["system"]
      case Str(s) => if Blank(s) then [] else [Unbilled(Text(s))]
      case Arr(blocks) => seq(|blocks|, i requires 0 <= i < |blocks| => Unbilled(Strip(blocks[i])))
      case _ => []
  }

  function Messages(p: Payload): seq<Json> {
    if "messages" in p && p["messages"].Arr? then p["messages"].elems else []
  }

  /** What the i-th message says, without markers; a text is one block. Nothing if there is no such message. */
  function Content(messages: seq<Json>, i: nat): seq<Json> {
    if i >= |messages| || !messages[i].Obj? || "content" !in messages[i].fields then []
    else
      match messages[i].fields["content"]
      case Str(s) => [Text(s)]
      case Arr(blocks) => Stripped(blocks)
      case _ => []
  }

  function Role(messages: seq<Json>, i: nat): string {
    if i >= |messages| || !messages[i].Obj? || "role" !in messages[i].fields || !messages[i].fields["role"].Str? then ""
    else messages[i].fields["role"].str
  }

  // Missing or null.
  function Setting(p: Payload, key: string): Json {
    if key in p then p[key] else Null
  }

  // The i-th messages agree: the same content, and under the same role if there is any.
  ghost predicate AgreeAt(ms: seq<Json>, ns: seq<Json>, i: nat) {
    Content(ms, i) == Content(ns, i) && (Content(ms, i) != [] ==> Role(ms, i) == Role(ns, i))
  }

  /** Two requests say the same to the model, but for markers, spelling and messages without content at the end. */
  ghost predicate Agree(p: Payload, q: Payload) {
    && Setting(p, "model") == Setting(q, "model") && Setting(p, "tool_choice") == Setting(q, "tool_choice")
    && ToolParts(p) == ToolParts(q) && SystemParts(p) == SystemParts(q)
    && forall i: nat :: AgreeAt(Messages(p), Messages(q), i)
  }

  function ContentBlocks(messages: seq<Json>, n: nat): nat {
    if n == 0 then 0 else ContentBlocks(messages, n - 1) + |Content(messages, n - 1)|
  }

  // ---------------------------------------------------------------- finding the parts in the fingerprinted values

  // The field `part` of a fingerprinted value of that kind.
  function PartOf(v: Json, kind: string, part: string): Option<Json> {
    if v.Obj? && StrOf(Get(v.fields, "kind")) == kind then Some(Get(v.fields, part)) else None
  }

  function Parts(vs: seq<Json>, kind: string, part: string): seq<Json> {
    if vs == [] then []
    else
      var last := PartOf(vs[|vs| - 1], kind, part);
      Parts(vs[..|vs| - 1], kind, part) + (if last.Some? then [last.value] else [])
  }

  // Of the values of the i-th message only.
  function InMessage(vs: seq<Json>, i: nat): seq<Json> {
    if vs == [] then []
    else
      var v := vs[|vs| - 1];
      InMessage(vs[..|vs| - 1], i) + (if PartOf(v, "message", "message_index") == Some(Number(Itoa(i))) then [v] else [])
  }

  lemma {:induction false} PartsConcat(a: seq<Json>, b: seq<Json>, kind: string, part: string)
    ensures Parts(a + b, kind, part) == Parts(a, kind, part) + Parts(b, kind, part)
  {
    if b == [] {
      assert a + b == a;
    } else {
      assert (a + b)[..|a + b| - 1] == a + b[..|b| - 1];
      PartsConcat(a, b[..|b| - 1], kind, part);
    }
  }

  lemma {:induction false} InMessageConcat(a: seq<Json>, b: seq<Json>, i: nat)
    ensures InMessage(a + b, i) == InMessage(a, i) + InMessage(b, i)
  {
    if b == [] {
      assert a + b == a;
    } else {
      assert (a + b)[..|a + b| - 1] == a + b[..|b| - 1];
      InMessageConcat(a, b[..|b| - 1], i);
    }
  }

  // All values of one kind: all their parts.
  lemma {:induction false} PartsAll(vs: seq<Json>, kind: string, part: string, parts: seq<Json>)
    requires |vs| == |parts| && forall i :: 0 <= i < |vs| ==> PartOf(vs[i], kind, part) == Some(parts[i])
    ensures Parts(vs, kind, part) == parts
  {
    if vs != [] {
      var n := |vs| - 1;
      PartsAll(vs[..n], kind, part, parts[..n]);
      assert parts == parts[..n] + [parts[n]];
    }
  }

  lemma {:induction false} PartsNone(vs: seq<Json>, kind: string, part: string)
    requires forall v :: v in vs ==> PartOf(v, kind, part).None?
    ensures Parts(vs, kind, part) == []
  {
    if vs != [] {
      PartsNone(vs[..|vs| - 1], kind, part);
    }
  }

  lemma {:induction false} InMessageAll(vs: seq<Json>, i: nat)
    requires forall v :: v in vs ==> PartOf(v, "message", "message_index") == Some(Number(Itoa(i)))
    ensures InMessage(vs, i) == vs
  {
    if vs != [] {
      InMessageAll(vs[..|vs| - 1], i);
      assert vs == vs[..|vs| - 1] + [vs[|vs| - 1]];
    }
  }

  lemma {:induction false} InMessageNone(vs: seq<Json>, i: nat)
    requires forall v :: v in vs ==> PartOf(v, "message", "message_index") != Some(Number(Itoa(i)))
    ensures InMessage(vs, i) == []
  {
    if vs != [] {
      InMessageNone(vs[..|vs| - 1], i);
    }
  }

  // ---------------------------------------------------------------- numerals

  lemma {:induction false} ItoaInjective(m: nat, n: nat)
    requires Itoa(m) == Itoa(n)
    ensures m == n
    decreases m
  {
    var s, t := Itoa(m), Itoa(n);
    assert s[|s| - 1] == Digit(m % 10) && t[|t| - 1] == Digit(n % 10);
    if m >= 10 || n >= 10 {
      assert m >= 10 ==> Itoa(m)[..|s| - 1] == Itoa(m / 10);
      assert n >= 10 ==> Itoa(n)[..|t| - 1] == Itoa(n / 10);
      assert m < 10 ==> |s| == 1;
      assert n < 10 ==> |t| == 1;
      ItoaInjective(m / 10, n / 10);
    }
  }

  // ---------------------------------------------------------------- where the parts are

  lemma {:induction false} ToolValue(i: nat, tool: Json, est: Estimators)
    ensures var v := ToolBlock(i, tool, est).value;
            && PartOf(v, "tool", "tool") == Some(Strip(tool))
            && PartOf(v, "system", "block").None? && PartOf(v, "message", "message_index").None?
  {
  }

  lemma {:induction false} BlankIs(s: string)
    ensures TrimLeft(s) == "" <==> Blank(s)
  {
    if s != [] {
      BlankIs(s[1..]);
      if Blank(s[1..]) && IsSpace(s[0]) {
        assert forall i :: 0 < i < |s| ==> s[i] == s[1..][i - 1];
      }
      if Blank(s) {
        assert forall i :: 0 <= i < |s| - 1 ==> s[1..][i] == s[i + 1];
      }
    }
  }

  // The system blocks are the parts.
  lemma SystemAre(p: Payload)
    ensures var system := SystemBlocks(Get(p, "system"));
            |system| == |SystemParts(p)| && forall i :: 0 <= i < |system| ==> CanonicalSystem(Strip(system[i])) == SystemParts(p)[i]
  {
    if "system" in p && p["system"].Str? {
      BlankIs(p["system"].str);
      StripTextBlock(p["system"].str);
    }
  }

  lemma PreludeIs(p: Payload, q: Payload)
    ensures Prelude(p) == Prelude(q)
            <==> Setting(p, "model") == Setting(q, "model") && Setting(p, "tool_choice") == Setting(q, "tool_choice")
  {
    assert Prelude(p).fields["model"] == Setting(p, "model") && Prelude(q).fields["model"] == Setting(q, "model");
    assert Prelude(p).fields["tool_choice"] == Setting(p, "tool_choice") && Prelude(q).fields["tool_choice"] == Setting(q, "tool_choice");
  }

  lemma {:induction false} SystemValue(i: nat, sys: Json, est: Estimators)
    ensures var v := SystemBlock(i, sys, est).value;
            && PartOf(v, "system", "block") == Some(CanonicalSystem(Strip(sys)))
            && PartOf(v, "tool", "tool").None? && PartOf(v, "message", "message_index").None?
  {
  }

  lemma {:induction false} MessageParts(mi: nat, role: string, bi: nat, block: Json)
    ensures var v := MessageValue(mi, role, bi, block);
            && PartOf(v, "message", "message_index") == Some(Number(Itoa(mi)))
            && PartOf(v, "message", "block") == Some(block) && PartOf(v, "message", "role") == Some(Str(role))
            && PartOf(v, "tool", "tool").None? && PartOf(v, "system", "block").None?
  {
  }

  // The values of one message.
  function MessageValues(messages: seq<Json>, i: nat): seq<Json> {
    var content := Content(messages, i);
    seq(|content|, bi requires 0 <= bi < |content| => MessageValue(i, Role(messages, i), bi, content[bi]))
  }

  lemma MessageValuesAre(messages: seq<Json>, i: nat, est: Estimators)
    requires i < |messages|
    ensures Values(MessageBlocks(i, messages[i], est)) == MessageValues(messages, i)
  {
    MessageByContent(i, messages[i], est);
  }

  lemma {:induction false} OneMessage(messages: seq<Json>, i: nat, j: nat)
    ensures InMessage(MessageValues(messages, i), j) == if i == j then MessageValues(messages, i) else []
    ensures Parts(MessageValues(messages, i), "tool", "tool") == [] && Parts(MessageValues(messages, i), "system", "block") == []
    ensures Parts(MessageValues(messages, i), "message", "block") == Content(messages, i)
  {
    var vs, content := MessageValues(messages, i), Content(messages, i);
    forall bi | 0 <= bi < |vs|
      ensures PartOf(vs[bi], "message", "message_index") == Some(Number(Itoa(i)))
      ensures PartOf(vs[bi], "message", "block") == Some(content[bi])
      ensures PartOf(vs[bi], "tool", "tool").None? && PartOf(vs[bi], "system", "block").None?
    {
      MessageParts(i, Role(messages, i), bi, content[bi]);
    }
    PartsNone(vs, "tool", "tool");
    PartsNone(vs, "system", "block");
    PartsAll(vs, "message", "block", content);
    if i == j {
      InMessageAll(vs, i);
    } else {
      if Itoa(i) == Itoa(j) {
        ItoaInjective(i, j);
      }
      InMessageNone(vs, j);
    }
  }

  // The values of the messages from place k on.
  function ValuesFrom(messages: seq<Json>, k: nat): seq<Json>
    requires k <= |messages|
    decreases |messages| - k
  {
    if k == |messages| then [] else MessageValues(messages, k) + ValuesFrom(messages, k + 1)
  }

  lemma {:induction false} ValuesFromAre(messages: seq<Json>, k: nat, est: Estimators)
    requires k <= |messages|
    ensures Values(MessagesFrom(k, messages, est)) == ValuesFrom(messages, k)
    decreases |messages| - k
  {
    if k < |messages| {
      MessageValuesAre(messages, k, est);
      ValuesConcat(MessageBlocks(k, messages[k], est), MessagesFrom(k + 1, messages, est));
      ValuesFromAre(messages, k + 1, est);
    }
  }

  // Of these, the values of one message.
  lemma {:induction false} InMessageStep(messages: seq<Json>, k: nat, j: nat)
    requires k < |messages|
    ensures InMessage(ValuesFrom(messages, k), j)
            == (if k == j then MessageValues(messages, k) else []) + InMessage(ValuesFrom(messages, k + 1), j)
  {
    var head, tail := MessageValues(messages, k), ValuesFrom(messages, k + 1);
    assert ValuesFrom(messages, k) == head + tail;
    InMessageConcat(head, tail, j);
    OneMessage(messages, k, j);
  }

  predicate Elsewhere(v: Json, j: nat) {
    PartOf(v, "message", "message_index") != Some(Number(Itoa(j)))
  }

  lemma {:induction false} MessageElsewhere(messages: seq<Json>, k: nat, j: nat)
    requires k != j
    ensures forall v :: v in MessageValues(messages, k) ==> Elsewhere(v, j)
  {
    var vs, content := MessageValues(messages, k), Content(messages, k);
    if Itoa(k) == Itoa(j) {
      ItoaInjective(k, j);
    }
    forall bi | 0 <= bi < |vs|
      ensures Elsewhere(vs[bi], j)
    {
      MessageParts(k, Role(messages, k), bi, content[bi]);
    }
  }

  lemma {:induction false} AllElsewhere(messages: seq<Json>, k: nat, j: nat)
    requires k <= |messages| && (j < k || j >= |messages|)
    ensures forall v :: v in ValuesFrom(messages, k) ==> Elsewhere(v, j)
    decreases |messages| - k
  {
    if k < |messages| {
      MessageElsewhere(messages, k, j);
      AllElsewhere(messages, k + 1, j);
    }
  }

  lemma {:induction false} NotAmong(messages: seq<Json>, k: nat, j: nat)
    requires k <= |messages| && (j < k || j >= |messages|)
    ensures InMessage(ValuesFrom(messages, k), j) == []
  {
    var vs := ValuesFrom(messages, k);
    AllElsewhere(messages, k, j);
    assert forall v :: v in vs ==> Elsewhere(v, j);
    InMessageNone(vs, j);
  }

  lemma {:induction false} Among(messages: seq<Json>, k: nat, j: nat)
    requires k <= j < |messages|
    ensures InMessage(ValuesFrom(messages, k), j) == MessageValues(messages, j)
    decreases |messages| - k
  {
    InMessageStep(messages, k, j);
    if k < j {
      Among(messages, k + 1, j);
    } else {
      NotAmong(messages, k + 1, j);
    }
  }

  lemma {:induction false} MessagesFound(messages: seq<Json>, j: nat, est: Estimators)
    ensures InMessage(Values(MessagesFrom(0, messages, est)), j) == MessageValues(messages, j)
  {
    ValuesFromAre(messages, 0, est);
    if j < |messages| {
      Among(messages, 0, j);
    } else {
      NotAmong(messages, 0, j);
    }
  }

  lemma {:induction false} MessagesOnly(messages: seq<Json>, k: nat, kind: string, part: string)
    requires k <= |messages| && ((kind == "tool" && part == "tool") || (kind == "system" && part == "block"))
    ensures Parts(ValuesFrom(messages, k), kind, part) == []
    decreases |messages| - k
  {
    if k < |messages| {
      MessagesOnly(messages, k + 1, kind, part);
      OneMessage(messages, k, k);
      PartsConcat(MessageValues(messages, k), ValuesFrom(messages, k + 1), kind, part);
    }
  }

  lemma {:induction false} ToolsFound(p: Payload, j: nat, est: Estimators)
    ensures var vs := Values(Tools(p, est));
            Parts(vs, "tool", "tool") == ToolParts(p) && Parts(vs, "system", "block") == [] && InMessage(vs, j) == []
  {
    var vs, tools := Values(Tools(p, est)), Elements(Get(p, "tools"));
    forall i | 0 <= i < |vs|
      ensures PartOf(vs[i], "tool", "tool") == Some(ToolParts(p)[i])
      ensures PartOf(vs[i], "system", "block").None? && PartOf(vs[i], "message", "message_index").None?
    {
      ToolValue(i, tools[i], est);
    }
    PartsAll(vs, "tool", "tool", ToolParts(p));
    PartsNone(vs, "system", "block");
    InMessageNone(vs, j);
  }

  lemma {:induction false} SystemFound(p: Payload, j: nat, est: Estimators)
    ensures var vs := Values(System(p, est));
            Parts(vs, "system", "block") == SystemParts(p) && Parts(vs, "tool", "tool") == [] && InMessage(vs, j) == []
  {
    var vs, system := Values(System(p, est)), SystemBlocks(Get(p, "system"));
    SystemAre(p);
    forall i | 0 <= i < |vs|
      ensures PartOf(vs[i], "system", "block") == Some(SystemParts(p)[i])
      ensures PartOf(vs[i], "tool", "tool").None? && PartOf(vs[i], "message", "message_index").None?
    {
      SystemValue(i, system[i], est);
    }
    PartsAll(vs, "system", "block", SystemParts(p));
    PartsNone(vs, "tool", "tool");
    InMessageNone(vs, j);
  }

  // The values of a request, part by part.
  lemma {:induction false} ThreeParts(p: Payload, est: Estimators)
    ensures Values(Flatten(p, est)) == Values(Tools(p, est)) + Values(System(p, est)) + Values(MessagesFrom(0, Messages(p), est))
  {
    ValuesConcat(Tools(p, est), System(p, est));
    ValuesConcat(Tools(p, est) + System(p, est), MessagesFrom(0, Messages(p), est));
  }

  lemma {:induction false} PartsOfThree(a: seq<Json>, b: seq<Json>, c: seq<Json>, kind: string, part: string)
    ensures Parts(a + b + c, kind, part) == Parts(a, kind, part) + Parts(b, kind, part) + Parts(c, kind, part)
  {
    PartsConcat(a, b, kind, part);
    PartsConcat(a + b, c, kind, part);
  }

  lemma {:induction false} InMessageOfThree(a: seq<Json>, b: seq<Json>, c: seq<Json>, j: nat)
    ensures InMessage(a + b + c, j) == InMessage(a, j) + InMessage(b, j) + InMessage(c, j)
  {
    InMessageConcat(a, b, j);
    InMessageConcat(a + b, c, j);
  }

  /** Everything in a request is found in its fingerprinted values. */
  lemma {:induction false} AllFound(p: Payload, j: nat, est: Estimators)
    ensures Parts(Values(Flatten(p, est)), "tool", "tool") == ToolParts(p)
    ensures Parts(Values(Flatten(p, est)), "system", "block") == SystemParts(p)
    ensures InMessage(Values(Flatten(p, est)), j) == MessageValues(Messages(p), j)
  {
    var t, s, m := Values(Tools(p, est)), Values(System(p, est)), Values(MessagesFrom(0, Messages(p), est));
    ThreeParts(p, est);
    PartsOfThree(t, s, m, "tool", "tool");
    PartsOfThree(t, s, m, "system", "block");
    InMessageOfThree(t, s, m, j);
    ToolsFound(p, j, est);
    SystemFound(p, j, est);
    MessagesFound(Messages(p), j, est);
    ValuesFromAre(Messages(p), 0, est);
    MessagesOnly(Messages(p), 0, "tool", "tool");
    MessagesOnly(Messages(p), 0, "system", "block");
  }

  // ---------------------------------------------------------------- same values, same parts

  lemma SameContent(ms: seq<Json>, ns: seq<Json>, i: nat)
    requires MessageValues(ms, i) == MessageValues(ns, i)
    ensures AgreeAt(ms, ns, i)
  {
    OneMessage(ms, i, i);
    OneMessage(ns, i, i);
    if Content(ms, i) != [] {
      assert MessageValues(ms, i)[0] == MessageValues(ns, i)[0];
      MessageParts(i, Role(ms, i), 0, Content(ms, i)[0]);
      MessageParts(i, Role(ns, i), 0, Content(ns, i)[0]);
    }
  }

  // From place k on, two lists of messages that agree have the same values, however many follow without content.
  lemma {:induction false} SameMessages(ms: seq<Json>, ns: seq<Json>, k: nat)
    requires k <= |ms| && k <= |ns| && forall i: nat :: AgreeAt(ms, ns, i)
    ensures ValuesFrom(ms, k) == ValuesFrom(ns, k)
    decreases |ms| + |ns| - k - k
  {
    if k < |ms| && k < |ns| {
      assert AgreeAt(ms, ns, k);
      SameMessages(ms, ns, k + 1);
    } else if k < |ms| {
      NothingSaid(ms, ns, k);
    } else if k < |ns| {
      forall i: nat
        ensures AgreeAt(ns, ms, i)
      {
        assert AgreeAt(ms, ns, i);
      }
      NothingSaid(ns, ms, k);
    }
  }

  lemma {:induction false} NothingSaid(ms: seq<Json>, ns: seq<Json>, k: nat)
    requires |ns| <= k <= |ms| && forall i: nat :: AgreeAt(ms, ns, i)
    ensures ValuesFrom(ms, k) == []
    decreases |ms| - k
  {
    if k < |ms| {
      assert AgreeAt(ms, ns, k);
      NothingSaid(ms, ns, k + 1);
    }
  }

  lemma SameTools(p: Payload, q: Payload, est: Estimators)
    requires ToolParts(p) == ToolParts(q)
    ensures Values(Tools(p, est)) == Values(Tools(q, est))
  {
    var ps, qs := Elements(Get(p, "tools")), Elements(Get(q, "tools"));
    assert |ToolParts(p)| == |ps| && |ToolParts(q)| == |qs|;
    forall i | 0 <= i < |ps|
      ensures Values(Tools(p, est))[i] == Values(Tools(q, est))[i]
    {
      assert ToolParts(p)[i] == Strip(ps[i]) && ToolParts(q)[i] == Strip(qs[i]);
    }
  }

  lemma SameSystem(p: Payload, q: Payload, est: Estimators)
    requires SystemParts(p) == SystemParts(q)
    ensures Values(System(p, est)) == Values(System(q, est))
  {
    var ps, qs := SystemBlocks(Get(p, "system")), SystemBlocks(Get(q, "system"));
    SystemAre(p);
    SystemAre(q);
    forall i | 0 <= i < |ps|
      ensures Values(System(p, est))[i] == Values(System(q, est))[i]
    {
      assert SystemParts(p)[i] == SystemParts(q)[i];
    }
  }

  /** The fingerprinted values are the same exactly if the tools, the system prompts and the messages are. */
  lemma ValuesExact(p: Payload, q: Payload, est: Estimators)
    ensures Prelude(p) == Prelude(q) && Values(Flatten(p, est)) == Values(Flatten(q, est)) <==> Agree(p, q)
  {
    PreludeIs(p, q);
    if Prelude(p) == Prelude(q) && Values(Flatten(p, est)) == Values(Flatten(q, est)) {
      AllFound(p, 0, est);
      AllFound(q, 0, est);
      forall i: nat
        ensures AgreeAt(Messages(p), Messages(q), i)
      {
        AllFound(p, i, est);
        AllFound(q, i, est);
        SameContent(Messages(p), Messages(q), i);
      }
    } else if Agree(p, q) {
      SameTools(p, q, est);
      SameSystem(p, q, est);
      SameMessages(Messages(p), Messages(q), 0);
      ValuesFromAre(Messages(p), 0, est);
      ValuesFromAre(Messages(q), 0, est);
      ThreeParts(p, est);
      ThreeParts(q, est);
    }
  }

  /** The fingerprint of a whole request. */
  function Fingerprint(sha: Sha, p: Payload, est: Estimators): string {
    FingerprintOf(sha, p, est, |Flatten(p, est)|)
  }

  /** Two requests with something in them have the same fingerprint if and only if they agree in everything they say
      to the model, as long as SHA-256 does not collide on what the two chains hash. */
  lemma RequestsExact(sha: Sha, p: Payload, q: Payload, est: Estimators)
    requires PayloadWellFormed(p) && PayloadWellFormed(q) && Flatten(p, est) != [] && Flatten(q, est) != []
    requires CollisionFree(sha, HashedFor(sha, p, est, |Flatten(p, est)|) + HashedFor(sha, q, est, |Flatten(q, est)|))
    ensures Fingerprint(sha, p, est) == Fingerprint(sha, q, est) <==> Agree(p, q)
  {
    FingerprintExact(sha, p, |Flatten(p, est)|, q, |Flatten(q, est)|, est);
    WholeValues(Flatten(p, est), Flatten(q, est));
    ValuesExact(p, q, est);
  }

  lemma WholeValues(xs: seq<Pending>, ys: seq<Pending>)
    ensures |xs| == |ys| && Values(xs)[..|xs|] == Values(ys)[..|ys|] <==> Values(xs) == Values(ys)
  {
    assert Values(xs)[..|xs|] == Values(xs) && Values(ys)[..|ys|] == Values(ys);
    assert |Values(xs)| == |xs| && |Values(ys)| == |ys|;
  }

  lemma {:induction false} ValuesCount(messages: seq<Json>, k: nat)
    requires k <= |messages|
    ensures |ValuesFrom(messages, k)| + ContentBlocks(messages, k) == ContentBlocks(messages, |messages|)
    decreases |messages| - k
  {
    if k < |messages| {
      ValuesCount(messages, k + 1);
    }
  }

  lemma {:induction false} MessagesCount(messages: seq<Json>, est: Estimators)
    ensures |MessagesFrom(0, messages, est)| == ContentBlocks(messages, |messages|)
  {
    ValuesCount(messages, 0);
    ValuesFromAre(messages, 0, est);
    assert |Values(MessagesFrom(0, messages, est))| == |MessagesFrom(0, messages, est)|;
  }

  /** One fingerprinted block for every tool, system block and content block. */
  lemma BlockCount(p: Payload, est: Estimators)
    ensures |Flatten(p, est)| == |ToolParts(p)| + |SystemParts(p)| + ContentBlocks(Messages(p), |Messages(p)|)
  {
    MessagesCount(Messages(p), est);
    SystemAre(p);
  }
}
