/** Which blocks of a request are breakpoints, under which TTL, and how many tokens they stand for
    (internal/emulation/cache.go), said by the request's own markers and parts. */
module CacheMarks {
  import opened CacheBlocks
  import opened CacheConfig
  import opened CacheContents
  import opened CacheProfile
  import opened CanonicalJson
  import opened Numbers
  import opened Options

  // ---------------------------------------------------------------- one marker

  // Equal but for the case of ASCII letters.
  predicate SameLetters(a: string, b: string) {
    && |a| == |b|
    && forall i :: 0 <= i < |a| ==> a[i] == b[i] || ('A' <= a[i] <= 'Z' && a[i] as int + 32 == b[i] as int)
  }

  ghost predicate Surrounds(l: string, m: string, r: string, s: string) {
    s == l + m + r && Blank(l) && Blank(r)
  }

  // A text that says one hour, in whatever case and with blanks around it.
  ghost predicate SaysHour(s: string) {
    exists l, m, r :: Surrounds(l, m, r, s) && SameLetters(m, "1h")
  }

  function Marker(v: Json): Option<map<string, Json>> {
    if v.Obj? && "cache_control" in v.fields && v.fields["cache_control"].Obj?
    then Some(v.fields["cache_control"].fields) else None
  }

  predicate Ephemeral(cc: map<string, Json>) {
    "type" in cc && cc["type"].Str? && cc["type"].str != "" ==> SameLetters(cc["type"].str, "ephemeral")
  }

  ghost predicate Hourly(cc: map<string, Json>) {
    "ttl" in cc && cc["ttl"].Str? && SaysHour(cc["ttl"].str)
  }

  lemma FoldIs(a: string, b: string)
    requires forall i :: 0 <= i < |b| ==> !('A' <= b[i] <= 'Z')
    ensures Fold(a) == b <==> SameLetters(a, b)
  {
    if SameLetters(a, b) {
      assert forall i :: 0 <= i < |a| ==> Fold(a)[i] == b[i];
    }
  }

  // What trimming leaves, and what it takes away.
  lemma {:induction false} TrimLeftIs(s: string) returns (l: string)
    ensures s == l + TrimLeft(s) && Blank(l)
  {
    l := "";
    if s != [] && IsSpace(s[0]) {
      var k := TrimLeftIs(s[1..]);
      l := [s[0]] + k;
    }
  }

  lemma {:induction false} TrimRightIs(s: string) returns (r: string)
    ensures s == TrimRight(s) + r && Blank(r)
  {
    r := "";
    if s != [] && IsSpace(s[|s| - 1]) {
      var k := TrimRightIs(s[..|s| - 1]);
      r := k + [s[|s| - 1]];
      assert s == s[..|s| - 1] + [s[|s| - 1]];
    }
  }

  lemma {:induction false} TrimLeftOf(l: string, m: string)
    requires Blank(l) && (m == [] || !IsSpace(m[0]))
    ensures TrimLeft(l + m) == m
  {
    if l == [] {
      assert l + m == m;
    } else {
      assert IsSpace(l[0]) && Blank(l[1..]) && (l + m)[1..] == l[1..] + m;
      TrimLeftOf(l[1..], m);
    }
  }

  lemma {:induction false} TrimRightOf(m: string, r: string)
    requires Blank(r) && (m == [] || !IsSpace(m[|m| - 1]))
    ensures TrimRight(m + r) == m
  {
    if r == [] {
      assert m + r == m;
    } else {
      assert IsSpace(r[|r| - 1]) && Blank(r[..|r| - 1]) && (m + r)[..|m + r| - 1] == m + r[..|r| - 1];
      TrimRightOf(m, r[..|r| - 1]);
    }
  }

  lemma {:induction false} Untrimmed(s: string)
    ensures exists l, r :: Surrounds(l, TrimRight(TrimLeft(s)), r, s)
  {
    var l := TrimLeftIs(s);
    var r := TrimRightIs(TrimLeft(s));
    assert l + (TrimRight(TrimLeft(s)) + r) == l + TrimRight(TrimLeft(s)) + r;
    assert Surrounds(l, TrimRight(TrimLeft(s)), r, s);
  }

  lemma {:induction false} Trimmed(l: string, m: string, r: string, s: string)
    requires Surrounds(l, m, r, s) && m != [] && !IsSpace(m[0]) && !IsSpace(m[|m| - 1])
    ensures TrimRight(TrimLeft(s)) == m
  {
    assert s == l + (m + r);
    assert (m + r)[0] == m[0];
    TrimLeftOf(l, m + r);
    TrimRightOf(m, r);
  }

  lemma {:induction false} HourIs(s: string)
    ensures Fold(TrimRight(TrimLeft(s))) == "1h" <==> SaysHour(s)
  {
    FoldIs(TrimRight(TrimLeft(s)), "1h");
    Untrimmed(s);
    if SaysHour(s) {
      var l, m, r :| Surrounds(l, m, r, s) && SameLetters(m, "1h");
      Trimmed(l, m, r, s);
    }
  }

  /** Which values are marked, and for how long: an ephemeral marker, an hour if it says so and five minutes
      otherwise. */
  lemma TtlIs(v: Json)
    ensures ExtractTtl(v).Some? <==> Marker(v).Some? && Ephemeral(Marker(v).value)
    ensures ExtractTtl(v).Some? ==>
              ExtractTtl(v).value == if Hourly(Marker(v).value) then 3_600_000_000_000 else 300_000_000_000
  {
    if Marker(v).Some? {
      var cc := Marker(v).value;
      FoldIs(StrOf(Get(cc, "type")), "ephemeral");
      HourIs(StrOf(Get(cc, "ttl")));
      assert SaysHour("") ==> false;
    }
  }

  // ---------------------------------------------------------------- the marked parts of a request

  /** The tools, system blocks and content blocks as the client sent them. */
  function RawTools(p: Payload): seq<Json> {
    if "tools" in p && p["tools"].Arr? then p["tools"].elems else []
  }

  function RawSystem(p: Payload): seq<Json> {
    if "system" !in p then []
    else
      match p["system"]
      case Str(s) => if Blank(s) then [] else [Text(s)]
      case Arr(blocks) => blocks
      case _ => []
  }

  function RawContent(message: Json): seq<Json> {
    if !message.Obj? || "content" !in message.fields then []
    else
      match message.fields["content"]
      case Str(s) => [Text(s)]
      case Arr(blocks) => blocks
      case _ => []
  }

  ghost predicate IsMarked(v: Json) {
    Marker(v).Some? && Ephemeral(Marker(v).value)
  }

  ghost predicate SomeMarked(vs: seq<Json>) {
    exists v :: v in vs && IsMarked(v)
  }

  ghost predicate MessageMarked(messages: seq<Json>) {
    exists i :: 0 <= i < |messages| && SomeMarked(RawContent(messages[i]))
  }

  // Blocks with these raw values: each has the mark and the tokens of its value.
  ghost predicate BlocksOf(bs: seq<Pending>, raw: seq<Json>, tokens: Json -> int) {
    && |bs| == |raw|
    && forall i :: 0 <= i < |bs| ==> bs[i].ttl == ExtractTtl(raw[i]) && bs[i].tokens == tokens(raw[i])
  }

  lemma ToolsOf(p: Payload, est: Estimators)
    ensures BlocksOf(Tools(p, est), RawTools(p), v => est.serialized(Strip(v)))
    ensures forall b :: b in Tools(p, est) ==> !b.inMessage && !b.isMessageEnd
  {
  }

  lemma SystemOf(p: Payload, est: Estimators)
    ensures BlocksOf(System(p, est), RawSystem(p), est.system)
    ensures forall b :: b in System(p, est) ==> !b.inMessage && !b.isMessageEnd
  {
    if "system" in p && p["system"].Str? {
      BlankIs(p["system"].str);
    }
  }

  lemma MessageOf(mi: nat, message: Json, est: Estimators)
    ensures var bs := MessageBlocks(mi, message, est);
            && BlocksOf(bs, RawContent(message), est.value)
            && forall k :: 0 <= k < |bs| ==> bs[k].inMessage && (bs[k].isMessageEnd <==> k == |bs| - 1)
  {
  }

  lemma MarkedOf(bs: seq<Pending>, raw: seq<Json>, tokens: Json -> int)
    requires BlocksOf(bs, raw, tokens)
    ensures HasMark(bs) <==> SomeMarked(raw)
  {
    forall i | 0 <= i < |raw|
      ensures bs[i].ttl.Some? <==> IsMarked(raw[i])
    {
      TtlIs(raw[i]);
    }
    if SomeMarked(raw) {
      var v :| v in raw && IsMarked(v);
      var i :| 0 <= i < |raw| && raw[i] == v;
      assert bs[i].ttl.Some?;
    }
    if HasMark(bs) {
      var i :| 0 <= i < |bs| && bs[i].ttl.Some?;
      assert raw[i] in raw;
    }
  }

  lemma HasMarkConcat(a: seq<Pending>, b: seq<Pending>)
    ensures HasMark(a + b) <==> HasMark(a) || HasMark(b)
  {
    var c := a + b;
    if HasMark(a) {
      var i :| 0 <= i < |a| && a[i].ttl.Some?;
      assert c[i] == a[i];
    }
    if HasMark(b) {
      var i :| 0 <= i < |b| && b[i].ttl.Some?;
      assert c[|a| + i] == b[i];
    }
    if HasMark(c) {
      var i :| 0 <= i < |c| && c[i].ttl.Some?;
      assert i < |a| ==> a[i] == c[i];
      assert i >= |a| ==> b[i - |a|] == c[i];
    }
  }

  ghost predicate MarkedFrom(messages: seq<Json>, mi: nat) {
    exists i :: mi <= i < |messages| && SomeMarked(RawContent(messages[i]))
  }

  lemma MarkedFromStep(messages: seq<Json>, mi: nat)
    ensures MarkedFrom(messages, mi)
            <==> mi < |messages| && (SomeMarked(RawContent(messages[mi])) || MarkedFrom(messages, mi + 1))
  {
  }

  lemma MessageHasMark(mi: nat, message: Json, est: Estimators)
    ensures HasMark(MessageBlocks(mi, message, est)) <==> SomeMarked(RawContent(message))
  {
    MessageOf(mi, message, est);
    MarkedOf(MessageBlocks(mi, message, est), RawContent(message), est.value);
  }

  lemma {:induction false} MessagesMarked(mi: nat, messages: seq<Json>, est: Estimators)
    requires mi <= |messages|
    ensures HasMark(MessagesFrom(mi, messages, est)) <==> MarkedFrom(messages, mi)
    decreases |messages| - mi
  {
    MarkedFromStep(messages, mi);
    if mi < |messages| {
      MessagesMarked(mi + 1, messages, est);
      MessageHasMark(mi, messages[mi], est);
      HasMarkConcat(MessageBlocks(mi, messages[mi], est), MessagesFrom(mi + 1, messages, est));
    }
  }

  /** A request has a client breakpoint exactly if a marker stands on one of its tools, system blocks or content
      blocks. */
  lemma ClientMarks(p: Payload, est: Estimators)
    ensures HasMark(Flatten(p, est)) <==> SomeMarked(RawTools(p)) || SomeMarked(RawSystem(p)) || MessageMarked(Messages(p))
  {
    ToolsOf(p, est);
    SystemOf(p, est);
    MarkedOf(Tools(p, est), RawTools(p), v => est.serialized(Strip(v)));
    MarkedOf(System(p, est), RawSystem(p), est.system);
    MessagesMarked(0, Messages(p), est);
    HasMarkConcat(Tools(p, est), System(p, est));
    HasMarkConcat(Tools(p, est) + System(p, est), MessagesFrom(0, Messages(p), est));
  }

  // ---------------------------------------------------------------- tokens

  /** The positive ones of the estimates, added up. */
  function Sum(vs: seq<Json>, tokens: Json -> int): nat {
    if vs == [] then 0
    else Sum(vs[1..], tokens) + (if tokens(vs[0]) > 0 then tokens(vs[0]) else 0)
  }

  function MessagesSum(messages: seq<Json>, tokens: Json -> int): nat {
    if messages == [] then 0 else Sum(RawContent(messages[0]), tokens) + MessagesSum(messages[1..], tokens)
  }

  lemma {:induction false} CumulativeConcat(a: seq<Pending>, b: seq<Pending>, n: nat)
    requires n <= |b|
    ensures Cumulative(a + b, |a| + n) == Cumulative(a, |a|) + Cumulative(b, n)
  {
    if n == 0 {
      CumulativePrefix(a + b, a, |a|);
    } else {
      CumulativeConcat(a, b, n - 1);
      assert (a + b)[|a| + n - 1] == b[n - 1];
    }
  }

  lemma {:induction false} SumOf(bs: seq<Pending>, raw: seq<Json>, tokens: Json -> int)
    requires BlocksOf(bs, raw, tokens)
    ensures Cumulative(bs, |bs|) == Sum(raw, tokens)
  {
    if bs != [] {
      var first, rest := bs[..1], bs[1..];
      assert bs == first + rest;
      SumOf(rest, raw[1..], tokens);
      CumulativeConcat(first, rest, |rest|);
      assert Cumulative(first, 1) == Cumulative(first, 0) + Max(first[0].tokens, 0);
    }
  }

  lemma MessageTokens(mi: nat, message: Json, est: Estimators)
    ensures var bs := MessageBlocks(mi, message, est); Cumulative(bs, |bs|) == Sum(RawContent(message), est.value)
  {
    MessageOf(mi, message, est);
    SumOf(MessageBlocks(mi, message, est), RawContent(message), est.value);
  }

  function All(bs: seq<Pending>): nat {
    Cumulative(bs, |bs|)
  }

  lemma AllConcat(a: seq<Pending>, b: seq<Pending>)
    ensures All(a + b) == All(a) + All(b)
  {
    CumulativeConcat(a, b, |b|);
  }

  lemma {:induction false} MessagesTokens(mi: nat, messages: seq<Json>, est: Estimators)
    requires mi <= |messages|
    ensures All(MessagesFrom(mi, messages, est)) == MessagesSum(messages[mi..], est.value)
    decreases |messages| - mi
  {
    if mi < |messages| {
      MessagesTokens(mi + 1, messages, est);
      MessageTokens(mi, messages[mi], est);
      AllConcat(MessageBlocks(mi, messages[mi], est), MessagesFrom(mi + 1, messages, est));
      assert messages[mi..][1..] == messages[mi + 1..];
    }
  }

  lemma ToolTokens(p: Payload, est: Estimators)
    ensures All(Tools(p, est)) == Sum(RawTools(p), v => est.serialized(Strip(v)))
  {
    ToolsOf(p, est);
    SumOf(Tools(p, est), RawTools(p), v => est.serialized(Strip(v)));
  }

  lemma SystemTokens(p: Payload, est: Estimators)
    ensures All(System(p, est)) == Sum(RawSystem(p), est.system)
  {
    SystemOf(p, est);
    SumOf(System(p, est), RawSystem(p), est.system);
  }

  /** The tokens of a request's blocks are the estimates of its tools without markers, of its system blocks and of
      its content blocks; negative ones count as nothing. */
  lemma TokensCounted(p: Payload, est: Estimators)
    ensures All(Flatten(p, est))
            == Sum(RawTools(p), v => est.serialized(Strip(v))) + Sum(RawSystem(p), est.system) + MessagesSum(Messages(p), est.value)
  {
    ToolTokens(p, est);
    SystemTokens(p, est);
    MessagesTokens(0, Messages(p), est);
    assert Messages(p)[0..] == Messages(p);
    AllConcat(Tools(p, est), System(p, est));
    AllConcat(Tools(p, est) + System(p, est), MessagesFrom(0, Messages(p), est));
  }

  // ---------------------------------------------------------------- breakpoints

  // The last marked block up to i.
  ghost predicate LastMark(bs: seq<Pending>, i: nat, j: int) {
    0 <= j <= i < |bs| && bs[j].ttl.Some? && forall k :: j < k <= i ==> bs[k].ttl.None?
  }

  lemma {:induction false} TtlInForce(bs: seq<Pending>, i: nat)
    requires i < |bs|
    ensures ActiveTtl(bs, i + 1).Some? <==> exists j :: 0 <= j <= i && bs[j].ttl.Some?
    ensures forall j :: LastMark(bs, i, j) ==> ActiveTtl(bs, i + 1) == bs[j].ttl
  {
    if bs[i].ttl.None? && i > 0 {
      TtlInForce(bs, i - 1);
      forall j | LastMark(bs, i, j)
        ensures LastMark(bs, i - 1, j)
      {
      }
    }
  }

  /** A block is a breakpoint exactly if it is marked, or ends a message with a mark in it or before it; the TTL is
      that of the last mark up to there. */
  lemma {:induction false} BreakpointsExact(bs: seq<Pending>, i: nat)
    requires i < |bs|
    ensures (exists k :: 0 <= k < |Breakpoints(bs, |bs|)| && Breakpoints(bs, |bs|)[k].index == i)
            <==> bs[i].ttl.Some? || (bs[i].isMessageEnd && bs[i].inMessage && exists j :: 0 <= j <= i && bs[j].ttl.Some?)
    ensures forall k, j :: 0 <= k < |Breakpoints(bs, |bs|)| && Breakpoints(bs, |bs|)[k].index == i && LastMark(bs, i, j) ==>
              bs[j].ttl == Some(Breakpoints(bs, |bs|)[k].ttl)
  {
    TtlInForce(bs, i);
    if IsBreakpoint(bs, i) {
      BreakpointsComplete(bs, |bs|, i);
    }
  }

  /** Without client markers, and if the setting says so, every message end and the last block are marked with the
      default TTL, and nothing else; with any marker all stay as they are. */
  lemma DefaultMarks(cfg: Config, bs: seq<Pending>, i: nat)
    requires i < |bs|
    ensures var d := Defaulted(bs, cfg.ttl5m);
            && |d| == |bs| && d[i].value == bs[i].value && d[i].tokens == bs[i].tokens
            && d[i].inMessage == bs[i].inMessage && d[i].isMessageEnd == bs[i].isMessageEnd
            && (bs[i].isMessageEnd || i == |bs| - 1 ==> d[i].ttl == Some(cfg.ttl5m))
            && (!bs[i].isMessageEnd && i < |bs| - 1 ==> d[i].ttl == bs[i].ttl)
  {
  }

  /** What the fast path keeps of a request of more than a hundred thousand tokens: the longest prefix of at most
      fifty thousand, and one block if the first is larger. Other requests are kept whole. */
  lemma FastPath(cfg: Config, p: Payload, est: Estimators, total: int)
    ensures var all, kept := Flatten(p, est), Prepared(cfg, p, est, total);
            && |kept| <= |all|
            && (total <= 100_000 ==> |kept| == |all|)
            && (total > 100_000 && |kept| > 1 ==> Cumulative(all, |kept|) <= 50_000)
            && (total > 100_000 && |kept| < |all| ==> |kept| > 0 && Cumulative(all, |kept| + 1) > 50_000)
            && forall i :: 0 <= i < |kept| ==> kept[i].value == all[i].value && kept[i].tokens == all[i].tokens
  {
  }

  /** When the default marks are set. */
  lemma FallbackMarks(cfg: Config, p: Payload, est: Estimators, total: int)
    ensures var all, kept := Flatten(p, est), Prepared(cfg, p, est, total);
            && (HasMark(all[..|kept|]) || !cfg.fallbackBreakpoints ==> kept == all[..|kept|])
            && (!HasMark(all[..|kept|]) && cfg.fallbackBreakpoints ==>
                  forall i :: 0 <= i < |kept| ==>
                    kept[i].ttl == if all[i].isMessageEnd || i == |kept| - 1 then Some(cfg.ttl5m) else None)
  {
    var all := Flatten(p, est);
    assert all[..|all|] == all;
  }
}
