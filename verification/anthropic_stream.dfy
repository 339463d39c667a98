/** The streaming Anthropic transducer (internal/api/anthropic_handler.go, streamAnthropicChat): upstream
    events, possibly over several accounts, become one message of content blocks. Pings are left out. */
module AnthropicStream {
  import opened Options

  // ---------------------------------------------------------------- the output and its grammar

  datatype Kind = Thinking | Text | ToolUse(id: string, name: string)

  datatype StopReason = EndTurn | ToolCalls

  datatype Frame =
    | MessageStart
    | BlockStart(index: int, kind: Kind)
    | ThinkingDelta(index: int, thinking: string)
    | SignatureDelta(index: int, signature: string)
    | TextDelta(index: int, text: string)
    | JsonDelta(index: int, json: string)
    | BlockStop(index: int)
    | MessageDelta(stop: StopReason)
    | MessageStop
    | ErrorFrame

  datatype State =
    | Fresh
    | Between(next: int)
    | Inside(index: int, kind: Kind)
    | Finishing
    | Done
    | Failed
    | Bad

  /** The grammar of a stream, one frame at a time: one message start, then blocks numbered 0, 1, 2, ...,
      each started, given deltas of its own type and index, and stopped before the next one starts; then
      a message delta and a message stop, or an error, with no block open. */
  function Next(s: State, f: Frame): State {
    match f
    case MessageStart => if s == Fresh then Between(0) else Bad
    case BlockStart(i, k) => if s == Between(i) then Inside(i, k) else Bad
    case ThinkingDelta(i, _) => if s == Inside(i, Thinking) then s else Bad
    case SignatureDelta(i, _) => if s == Inside(i, Thinking) then s else Bad
    case TextDelta(i, _) => if s == Inside(i, Text) then s else Bad
    case JsonDelta(i, _) => if s.Inside? && s.index == i && s.kind.ToolUse? then s else Bad
    case BlockStop(i) => if s.Inside? && s.index == i then Between(i + 1) else Bad
    case MessageDelta(_) => if s.Between? then Finishing else Bad
    case MessageStop => if s == Finishing then Done else Bad
    case ErrorFrame => if s.Between? then Failed else Bad
  }

  function Parse(frames: seq<Frame>): State {
    if frames == [] then Fresh else Next(Parse(frames[..|frames| - 1]), frames[|frames| - 1])
  }

  // What the deltas say, without the framing.
  datatype Piece = Thought(text: string) | Said(text: string) | Args(id: string, name: string, json: string)

  /** A thinking block: what was thought in it, and its signatures. */
  datatype ThinkingBlock = InBlock(text: string, signatures: seq<string>)

  datatype Summary = Summary(state: State, pieces: seq<Piece>, blocks: seq<Kind>, thoughts: seq<ThinkingBlock>,
                             stop: Option<StopReason>)

  // The last thinking block goes on, or is signed.
  function ThinkOn(thoughts: seq<ThinkingBlock>, x: string): seq<ThinkingBlock> {
    if thoughts == [] then []
    else thoughts[..|thoughts| - 1] + [thoughts[|thoughts| - 1].(text := thoughts[|thoughts| - 1].text + x)]
  }

  function Sign(thoughts: seq<ThinkingBlock>, x: string): seq<ThinkingBlock> {
    if thoughts == [] then []
    else thoughts[..|thoughts| - 1] + [thoughts[|thoughts| - 1].(signatures := thoughts[|thoughts| - 1].signatures + [x])]
  }

  function Advance(s: Summary, f: Frame): Summary {
    var t := s.(state := Next(s.state, f));
    match f
    case BlockStart(_, k) =>
      t.(blocks := s.blocks + [k], thoughts := s.thoughts + (if k.Thinking? then [InBlock("", [])] else []))
    case ThinkingDelta(_, x) => t.(pieces := s.pieces + [Thought(x)], thoughts := ThinkOn(s.thoughts, x))
    case SignatureDelta(_, x) => t.(thoughts := Sign(s.thoughts, x))
    case TextDelta(_, x) => t.(pieces := s.pieces + [Said(x)])
    case JsonDelta(_, x) =>
      if s.state.Inside? && s.state.kind.ToolUse?
      then t.(pieces := s.pieces + [Args(s.state.kind.id, s.state.kind.name, x)]) else t
    case MessageDelta(r) => t.(stop := Some(r))
    case _ => t
  }

  function Summarize(frames: seq<Frame>): (s: Summary)
    ensures s.state == Parse(frames)
  {
    if frames == [] then Summary(Fresh, [], [], [], None)
    else Advance(Summarize(frames[..|frames| - 1]), frames[|frames| - 1])
  }

  // ---------------------------------------------------------------- the input

  /** Tool names and ids are given as mapped for the client; an empty name is an unnamed partial frame. */
  datatype Partial = Partial(skipped: bool, id: string, name: string)
  datatype Gate = Forward(id: string, name: string, args: string) | Dropped(summary: string)
  datatype Reasoning = Reasoning(text: string, isLast: bool)

  datatype Event = Event(thinking: Option<Reasoning>, text: string, partial: Option<Partial>, tool: Option<Gate>)

  datatype Outcome = Ok | Err(switchAccount: bool, canceled: bool)
  datatype Attempt = Attempt(events: seq<Event>, outcome: Outcome)

  datatype Mode = Mode(wantJson: bool, knowledge: bool, thinkingRequested: bool, omitted: bool, signs: bool) {
    predicate Plain() { !wantJson && !knowledge }

    predicate NeedsThinking() { thinkingRequested && Plain() }
  }

  /** Text transformations whose inner workings do not matter here. */
  datatype Texts = Texts(placeholder: string, sign: string -> string, fill: string -> string,
                         extract: string -> string, note: seq<string> -> string)

  const UNKNOWN := "I don't know."

  function OrElse(s: string, fallback: string): string {
    if s == "" then fallback else s
  }

  // ---------------------------------------------------------------- what a run should say

  /** What was said, whether there was any thinking, the blocks started, and the open one, if any. */
  datatype Telling = Telling(pieces: seq<Piece>, saw: bool, blocks: seq<Kind>, open: Option<Kind>)

  predicate LivePartial(ev: Event) {
    ev.partial.Some? && !ev.partial.value.skipped
  }

  predicate NamedPartial(ev: Event) {
    LivePartial(ev) && ev.partial.value.name != ""
  }

  predicate Thinks(ev: Event) {
    ev.thinking.Some? && ev.thinking.value.text != ""
  }

  // An unnamed partial frame ends the handling of its event.
  predicate Forwards(ev: Event) {
    (LivePartial(ev) ==> NamedPartial(ev)) && ev.tool.Some? && ev.tool.value.Forward?
  }

  predicate Drops(ev: Event) {
    (LivePartial(ev) ==> NamedPartial(ev)) && ev.tool.Some? && ev.tool.value.Dropped?
  }

  // A block goes on if it is the open one; otherwise one is started.
  function Turn(t: Telling, k: Kind): Telling {
    if t.open == Some(k) then t else t.(blocks := t.blocks + [k], open := Some(k))
  }

  // The placeholder comes before the first text or tool of a turn that thinks but has not yet.
  function WithPlaceholder(m: Mode, texts: Texts, t: Telling): Telling {
    if m.NeedsThinking() && !t.saw then
      var u := Turn(t.(saw := true), Thinking);
      if m.omitted then u else u.(pieces := u.pieces + [Thought(texts.placeholder)], open := None)
    else t
  }

  function TellThinking(m: Mode, t: Telling, ev: Event): Telling {
    if !m.Plain() || ev.thinking.None? then t
    else
      var th := ev.thinking.value;
      var u := if th.text == "" then t else Turn(t.(pieces := t.pieces + [Thought(th.text)], saw := true), Thinking);
      if th.isLast && u.open == Some(Thinking) then u.(open := None) else u
  }

  function TellText(m: Mode, texts: Texts, t: Telling, ev: Event): Telling {
    if ev.text == "" then t
    else
      var u := WithPlaceholder(m, texts, t);
      if m.Plain() then Turn(u.(pieces := u.pieces + [Said(ev.text)]), Text) else u
  }

  function TellPartial(m: Mode, texts: Texts, t: Telling, ev: Event): Telling {
    if !LivePartial(ev) then t
    else
      var u := WithPlaceholder(m, texts, t);
      if NamedPartial(ev) then Turn(u, ToolUse(ev.partial.value.id, ev.partial.value.name)) else u
  }

  function TellTool(m: Mode, texts: Texts, t: Telling, ev: Event): Telling {
    if !Forwards(ev) then t
    else
      var u := WithPlaceholder(m, texts, t);
      var call := ev.tool.value;
      var w := Turn(u, ToolUse(call.id, call.name));
      if call.args == "" then w else w.(pieces := w.pieces + [Args(call.id, call.name, call.args)])
  }

  function TellUses(m: Mode, texts: Texts, t: Telling, ev: Event): Telling {
    TellTool(m, texts, TellPartial(m, texts, t, ev), ev)
  }

  function Tell(m: Mode, texts: Texts, t: Telling, ev: Event): Telling {
    TellUses(m, texts, TellText(m, texts, TellThinking(m, t, ev), ev), ev)
  }

  /** Everything a list of events has to say, in order. */
  function Told(m: Mode, texts: Texts, evs: seq<Event>): Telling {
    if evs == [] then Telling([], false, [], None)
    else
      Tell(m, texts, Told(m, texts, evs[..|evs| - 1]), evs[|evs| - 1])
  }

  function Spoken(evs: seq<Event>): string {
    if evs == [] then "" else Spoken(evs[..|evs| - 1]) + evs[|evs| - 1].text
  }

  function Blocked(evs: seq<Event>): seq<string> {
    if evs == [] then []
    else
      var ev := evs[|evs| - 1];
      Blocked(evs[..|evs| - 1])
      + (if Drops(ev) && ev.tool.value.summary != "" then [ev.tool.value.summary] else [])
  }

  predicate MentionsTool(evs: seq<Event>) {
    exists i :: 0 <= i < |evs| && (NamedPartial(evs[i]) || Forwards(evs[i]))
  }

  // The event makes the client see a block.
  predicate Visible(m: Mode, ev: Event) {
    || (m.Plain() && (ev.text != "" || Thinks(ev)))
    || NamedPartial(ev)
    || (LivePartial(ev) && m.NeedsThinking())
    || Forwards(ev)
  }

  predicate AnyVisible(m: Mode, evs: seq<Event>) {
    exists i :: 0 <= i < |evs| && Visible(m, evs[i])
  }

  // The collected text of the two special modes, or a fallback for a turn without any block.
  function ClosingText(m: Mode, texts: Texts, evs: seq<Event>): seq<Piece> {
    if m.wantJson then [Said(OrElse(texts.fill(Spoken(evs)), "{}"))]
    else if Spoken(evs) != "" && m.knowledge then [Said(OrElse(texts.extract(Spoken(evs)), UNKNOWN))]
    else if !AnyVisible(m, evs) && !m.NeedsThinking() then [Said(UNKNOWN)]
    else []
  }

  // The note on tool calls not forwarded.
  function Note(texts: Texts, blocked: seq<string>): seq<Piece> {
    if texts.note(blocked) == "" then [] else [Said("\n\n" + texts.note(blocked))]
  }

  /** What is added once the upstream is done: that text and that note, each in a block of its own. */
  function Closing(m: Mode, texts: Texts, evs: seq<Event>): seq<Piece> {
    ClosingText(m, texts, evs) + Note(texts, Blocked(evs))
  }

  function TextBlocks(ps: seq<Piece>): seq<Kind> {
    seq(|ps|, _ => Text)
  }

  // ---------------------------------------------------------------- the transducer

  // One frame takes one summary to the next.
  ghost predicate Follows(sums: seq<Summary>, out: seq<Frame>, i: nat)
    requires i < |out| && i + 1 < |sums|
  {
    sums[i + 1] == Advance(sums[i], out[i])
  }

  lemma {:induction false} FollowsSummary(sums: seq<Summary>, out: seq<Frame>, n: nat)
    requires n <= |out| < |sums| && sums[0] == Summarize([])
    requires forall i :: 0 <= i < |out| ==> Follows(sums, out, i)
    ensures Summarize(out[..n]) == sums[n]
  {
    if n > 0 {
      FollowsSummary(sums, out, n - 1);
      assert Follows(sums, out, n - 1);
      assert out[..n][..n - 1] == out[..n - 1];
    }
  }

  /** A closed thinking block has one signature, of exactly what was thought in it, if thinking is signed and there
      is any, or it is left out; and otherwise none. */
  predicate Signed(m: Mode, texts: Texts, b: ThinkingBlock) {
    b.signatures == if m.signs && (b.text != "" || m.omitted) && texts.sign(b.text) != "" then [texts.sign(b.text)] else []
  }

  predicate AllSigned(m: Mode, texts: Texts, thoughts: seq<ThinkingBlock>) {
    forall i :: 0 <= i < |thoughts| ==> Signed(m, texts, thoughts[i])
  }

  // The last one is still open.
  predicate OpenThought(m: Mode, texts: Texts, thoughts: seq<ThinkingBlock>, text: string) {
    && thoughts != [] && thoughts[|thoughts| - 1] == InBlock(text, [])
    && AllSigned(m, texts, thoughts[..|thoughts| - 1])
  }

  class Streamer {
    const mode: Mode
    const texts: Texts
    var out: seq<Frame>
    // What the frames amount to, and did after each of them.
    ghost var sum: Summary
    ghost var sums: seq<Summary>
    var sentContent: bool
    var curBlockIdx: int
    var cur: Option<Kind>
    var sawThinking: bool
    var hasToolCalls: bool
    var thinkingBuf: string
    var textBuf: string
    var blocked: seq<string>

    ghost predicate Sound()
      reads this
    {
      && |sums| == |out| + 1 && sums[0] == Summarize([]) && sums[|out|] == sum
      && forall i :: 0 <= i < |out| ==> Follows(sums, out, i)
    }

    // The frames so far parse, and the block variables say where the parse is.
    ghost predicate Shape()
      reads this
    {
      && Sound()
      && curBlockIdx >= -1 && (cur.Some? ==> curBlockIdx >= 0)
      && sum.state == (if cur.None? then Between(curBlockIdx + 1) else Inside(curBlockIdx, cur.value))
      && |sum.blocks| == curBlockIdx + 1
      && (sum.blocks == [] ==> sum.pieces == [] && sum.thoughts == [])
      && (!mode.Plain() ==> sum.thoughts == [] && cur != Some(Thinking))
      && (if cur == Some(Thinking) then OpenThought(mode, texts, sum.thoughts, thinkingBuf)
          else AllSigned(mode, texts, sum.thoughts) && thinkingBuf == "")
      && sum.stop.None?
    }

    // While events are handled: a turn that must think has shown no block before it did.
    ghost predicate Valid()
      reads this
    {
      && Shape()
      && (sentContent <==> curBlockIdx >= 0)
      && (mode.NeedsThinking() ==> (sawThinking <==> curBlockIdx >= 0))
      && (sawThinking ==> curBlockIdx >= 0)
    }

    ghost function Now(): Telling
      reads this
    {
      Telling(sum.pieces, sawThinking, sum.blocks, cur)
    }

    constructor (mode: Mode, texts: Texts)
      ensures Valid() && this.mode == mode && this.texts == texts
      ensures curBlockIdx == -1 && out == [MessageStart] && Now() == Telling([], false, [], None)
      ensures !hasToolCalls && textBuf == "" && blocked == []
    {
      this.mode, this.texts := mode, texts;
      out, sum := [MessageStart], Summary(Between(0), [], [], [], None);
      sentContent, curBlockIdx, cur := false, -1, None;
      sawThinking, hasToolCalls, thinkingBuf, textBuf, blocked := false, false, "", "", [];
      sums := [Summarize([]), Advance(Summarize([]), MessageStart)];
    }

    method Emit(f: Frame)
      requires Sound()
      modifies this`out, this`sum, this`sums
      ensures Sound() && sum == Advance(old(sum), f) && out == old(out) + [f]
    {
      ghost var before, last := sums, out;
      out := out + [f];
      sum := Advance(sum, f);
      sums := sums + [sum];
      forall i | 0 <= i < |out|
        ensures Follows(sums, out, i)
      {
        if i < |last| {
          assert Follows(before, last, i);
          assert sums[i] == before[i] && sums[i + 1] == before[i + 1] && out[i] == last[i];
        }
      }
    }

    /** Stops the open block, if any; a thinking block may be signed first. */
    method CloseCurrentBlock()
      requires Shape()
      modifies this`out, this`sum, this`sums, this`cur, this`thinkingBuf
      ensures Shape() && cur.None?
      ensures sum == old(sum).(state := Between(curBlockIdx + 1), thoughts := sum.thoughts)
    {
      if cur == Some(Thinking) {
        if mode.signs && (thinkingBuf != "" || mode.omitted) && texts.sign(thinkingBuf) != "" {
          Emit(SignatureDelta(curBlockIdx, texts.sign(thinkingBuf)));
        }
        thinkingBuf := "";
      }
      if cur.Some? {
        Emit(BlockStop(curBlockIdx));
        cur := None;
      }
    }

    // Starts the next block.
    method OpenBlock(kind: Kind)
      requires Shape() && cur.None? && (!mode.Plain() ==> kind != Thinking)
      modifies this`out, this`sum, this`sums, this`cur, this`curBlockIdx
      ensures Shape() && cur == Some(kind) && curBlockIdx == old(curBlockIdx) + 1
      ensures sum.pieces == old(sum).pieces && sum.blocks == old(sum).blocks + [kind]
    {
      curBlockIdx := curBlockIdx + 1;
      Emit(BlockStart(curBlockIdx, kind));
      cur := Some(kind);
    }

    /** Continues a thinking or text block, or starts one after closing another. */
    method EnsureBlock(kind: Kind)
      requires Shape() && !kind.ToolUse? && (!mode.Plain() ==> kind != Thinking)
      modifies this`out, this`sum, this`sums, this`cur, this`curBlockIdx, this`thinkingBuf, this`sentContent
      ensures Shape() && cur == Some(kind)
      ensures sentContent == (old(sentContent) || old(cur) != Some(kind))
      ensures sum.pieces == old(sum).pieces
      ensures sum.blocks == if old(cur) == Some(kind) then old(sum).blocks else old(sum).blocks + [kind]
    {
      if cur.Some? && cur.value != kind {
        CloseCurrentBlock();
      }
      if cur.None? {
        OpenBlock(kind);
        sentContent := true;
      }
    }

    // More thinking in the open thinking block.
    method Think(text: string)
      requires Shape() && cur == Some(Thinking)
      modifies this`out, this`sum, this`sums, this`thinkingBuf
      ensures Shape() && sum == old(sum).(pieces := old(sum).pieces + [Thought(text)], thoughts := sum.thoughts)
    {
      thinkingBuf := thinkingBuf + text;
      Emit(ThinkingDelta(curBlockIdx, text));
    }

    // A tool's block after any other.
    method StartTool(kind: Kind)
      requires Shape() && kind.ToolUse?
      modifies this`out, this`sum, this`sums, this`cur, this`curBlockIdx, this`thinkingBuf
      ensures Shape() && cur == Some(kind) && curBlockIdx > old(curBlockIdx)
      ensures sum.pieces == old(sum).pieces && sum.blocks == old(sum).blocks + [kind]
    {
      CloseCurrentBlock();
      OpenBlock(kind);
    }

    method EnsureTool(id: string, name: string)
      requires Valid() && (mode.NeedsThinking() ==> sawThinking)
      modifies this`out, this`sum, this`sums, this`cur, this`curBlockIdx, this`thinkingBuf, this`sentContent, this`hasToolCalls
      ensures Valid() && cur == Some(ToolUse(id, name)) && hasToolCalls
      ensures Now() == Turn(old(Now()), ToolUse(id, name))
    {
      hasToolCalls := true;
      if cur != Some(ToolUse(id, name)) {
        StartTool(ToolUse(id, name));
        sentContent := true;
      }
    }

    /** The placeholder thinking of a turn that must think and has not. */
    method EmitSyntheticThinking()
      requires Valid() && mode.NeedsThinking()
      modifies this`out, this`sum, this`sums, this`cur, this`curBlockIdx, this`thinkingBuf, this`sentContent, this`sawThinking
      ensures Valid() && sawThinking
      ensures Now() == WithPlaceholder(mode, texts, old(Now()))
    {
      if sawThinking {
        return;
      }
      sawThinking := true;
      EnsureBlock(Thinking);
      if mode.omitted {
        return;
      }
      Think(texts.placeholder);
      CloseCurrentBlock();
    }

    // Thinking that the turn needs before it can go on.
    method ThinkFirst()
      requires Valid()
      modifies this`out, this`sum, this`sums, this`cur, this`curBlockIdx, this`thinkingBuf, this`sentContent, this`sawThinking
      ensures Valid() && (mode.NeedsThinking() ==> sawThinking)
      ensures Now() == WithPlaceholder(mode, texts, old(Now()))
      ensures !mode.NeedsThinking() ==> curBlockIdx == old(curBlockIdx)
      ensures curBlockIdx >= old(curBlockIdx)
    {
      if mode.NeedsThinking() && !sawThinking {
        EmitSyntheticThinking();
      }
    }

    method ThinkAloud(text: string)
      requires Valid() && mode.Plain()
      modifies this`out, this`sum, this`sums, this`cur, this`curBlockIdx, this`thinkingBuf, this`sentContent, this`sawThinking
      ensures Valid() && curBlockIdx >= 0 && Now() == Turn(Telling(old(sum).pieces + [Thought(text)], true, old(sum).blocks, old(cur)), Thinking)
    {
      sawThinking := true;
      EnsureBlock(Thinking);
      Think(text);
    }

    method SayText(text: string)
      requires Valid() && mode.Plain() && (mode.NeedsThinking() ==> sawThinking)
      modifies this`out, this`sum, this`sums, this`cur, this`curBlockIdx, this`thinkingBuf, this`sentContent
      ensures Valid() && curBlockIdx >= 0 && Now() == Turn(Telling(old(sum).pieces + [Said(text)], sawThinking, old(sum).blocks, old(cur)), Text)
    {
      EnsureBlock(Text);
      Emit(TextDelta(curBlockIdx, text));
    }

    method ForwardCall(id: string, name: string, args: string)
      requires Valid()
      modifies this`out, this`sum, this`sums, this`cur, this`curBlockIdx, this`thinkingBuf, this`sentContent, this`sawThinking, this`hasToolCalls
      ensures Valid() && hasToolCalls && curBlockIdx >= 0
      ensures var u := Turn(WithPlaceholder(mode, texts, old(Now())), ToolUse(id, name));
              Now() == if args == "" then u else u.(pieces := u.pieces + [Args(id, name, args)])
    {
      ThinkFirst();
      EnsureTool(id, name);
      if args != "" {
        Emit(JsonDelta(curBlockIdx, args));
      }
    }

    method OnThinking(ev: Event)
      requires Valid()
      modifies this`out, this`sum, this`sums, this`cur, this`curBlockIdx, this`thinkingBuf, this`sentContent, this`sawThinking
      ensures Valid() && Now() == TellThinking(mode, old(Now()), ev)
      ensures curBlockIdx >= 0 <==> old(curBlockIdx) >= 0 || (mode.Plain() && Thinks(ev))
    {
      if ev.thinking.Some? && !mode.wantJson && !mode.knowledge {
        var th := ev.thinking.value;
        if th.text != "" {
          ThinkAloud(th.text);
        }
        if th.isLast && cur == Some(Thinking) {
          CloseCurrentBlock();
        }
      }
    }

    method OnText(ev: Event)
      requires Valid()
      modifies this`out, this`sum, this`sums, this`cur, this`curBlockIdx, this`thinkingBuf, this`sentContent, this`sawThinking, this`textBuf
      ensures Valid() && Now() == TellText(mode, texts, old(Now()), ev)
      ensures textBuf == old(textBuf) + (if mode.Plain() then "" else ev.text)
      ensures curBlockIdx >= 0 <==> old(curBlockIdx) >= 0 || (mode.Plain() && ev.text != "")
    {
      if ev.text != "" {
        ThinkFirst();
        if mode.wantJson || mode.knowledge {
          textBuf := textBuf + ev.text;
        } else {
          SayText(ev.text);
        }
      }
    }

    /** `ended` says that an unnamed partial frame ended the event. */
    method OnPartial(ev: Event) returns (ended: bool)
      requires Valid()
      modifies this`out, this`sum, this`sums, this`cur, this`curBlockIdx, this`thinkingBuf, this`sentContent, this`sawThinking, this`hasToolCalls
      ensures Valid() && Now() == TellPartial(mode, texts, old(Now()), ev)
      ensures ended == (LivePartial(ev) && !NamedPartial(ev))
      ensures hasToolCalls == (old(hasToolCalls) || NamedPartial(ev))
      ensures curBlockIdx >= 0 <==> old(curBlockIdx) >= 0 || NamedPartial(ev) || (LivePartial(ev) && mode.NeedsThinking())
    {
      ended := false;
      if ev.partial.Some? && !ev.partial.value.skipped {
        ThinkFirst();
        if ev.partial.value.name == "" {
          return true;
        }
        EnsureTool(ev.partial.value.id, ev.partial.value.name);
      }
    }

    method OnTool(ev: Event)
      requires Valid() && (LivePartial(ev) ==> NamedPartial(ev))
      modifies this`out, this`sum, this`sums, this`cur, this`curBlockIdx, this`thinkingBuf, this`sentContent, this`sawThinking, this`hasToolCalls, this`blocked
      ensures Valid() && Now() == TellTool(mode, texts, old(Now()), ev)
      ensures blocked == old(blocked) + (if Drops(ev) && ev.tool.value.summary != "" then [ev.tool.value.summary] else [])
      ensures hasToolCalls == (old(hasToolCalls) || Forwards(ev))
      ensures curBlockIdx >= 0 <==> old(curBlockIdx) >= 0 || Forwards(ev)
    {
      if ev.tool.None? {
        return;
      }
      match ev.tool.value {
        case Dropped(summary) =>
          if summary != "" {
            blocked := blocked + [summary];
          }
        case Forward(id, name, args) =>
          ForwardCall(id, name, args);
      }
    }

    lemma SumsUp()
      requires Sound()
      ensures sum == Summarize(out)
    {
      FollowsSummary(sums, out, |out|);
      assert out[..|out|] == out;
    }

    // Where the handling of the first n events of an attempt has got to.
    ghost predicate Following(evs: seq<Event>)
      reads this
    {
      && Valid()
      && Now() == Told(mode, texts, evs)
      && textBuf == (if mode.Plain() then "" else Spoken(evs))
      && blocked == Blocked(evs)
      && (hasToolCalls <==> MentionsTool(evs))
      && (curBlockIdx >= 0 <==> AnyVisible(mode, evs))
    }

    method OnEvent(ghost before: seq<Event>, ev: Event, ghost after: seq<Event>)
      requires Following(before) && after == before + [ev]
      modifies this
      ensures Following(after)
    {
      OneMore(mode, texts, before, ev);
      HandleEvent(ev);
    }

    method HandleEvent(ev: Event)
      requires Valid()
      modifies this
      ensures Valid() && Now() == Tell(mode, texts, old(Now()), ev)
      ensures textBuf == old(textBuf) + (if mode.Plain() then "" else ev.text)
      ensures blocked == old(blocked) + (if Drops(ev) && ev.tool.value.summary != "" then [ev.tool.value.summary] else [])
      ensures hasToolCalls <==> old(hasToolCalls) || NamedPartial(ev) || Forwards(ev)
      ensures curBlockIdx >= 0 <==> old(curBlockIdx) >= 0 || Visible(mode, ev)
    {
      OnThinking(ev);
      OnText(ev);
      var ended := OnPartial(ev);
      if !ended {
        OnTool(ev);
      }
    }

    // A failed attempt that showed nothing is forgotten.
    method StartAttempt()
      requires Valid() && !sentContent
      modifies this
      ensures Following([]) && curBlockIdx == -1 && !sentContent && out == old(out)
    {
      cur := None;
      curBlockIdx, sawThinking, hasToolCalls := -1, false, false;
      thinkingBuf, textBuf, blocked := "", "", [];
    }

    method NextEvent(events: seq<Event>, i: nat)
      requires i < |events| && Following(events[..i])
      modifies this
      ensures Following(events[..i + 1])
    {
      assert events[..i + 1] == events[..i] + [events[i]];
      OnEvent(events[..i], events[i], events[..i + 1]);
    }

    method RunAttempt(events: seq<Event>)
      requires Valid() && !sentContent
      modifies this
      ensures Following(events)
    {
      StartAttempt();
      for i := 0 to |events|
        invariant Following(events[..i])
      {
        NextEvent(events, i);
      }
      assert events[..|events|] == events;
    }

    // An attempt that failed for good: any open block is closed; a canceled request is just cut off.
    method Fail(outcome: Outcome) returns (cut: bool)
      requires Shape() && outcome.Err?
      modifies this
      ensures Sound() && sum.pieces == old(sum).pieces && sum.blocks == old(sum).blocks
      ensures AllSigned(mode, texts, sum.thoughts)
      ensures cut == (!outcome.switchAccount && outcome.canceled)
      ensures if cut then sum.state.Between? else sum.state == Failed
    {
      CloseCurrentBlock();
      if !outcome.switchAccount && outcome.canceled {
        return true;
      }
      Emit(ErrorFrame);
      return false;
    }

    // A block holding one text.
    method TextBlock(text: string)
      requires Shape() && cur.None?
      modifies this`out, this`sum, this`sums, this`cur, this`curBlockIdx
      ensures Shape() && cur.None? && curBlockIdx == old(curBlockIdx) + 1
      ensures sum.pieces == old(sum).pieces + [Said(text)] && sum.blocks == old(sum).blocks + [Text]
    {
      OpenBlock(Text);
      Emit(TextDelta(curBlockIdx, text));
      Emit(BlockStop(curBlockIdx));
      cur := None;
    }

    // The text that only comes once the upstream is done.
    method CloseText(ghost evs: seq<Event>)
      requires Shape() && cur.None?
      requires textBuf == (if mode.Plain() then "" else Spoken(evs))
      requires curBlockIdx >= 0 <==> AnyVisible(mode, evs) || mode.NeedsThinking()
      modifies this`out, this`sum, this`sums, this`cur, this`curBlockIdx
      ensures Shape() && cur.None? && curBlockIdx >= 0
      ensures sum.pieces == old(sum).pieces + ClosingText(mode, texts, evs)
      ensures sum.blocks == old(sum).blocks + TextBlocks(ClosingText(mode, texts, evs))
    {
      if mode.wantJson {
        TextBlock(OrElse(texts.fill(textBuf), "{}"));
      } else if textBuf != "" && mode.knowledge {
        TextBlock(OrElse(texts.extract(textBuf), UNKNOWN));
      } else if curBlockIdx < 0 {
        TextBlock(UNKNOWN);
      }
    }

    // One turn of the retry loop: None to go on with another account.
    method TryAccount(a: Attempt) returns (r: Option<Ending>)
      requires Valid() && !sentContent
      modifies this
      ensures r.None? <==> Retries(mode, a)
      ensures r.None? ==> Valid() && !sentContent && sum.pieces == Told(mode, texts, a.events).pieces
      ensures r.Some? ==> Sound() && EndsAs(mode, texts, a, r.value, sum)
    {
      RunAttempt(a.events);
      if a.outcome.Ok? {
        Finish(a.events);
        return Some(Completed);
      }
      if a.outcome.switchAccount && !sentContent && !a.outcome.canceled {
        return None;
      }
      var cut := Fail(a.outcome);
      return Some(if cut then Cut else Errored);
    }

    method CloseNote()
      requires Shape() && cur.None? && curBlockIdx >= 0
      modifies this`out, this`sum, this`sums, this`cur, this`curBlockIdx, this`thinkingBuf
      ensures Shape() && cur.None?
      ensures sum.pieces == old(sum).pieces + Note(texts, blocked)
      ensures sum.blocks == old(sum).blocks + TextBlocks(Note(texts, blocked))
    {
      var note := texts.note(blocked);
      if note != "" {
        CloseCurrentBlock();
        TextBlock("\n\n" + note);
      }
    }

    method EmitEnd(stop: StopReason)
      requires Sound() && sum.state.Between?
      modifies this`out, this`sum, this`sums
      ensures Sound() && sum == old(sum).(state := Done, stop := Some(stop))
    {
      Emit(MessageDelta(stop));
      Emit(MessageStop);
    }

    method Finish(ghost evs: seq<Event>)
      requires Following(evs)
      modifies this
      ensures Sound() && Complete(mode, texts, evs, sum)
    {
      FinishBlocks(evs);
      EmitEnd(if hasToolCalls then ToolCalls else EndTurn);
    }

    // The placeholder if there was no thinking at all; then no block is open.
    method FinishThinking(ghost evs: seq<Event>)
      requires Following(evs)
      modifies this`out, this`sum, this`sums, this`cur, this`curBlockIdx, this`thinkingBuf, this`sentContent, this`sawThinking
      ensures Shape() && cur.None?
      ensures sum.pieces == WithPlaceholder(mode, texts, Told(mode, texts, evs)).pieces
      ensures sum.blocks == WithPlaceholder(mode, texts, Told(mode, texts, evs)).blocks
      ensures textBuf == (if mode.Plain() then "" else Spoken(evs)) && blocked == Blocked(evs)
      ensures curBlockIdx >= 0 <==> AnyVisible(mode, evs) || mode.NeedsThinking()
    {
      ThinkFirst();
      CloseCurrentBlock();
    }

    method FinishBlocks(ghost evs: seq<Event>)
      requires Following(evs)
      modifies this
      ensures Shape() && cur.None? && hasToolCalls == old(hasToolCalls) && sum.blocks != []
      ensures sum.pieces == WithPlaceholder(mode, texts, Told(mode, texts, evs)).pieces + Closing(mode, texts, evs)
      ensures sum.blocks == WithPlaceholder(mode, texts, Told(mode, texts, evs)).blocks + TextBlocks(Closing(mode, texts, evs))
    {
      FinishThinking(evs);
      ghost var told, shown := sum.pieces, sum.blocks;
      CloseText(evs);
      CloseNote();
      Together(told, shown, ClosingText(mode, texts, evs), Note(texts, blocked));
    }
  }

  lemma Together(a: seq<Piece>, k: seq<Kind>, b: seq<Piece>, c: seq<Piece>)
    ensures a + b + c == a + (b + c)
    ensures k + TextBlocks(b) + TextBlocks(c) == k + TextBlocks(b + c)
  {
  }

  lemma {:induction false} OneMore(m: Mode, texts: Texts, before: seq<Event>, ev: Event)
    ensures MentionsTool(before + [ev]) <==> MentionsTool(before) || NamedPartial(ev) || Forwards(ev)
    ensures AnyVisible(m, before + [ev]) <==> AnyVisible(m, before) || Visible(m, ev)
    ensures Told(m, texts, before + [ev]) == Tell(m, texts, Told(m, texts, before), ev)
    ensures Spoken(before + [ev]) == Spoken(before) + ev.text
    ensures Blocked(before + [ev])
            == Blocked(before) + (if Drops(ev) && ev.tool.value.summary != "" then [ev.tool.value.summary] else [])
  {
    var evs := before + [ev];
    assert evs[..|evs| - 1] == before && evs[|evs| - 1] == ev;
    Mentions(m, before, ev);
  }

  lemma Mentions(m: Mode, before: seq<Event>, ev: Event)
    ensures MentionsTool(before + [ev]) <==> MentionsTool(before) || NamedPartial(ev) || Forwards(ev)
    ensures AnyVisible(m, before + [ev]) <==> AnyVisible(m, before) || Visible(m, ev)
  {
    var evs := before + [ev];
    assert evs[|before|] == ev;
    if i :| 0 <= i < |before| && (NamedPartial(before[i]) || Forwards(before[i])) {
      assert evs[i] == before[i];
    }
    if i :| 0 <= i < |before| && Visible(m, before[i]) {
      assert evs[i] == before[i];
    }
  }

  /** A finished message: well-formed to the end, saying exactly what the events told and the closing
      adds, in the blocks these take, at least one, every thinking block signed, not thinking at all in the
      two special modes, and stopping for tools exactly when a tool was mentioned. */
  ghost predicate Complete(m: Mode, texts: Texts, evs: seq<Event>, s: Summary) {
    && s.state == Done
    && s.pieces == WithPlaceholder(m, texts, Told(m, texts, evs)).pieces + Closing(m, texts, evs)
    && s.blocks == WithPlaceholder(m, texts, Told(m, texts, evs)).blocks + TextBlocks(Closing(m, texts, evs)) && s.blocks != []
    && (!m.Plain() ==> s.thoughts == []) && AllSigned(m, texts, s.thoughts)
    && s.stop == Some(if MentionsTool(evs) then ToolCalls else EndTurn)
  }

  // ---------------------------------------------------------------- whole runs

  datatype Ending = NoAccount | Completed | Errored | Cut

  // The attempt failed in a way that another account may cure, and the client has seen no block.
  predicate Retries(m: Mode, a: Attempt) {
    a.outcome.Err? && a.outcome.switchAccount && !a.outcome.canceled && !AnyVisible(m, a.events)
  }

  // So did each of the first n attempts.
  predicate AllRetry(m: Mode, attempts: seq<Attempt>, n: nat)
    requires n <= |attempts|
  {
    n == 0 || (AllRetry(m, attempts, n - 1) && Retries(m, attempts[n - 1]))
  }

  /** How a request ends after its last attempt: completed, with an error after the last block was
      closed, or cut off between blocks; failing, it has said what the events told. */
  ghost predicate EndsAs(m: Mode, texts: Texts, a: Attempt, ending: Ending, s: Summary) {
    && (ending == Completed <==> a.outcome.Ok?)
    && (ending == Cut <==> a.outcome.Err? && !a.outcome.switchAccount && a.outcome.canceled)
    && (ending == Completed ==> Complete(m, texts, a.events, s))
    && (ending == Errored ==> s.state == Failed && s.pieces == Told(m, texts, a.events).pieces)
    && (ending == Cut ==> s.state.Between? && s.pieces == Told(m, texts, a.events).pieces)
    && (ending != Completed ==> s.blocks == Told(m, texts, a.events).blocks) && AllSigned(m, texts, s.thoughts)
    && ending != NoAccount
  }

  /** A whole request. `attempts` lists what the accounts handed out one after the other would do; there
      is no further account after the last. `used` counts the attempts made: another account is tried
      exactly while attempts fail in a curable way without having shown a block. */
  method StreamChat(mode: Mode, texts: Texts, attempts: seq<Attempt>) returns (ending: Ending, frames: seq<Frame>, used: nat)
    ensures used <= |attempts| && (used == 0 <==> attempts == []) && (ending == NoAccount <==> attempts == [])
    ensures ending == NoAccount ==> frames == []
    ensures used > 0 ==> AllRetry(mode, attempts, used - 1)
    ensures 0 < used && !Retries(mode, attempts[used - 1]) ==>
              EndsAs(mode, texts, attempts[used - 1], ending, Summarize(frames))
    ensures 0 < used && Retries(mode, attempts[used - 1]) ==>
              used == |attempts| && ending == Errored && Parse(frames) == Failed && Summarize(frames).blocks == []
  {
    if attempts == [] {
      return NoAccount, [], 0;
    }
    var s := new Streamer(mode, texts);
    ending, used := RunAccounts(s, attempts);
    s.SumsUp();
    frames := s.out;
  }

  method RunAccounts(s: Streamer, attempts: seq<Attempt>) returns (ending: Ending, used: nat)
    requires s.Valid() && !s.sentContent && attempts != []
    modifies s
    ensures 0 < used <= |attempts| && s.Sound() && ending != NoAccount
    ensures used > 0 ==> AllRetry(s.mode, attempts, used - 1)
    ensures !Retries(s.mode, attempts[used - 1]) ==> EndsAs(s.mode, s.texts, attempts[used - 1], ending, s.sum)
    ensures Retries(s.mode, attempts[used - 1]) ==> used == |attempts| && ending == Errored && s.sum.state == Failed && s.sum.blocks == []
  {
    var r;
    r, used := TryAccounts(s, attempts);
    if r.Some? {
      return r.value, used;
    }
    s.Emit(ErrorFrame);
    return Errored, used;
  }

  // The retry loop: how the first attempt ended that is not to be retried, if any.
  method TryAccounts(s: Streamer, attempts: seq<Attempt>) returns (r: Option<Ending>, used: nat)
    requires s.Valid() && !s.sentContent
    modifies s
    ensures used <= |attempts| && s.Sound()
    ensures used > 0 ==> AllRetry(s.mode, attempts, used - 1)
    ensures r.Some? ==> used > 0 && !Retries(s.mode, attempts[used - 1])
    ensures r.Some? ==> EndsAs(s.mode, s.texts, attempts[used - 1], r.value, s.sum)
    ensures r.None? ==> used == |attempts| && s.sum.state.Between? && s.sum.blocks == [] && (used > 0 ==> Retries(s.mode, attempts[used - 1]))
  {
    used := 0;
    while used < |attempts|
      invariant s.Valid() && !s.sentContent
      invariant used <= |attempts| && AllRetry(s.mode, attempts, used)
    {
      r := s.TryAccount(attempts[used]);
      used := used + 1;
      if r.Some? {
        return;
      }
    }
    return None, used;
  }
}
