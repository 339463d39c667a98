/** What the messages of AnthropicStream deliver, read off their frames and held against the upstream events: all
    text, thinking and tool arguments, in order, and the blocks they come in. */
module AnthropicWords {
  import opened Options
  import opened Spelling
  import opened AnthropicStream

  // ---------------------------------------------------------------- what the frames say

  function DeltaText(f: Frame): string {
    if f.TextDelta? then f.text else ""
  }

  function DeltaThinking(f: Frame): string {
    if f.ThinkingDelta? then f.thinking else ""
  }

  // How the block of an index was started.
  function Opened(frames: seq<Frame>, index: int): Option<Kind> {
    if frames == [] then None
    else if frames[|frames| - 1].BlockStart? && frames[|frames| - 1].index == index then Some(frames[|frames| - 1].kind)
    else Opened(frames[..|frames| - 1], index)
  }

  /** The partial json of the tool_use blocks that were started under an id. */
  function JsonIn(frames: seq<Frame>, id: string): string {
    if frames == [] then ""
    else
      var before := frames[..|frames| - 1];
      JsonIn(before, id)
      + (match frames[|frames| - 1]
         case JsonDelta(i, x) => if Of(Opened(before, i), id) then x else ""
         case _ => "")
  }

  predicate Of(k: Option<Kind>, id: string) {
    k.Some? && k.value.ToolUse? && k.value.id == id
  }

  function SaidText(p: Piece): string {
    if p.Said? then p.text else ""
  }

  function ThoughtText(p: Piece): string {
    if p.Thought? then p.text else ""
  }

  function ArgsText(id: string): Piece -> string {
    (p: Piece) => if p.Args? && p.id == id then p.json else ""
  }

  lemma {:induction false} OpenedHere(frames: seq<Frame>)
    requires Parse(frames).Inside?
    ensures Opened(frames, Parse(frames).index) == Some(Parse(frames).kind)
  {
    if frames != [] && !frames[|frames| - 1].BlockStart? {
      OpenedHere(frames[..|frames| - 1]);
    }
  }

  // The piece a frame adds to a summary, if any.
  function Uttered(s: Summary, f: Frame): seq<Piece> {
    match f
    case ThinkingDelta(_, x) => [Thought(x)]
    case TextDelta(_, x) => [Said(x)]
    case JsonDelta(_, x) =>
      if s.state.Inside? && s.state.kind.ToolUse? then [Args(s.state.kind.id, s.state.kind.name, x)] else []
    case _ => []
  }

  lemma ReadOne(s: Summary, f: Frame, says: Piece -> string, x: string)
    requires x == if Uttered(s, f) == [] then "" else says(Uttered(s, f)[0])
    ensures Spell(Advance(s, f).pieces, says) == Spell(s.pieces, says) + x
  {
    if Uttered(s, f) != [] {
      SpellMore(s.pieces, Uttered(s, f)[0], says);
    }
  }

  /** The summary of a stream says what its deltas say; of a well-formed one, also under which ids. */
  lemma {:induction false} ReadText(frames: seq<Frame>)
    ensures Spell(Summarize(frames).pieces, SaidText) == Spell(frames, DeltaText)
  {
    if frames != [] {
      ReadText(frames[..|frames| - 1]);
      ReadOne(Summarize(frames[..|frames| - 1]), frames[|frames| - 1], SaidText, DeltaText(frames[|frames| - 1]));
    }
  }

  lemma {:induction false} ReadThinking(frames: seq<Frame>)
    ensures Spell(Summarize(frames).pieces, ThoughtText) == Spell(frames, DeltaThinking)
  {
    if frames != [] {
      ReadThinking(frames[..|frames| - 1]);
      ReadOne(Summarize(frames[..|frames| - 1]), frames[|frames| - 1], ThoughtText, DeltaThinking(frames[|frames| - 1]));
    }
  }

  lemma {:induction false} ReadJson(frames: seq<Frame>, id: string)
    requires Parse(frames) != Bad
    ensures Spell(Summarize(frames).pieces, ArgsText(id)) == JsonIn(frames, id)
  {
    if frames != [] {
      var before, f := frames[..|frames| - 1], frames[|frames| - 1];
      ReadJson(before, id);
      if f.JsonDelta? {
        OpenedHere(before);
      }
      ReadOne(Summarize(before), f, ArgsText(id), if f.JsonDelta? && Of(Opened(before, f.index), id) then f.json else "");
    }
  }

  // ---------------------------------------------------------------- what the events say

  // An unnamed partial frame ends the handling of its event.
  predicate CutShort(ev: Event) {
    ev.partial.Some? && !ev.partial.value.skipped && ev.partial.value.name == ""
  }

  // Text, a tool call, or the beginning of one.
  predicate Speaks(ev: Event) {
    || ev.text != ""
    || (ev.partial.Some? && !ev.partial.value.skipped)
    || (ev.tool.Some? && ev.tool.value.Forward?)
  }

  predicate Ponders(ev: Event) {
    ev.thinking.Some? && ev.thinking.value.text != ""
  }

  function EventText(ev: Event): string {
    ev.text
  }

  function EventThinking(ev: Event): string {
    match ev.thinking case Some(th) => th.text case None => ""
  }

  /** The arguments of a call that is forwarded under the id. */
  function EventArgs(id: string): Event -> string {
    (ev: Event) =>
      if !CutShort(ev) && ev.tool.Some? && ev.tool.value.Forward? && ev.tool.value.id == id then ev.tool.value.args else ""
  }

  /** The upstream thinks before, or in, the first event that speaks. */
  predicate PondersFirst(evs: seq<Event>) {
    exists i :: 0 <= i < |evs| && Ponders(evs[i]) && forall j :: 0 <= j < i ==> !Speaks(evs[j])
  }

  predicate AnySpeaks(evs: seq<Event>) {
    exists i :: 0 <= i < |evs| && Speaks(evs[i])
  }

  predicate AnyPonders(evs: seq<Event>) {
    exists i :: 0 <= i < |evs| && Ponders(evs[i])
  }

  /** The placeholder is due: thinking was asked for, outside the two special modes, and is not left out, and none came
      before the turn spoke or, if it is done, ended. */
  predicate Due(m: Mode, evs: seq<Event>, done: bool) {
    && m.thinkingRequested && !m.wantJson && !m.knowledge && !m.omitted
    && !PondersFirst(evs) && (done || AnySpeaks(evs))
  }

  function Placeholder(m: Mode, texts: Texts, evs: seq<Event>, done: bool): seq<Piece> {
    if Due(m, evs, done) then [Thought(texts.placeholder)] else []
  }

  function CallWords(ev: Event): seq<Piece> {
    if CutShort(ev) then []
    else
      match ev.tool
      case Some(Forward(id, name, args)) => if args == "" then [] else [Args(id, name, args)]
      case _ => []
  }

  /** What one event says, the placeholder aside: in the special modes only its tool call. */
  function EventWords(m: Mode, ev: Event): seq<Piece> {
    var special := m.wantJson || m.knowledge;
    (if special || !Ponders(ev) then [] else [Thought(ev.thinking.value.text)])
    + (if special || ev.text == "" then [] else [Said(ev.text)])
    + CallWords(ev)
  }

  function Words(m: Mode, evs: seq<Event>): seq<Piece> {
    if evs == [] then [] else Words(m, evs[..|evs| - 1]) + EventWords(m, evs[|evs| - 1])
  }

  lemma {:induction false} PondersMore(before: seq<Event>, ev: Event)
    ensures AnySpeaks(before + [ev]) <==> AnySpeaks(before) || Speaks(ev)
    ensures AnyPonders(before + [ev]) <==> AnyPonders(before) || Ponders(ev)
    ensures PondersFirst(before + [ev]) <==> PondersFirst(before) || (Ponders(ev) && !AnySpeaks(before))
    ensures PondersFirst(before) ==> AnyPonders(before)
  {
    var evs, n := before + [ev], |before|;
    assert evs[n] == ev && forall i :: 0 <= i < n ==> evs[i] == before[i];
    if i :| 0 <= i < n && Speaks(before[i]) {
      assert Speaks(evs[i]);
    }
    if i :| 0 <= i < n && Ponders(before[i]) {
      assert Ponders(evs[i]);
    }
    if i :| 0 <= i < n && Ponders(before[i]) && forall j :: 0 <= j < i ==> !Speaks(before[j]) {
      assert Ponders(evs[i]);
    }
  }

  // ---------------------------------------------------------------- every word is delivered

  // Whether the run has thought, or put in the placeholder.
  predicate Thoughtful(m: Mode, evs: seq<Event>) {
    m.Plain() && (AnyPonders(evs) || (m.thinkingRequested && AnySpeaks(evs)))
  }

  predicate Awaits(m: Mode, t: Telling) {
    m.NeedsThinking() && !t.saw
  }

  // A step that speaks puts in the placeholder if it is still awaited.
  ghost predicate Step(m: Mode, texts: Texts, t: Telling, u: Telling, speaks: bool, said: seq<Piece>) {
    && u.pieces == t.pieces + (if Awaits(m, t) && speaks && !m.omitted then [Thought(texts.placeholder)] else []) + said
    && u.saw == (t.saw || (m.NeedsThinking() && speaks))
  }

  lemma TextStep(m: Mode, texts: Texts, t: Telling, ev: Event)
    ensures Step(m, texts, t, TellText(m, texts, t, ev), ev.text != "", if m.Plain() && ev.text != "" then [Said(ev.text)] else [])
  {
  }

  lemma PartialStep(m: Mode, texts: Texts, t: Telling, ev: Event)
    ensures Step(m, texts, t, TellPartial(m, texts, t, ev), ev.partial.Some? && !ev.partial.value.skipped, [])
  {
  }

  lemma ToolStep(m: Mode, texts: Texts, t: Telling, ev: Event)
    ensures Step(m, texts, t, TellTool(m, texts, t, ev), !CutShort(ev) && ev.tool.Some? && ev.tool.value.Forward?, CallWords(ev))
  {
  }

  lemma TwoSteps(m: Mode, texts: Texts, t: Telling, u: Telling, v: Telling, a: bool, b: bool, x: seq<Piece>, y: seq<Piece>)
    requires Step(m, texts, t, u, a, x) && Step(m, texts, u, v, b, y) && (x != [] ==> a)
    ensures Step(m, texts, t, v, a || b, x + y)
  {
  }

  // An event that has thought already goes on in three steps.
  lemma Steps(m: Mode, texts: Texts, t: Telling, ev: Event)
    ensures Step(m, texts, t, TellUses(m, texts, TellText(m, texts, t, ev), ev), Speaks(ev),
                 (if m.Plain() && ev.text != "" then [Said(ev.text)] else []) + CallWords(ev))
  {
    var t2 := TellText(m, texts, t, ev);
    var t3 := TellPartial(m, texts, t2, ev);
    var said := if m.Plain() && ev.text != "" then [Said(ev.text)] else [];
    var live := ev.partial.Some? && !ev.partial.value.skipped;
    TextStep(m, texts, t, ev);
    PartialStep(m, texts, t2, ev);
    ToolStep(m, texts, t3, ev);
    TwoSteps(m, texts, t, t2, t3, ev.text != "", live, said, []);
    assert said + [] == said;
    TwoSteps(m, texts, t, t3, TellTool(m, texts, t3, ev), ev.text != "" || live,
             !CutShort(ev) && ev.tool.Some? && ev.tool.value.Forward?, said, CallWords(ev));
  }

  lemma ThinkingTold(m: Mode, t: Telling, ev: Event)
    ensures var u, thinks := TellThinking(m, t, ev), m.Plain() && Ponders(ev);
            u.pieces == t.pieces + (if thinks then [Thought(ev.thinking.value.text)] else []) && u.saw == (t.saw || thinks)
  {
  }

  // One event's placeholder, if there was no thinking up to and in it, and its words.
  lemma EventTold(m: Mode, texts: Texts, t: Telling, ev: Event)
    ensures var u := Tell(m, texts, t, ev);
            && u.pieces == t.pieces + (if Awaits(m, t) && Speaks(ev) && !Ponders(ev) && !m.omitted then [Thought(texts.placeholder)] else [])
                           + EventWords(m, ev)
            && u.saw == (t.saw || (m.Plain() && Ponders(ev)) || (m.NeedsThinking() && Speaks(ev)))
  {
    ThinkingTold(m, t, ev);
    Steps(m, texts, TellThinking(m, t, ev), ev);
  }

  // Thinking and speaking, one event more.
  lemma {:induction false} DueMore(m: Mode, before: seq<Event>, ev: Event)
    ensures Thoughtful(m, before + [ev])
            <==> Thoughtful(m, before) || (m.Plain() && Ponders(ev)) || (m.NeedsThinking() && Speaks(ev))
    ensures Due(m, before + [ev], false)
            <==> Due(m, before, false)
                 || (m.NeedsThinking() && !Thoughtful(m, before) && Speaks(ev) && !Ponders(ev) && !m.omitted)
    ensures Due(m, before, false) ==> Thoughtful(m, before)
  {
    PondersMore(before, ev);
  }

  lemma {:induction false} Wordless(m: Mode, evs: seq<Event>)
    requires m.NeedsThinking() && !Thoughtful(m, evs)
    ensures Words(m, evs) == []
  {
    if evs != [] {
      var before, ev := evs[..|evs| - 1], evs[|evs| - 1];
      assert evs == before + [ev];
      PondersMore(before, ev);
      Wordless(m, before);
    }
  }

  // The placeholder only ever comes first.
  lemma PutFirst(p: seq<Piece>, q: seq<Piece>, w: seq<Piece>, x: seq<Piece>)
    requires q == [] || (p == [] && w == [])
    ensures p + w + q + x == (p + q) + (w + x)
  {
  }

  /** What is told of the events: the placeholder before anything else, then every word of every event. */
  lemma {:induction false} ToldWords(m: Mode, texts: Texts, evs: seq<Event>)
    ensures Told(m, texts, evs).pieces == Placeholder(m, texts, evs, false) + Words(m, evs)
    ensures Told(m, texts, evs).saw == Thoughtful(m, evs)
  {
    if evs != [] {
      var before, ev := evs[..|evs| - 1], evs[|evs| - 1];
      var t := Told(m, texts, before);
      assert evs == before + [ev];
      ToldWords(m, texts, before);
      EventTold(m, texts, t, ev);
      DueMore(m, before, ev);
      var now := if Awaits(m, t) && Speaks(ev) && !Ponders(ev) && !m.omitted then [Thought(texts.placeholder)] else [];
      if now != [] {
        Wordless(m, before);
      }
      PutFirst(Placeholder(m, texts, before, false), now, Words(m, before), EventWords(m, ev));
      assert Placeholder(m, texts, evs, false) == Placeholder(m, texts, before, false) + now;
    }
  }

  // Either there is thinking, or the placeholder, or neither is wanted.
  lemma {:induction false} WholeTold(m: Mode, texts: Texts, evs: seq<Event>)
    ensures WithPlaceholder(m, texts, Told(m, texts, evs)).pieces == Placeholder(m, texts, evs, true) + Words(m, evs)
  {
    ToldWords(m, texts, evs);
    if m.NeedsThinking() && !Thoughtful(m, evs) {
      Wordless(m, evs);
    } else if i :| 0 <= i < |evs| && Ponders(evs[i]) {
      assert AnySpeaks(evs) || PondersFirst(evs);
    }
  }

  /** A message says, however it ended, the placeholder if it is due, every word of every event, and if it is
      complete what the closing adds. */
  lemma {:induction false} AllWords(m: Mode, texts: Texts, a: Attempt, ending: Ending, s: Summary)
    requires EndsAs(m, texts, a, ending, s)
    ensures s.pieces
            == Placeholder(m, texts, a.events, ending == Completed) + Words(m, a.events)
               + (if ending == Completed then Closing(m, texts, a.events) else [])
  {
    ToldWords(m, texts, a.events);
    WholeTold(m, texts, a.events);
  }

  lemma EventBy(m: Mode, ev: Event, says: Piece -> string, x: string, y: string, z: string)
    requires x == if m.Plain() && Ponders(ev) then says(Thought(ev.thinking.value.text)) else ""
    requires y == if m.Plain() && ev.text != "" then says(Said(ev.text)) else ""
    requires z == if CallWords(ev) == [] then "" else says(CallWords(ev)[0])
    ensures Spell(EventWords(m, ev), says) == x + y + z
  {
    var thought := if !m.Plain() || !Ponders(ev) then [] else [Thought(ev.thinking.value.text)];
    var said := if !m.Plain() || ev.text == "" then [] else [Said(ev.text)];
    SpelledBy(thought, said, CallWords(ev), says);
    assert EventWords(m, ev) == thought + said + CallWords(ev);
  }

  // What one event says, by kind.
  lemma EventSpelled(m: Mode, ev: Event, id: string)
    ensures var ws := EventWords(m, ev);
            && Spell(ws, SaidText) == (if m.Plain() then EventText(ev) else "")
            && Spell(ws, ThoughtText) == (if m.Plain() then EventThinking(ev) else "")
            && Spell(ws, ArgsText(id)) == EventArgs(id)(ev)
  {
    EventBy(m, ev, SaidText, "", if m.Plain() then EventText(ev) else "", "");
    EventBy(m, ev, ThoughtText, if m.Plain() then EventThinking(ev) else "", "", "");
    EventBy(m, ev, ArgsText(id), "", "", EventArgs(id)(ev));
    Bare(if m.Plain() then EventText(ev) else "");
    Bare(if m.Plain() then EventThinking(ev) else "");
    Bare(EventArgs(id)(ev));
  }

  // At most one piece each.
  lemma SpelledBy(a: seq<Piece>, b: seq<Piece>, c: seq<Piece>, says: Piece -> string)
    requires |a| <= 1 && |b| <= 1 && |c| <= 1
    ensures Spell(a + b + c, says)
            == (if a == [] then "" else says(a[0])) + (if b == [] then "" else says(b[0])) + (if c == [] then "" else says(c[0]))
  {
    SpellThree(a, b, c, says);
    if a != [] { SpellOne(a[0], says); }
    if b != [] { SpellOne(b[0], says); }
    if c != [] { SpellOne(c[0], says); }
  }

  lemma {:induction false} WordsSpelled(m: Mode, evs: seq<Event>, id: string)
    ensures Spell(Words(m, evs), SaidText) == if m.Plain() then Spell(evs, EventText) else ""
    ensures Spell(Words(m, evs), ThoughtText) == if m.Plain() then Spell(evs, EventThinking) else ""
    ensures Spell(Words(m, evs), ArgsText(id)) == Spell(evs, EventArgs(id))
  {
    if evs != [] {
      var before, ev := evs[..|evs| - 1], evs[|evs| - 1];
      WordsSpelled(m, before, id);
      EventSpelled(m, ev, id);
      SpellConcat(Words(m, before), EventWords(m, ev), SaidText);
      SpellConcat(Words(m, before), EventWords(m, ev), ThoughtText);
      SpellConcat(Words(m, before), EventWords(m, ev), ArgsText(id));
    }
  }

  // The upstream text, and the summaries of the calls not forwarded, as they are collected.
  lemma {:induction false} SpokenAll(evs: seq<Event>)
    ensures Spoken(evs) == Spell(evs, EventText)
  {
    if evs != [] {
      SpokenAll(evs[..|evs| - 1]);
    }
  }

  /** The summaries collected for the note: of each call not forwarded that has one, in order. */
  lemma {:induction false} BlockedAll(a: seq<Event>, b: seq<Event>)
    ensures Blocked(a + b) == Blocked(a) + Blocked(b)
    ensures forall ev :: Blocked([ev])
              == if !CutShort(ev) && ev.tool.Some? && ev.tool.value.Dropped? && ev.tool.value.summary != ""
                 then [ev.tool.value.summary] else []
    ensures Blocked([]) == []
  {
    forall ev: Event
      ensures Blocked([ev])
              == if !CutShort(ev) && ev.tool.Some? && ev.tool.value.Dropped? && ev.tool.value.summary != ""
                 then [ev.tool.value.summary] else []
    {
      assert [ev][..0] == [];
    }
    if b == [] {
      assert a + b == a;
    } else {
      assert (a + b)[..|a + b| - 1] == a + b[..|b| - 1];
      BlockedAll(a, b[..|b| - 1]);
    }
  }

  // The event names a tool, by its partial frame or by the call itself.
  predicate Tools(ev: Event) {
    || (ev.partial.Some? && !ev.partial.value.skipped && ev.partial.value.name != "")
    || (!CutShort(ev) && ev.tool.Some? && ev.tool.value.Forward?)
  }

  predicate AnyTools(evs: seq<Event>) {
    exists i :: 0 <= i < |evs| && Tools(evs[i])
  }

  /** The turn shows a block before it closes. */
  predicate Shows(m: Mode, evs: seq<Event>) {
    || AnyTools(evs)
    || (!m.wantJson && !m.knowledge && (Spell(evs, EventText) != "" || AnyPonders(evs) || (m.thinkingRequested && AnySpeaks(evs))))
  }

  function Prepared(m: Mode, texts: Texts, evs: seq<Event>): string {
    var all := Spell(evs, EventText);
    if m.wantJson then (if texts.fill(all) == "" then "{}" else texts.fill(all))
    else if m.knowledge && all != "" then (if texts.extract(all) == "" then "I don't know." else texts.extract(all))
    else if !Shows(m, evs) && (!m.thinkingRequested || m.knowledge) then "I don't know."
    else ""
  }

  /** The text that closes a complete message: what the mode prepares, and the note on calls not forwarded. */
  function ClosingWords(m: Mode, texts: Texts, evs: seq<Event>): string {
    Prepared(m, texts, evs) + (if texts.note(Blocked(evs)) == "" then "" else "\n\n" + texts.note(Blocked(evs)))
  }

  lemma {:induction false} Silent(evs: seq<Event>)
    ensures Spell(evs, EventText) != "" <==> exists i :: 0 <= i < |evs| && evs[i].text != ""
  {
    if evs != [] {
      var before, n := evs[..|evs| - 1], |evs| - 1;
      Silent(before);
      if i :| 0 <= i < n && before[i].text != "" {
        assert evs[i].text != "";
      }
      if i :| 0 <= i < |evs| && evs[i].text != "" {
        assert i == n || before[i].text != "";
      }
    }
  }

  lemma {:induction false} ShowsExact(m: Mode, evs: seq<Event>)
    ensures Shows(m, evs) <==> AnyVisible(m, evs)
    ensures AnyTools(evs) <==> MentionsTool(evs)
  {
    Silent(evs);
    forall i | 0 <= i < |evs|
      ensures Tools(evs[i]) <==> NamedPartial(evs[i]) || Forwards(evs[i])
      ensures Visible(m, evs[i])
              <==> Tools(evs[i])
                   || (m.Plain() && (evs[i].text != "" || Ponders(evs[i]) || (m.thinkingRequested && Speaks(evs[i]))))
    {
    }
  }

  // Two lists of at most one text each.
  lemma TextsOnly(a: seq<Piece>, b: seq<Piece>, says: Piece -> string)
    requires |a| <= 1 && |b| <= 1
    ensures Spell(a + b, says) == (if a == [] then "" else says(a[0])) + (if b == [] then "" else says(b[0]))
  {
    SpelledBy(a, b, [], says);
    assert a + b + [] == a + b;
    Bare((if a == [] then "" else says(a[0])) + (if b == [] then "" else says(b[0])));
  }

  lemma {:induction false} PreparedText(m: Mode, texts: Texts, evs: seq<Event>)
    ensures |ClosingText(m, texts, evs)| <= 1
    ensures Prepared(m, texts, evs)
            == if ClosingText(m, texts, evs) == [] then "" else SaidText(ClosingText(m, texts, evs)[0])
  {
    SpokenAll(evs);
    ShowsExact(m, evs);
  }

  lemma {:induction false} ClosingSpelled(m: Mode, texts: Texts, evs: seq<Event>)
    ensures Spell(Closing(m, texts, evs), SaidText) == ClosingWords(m, texts, evs)
  {
    PreparedText(m, texts, evs);
    TextsOnly(ClosingText(m, texts, evs), Note(texts, Blocked(evs)), SaidText);
  }

  lemma {:induction false} ClosingOnlyText(m: Mode, texts: Texts, evs: seq<Event>, says: Piece -> string)
    requires forall x :: says(Said(x)) == ""
    ensures Spell(Closing(m, texts, evs), says) == ""
  {
    TextsOnly(ClosingText(m, texts, evs), Note(texts, Blocked(evs)), says);
    Bare("");
  }

  // The three parts of a message, as they are spelled.
  lemma {:induction false} Spelled(m: Mode, texts: Texts, a: Attempt, ending: Ending, s: Summary, says: Piece -> string,
                x: string, y: string, z: string)
    requires EndsAs(m, texts, a, ending, s)
    requires x == if Due(m, a.events, ending == Completed) then says(Thought(texts.placeholder)) else ""
    requires y == Spell(Words(m, a.events), says)
    requires z == if ending == Completed then Spell(Closing(m, texts, a.events), says) else ""
    ensures Spell(s.pieces, says) == x + y + z
  {
    AllWords(m, texts, a, ending, s);
    SpellThree(Placeholder(m, texts, a.events, ending == Completed), Words(m, a.events),
             if ending == Completed then Closing(m, texts, a.events) else [], says);
    SpellOne(Thought(texts.placeholder), says);
  }

  // No message is malformed.
  lemma {:induction false} WellFormed(m: Mode, texts: Texts, a: Attempt, ending: Ending, frames: seq<Frame>)
    requires EndsAs(m, texts, a, ending, Summarize(frames))
    ensures Parse(frames) != Bad
  {
  }

  /** However a message ended: under each id its partial json is the arguments of the calls forwarded under it. */
  lemma {:induction false} ArgumentsDelivered(m: Mode, texts: Texts, a: Attempt, ending: Ending, frames: seq<Frame>, id: string)
    requires EndsAs(m, texts, a, ending, Summarize(frames))
    ensures JsonIn(frames, id) == Spell(a.events, EventArgs(id))
  {
    WellFormed(m, texts, a, ending, frames);
    ReadJson(frames, id);
    WordsSpelled(m, a.events, id);
    ClosingOnlyText(m, texts, a.events, ArgsText(id));
    Spelled(m, texts, a, ending, Summarize(frames), ArgsText(id), "", Spell(a.events, EventArgs(id)), "");
    Bare(Spell(a.events, EventArgs(id)));
  }

  /** Its thinking is the upstream thinking, after the placeholder if that is due, and none in the special modes. */
  lemma {:induction false} ThinkingDelivered(m: Mode, texts: Texts, a: Attempt, ending: Ending, frames: seq<Frame>)
    requires EndsAs(m, texts, a, ending, Summarize(frames))
    ensures Spell(frames, DeltaThinking)
            == (if Due(m, a.events, ending == Completed) then texts.placeholder else "")
               + (if m.wantJson || m.knowledge then "" else Spell(a.events, EventThinking))
  {
    var x := if Due(m, a.events, ending == Completed) then texts.placeholder else "";
    var y := if m.wantJson || m.knowledge then "" else Spell(a.events, EventThinking);
    ReadThinking(frames);
    WordsSpelled(m, a.events, "");
    ClosingOnlyText(m, texts, a.events, ThoughtText);
    Spelled(m, texts, a, ending, Summarize(frames), ThoughtText, x, y, "");
    Bare(x + y);
  }

  /** Its text is the upstream text and, in a complete message, what closes it; in the special modes only the latter. */
  lemma {:induction false} TextDelivered(m: Mode, texts: Texts, a: Attempt, ending: Ending, frames: seq<Frame>)
    requires EndsAs(m, texts, a, ending, Summarize(frames))
    ensures Spell(frames, DeltaText)
            == (if m.wantJson || m.knowledge then "" else Spell(a.events, EventText))
               + (if ending == Completed then ClosingWords(m, texts, a.events) else "")
  {
    var y := if m.wantJson || m.knowledge then "" else Spell(a.events, EventText);
    var z := if ending == Completed then ClosingWords(m, texts, a.events) else "";
    ReadText(frames);
    WordsSpelled(m, a.events, "");
    ClosingSpelled(m, texts, a.events);
    Spelled(m, texts, a, ending, Summarize(frames), SaidText, "", y, z);
    Bare(y);
  }

  // ---------------------------------------------------------------- the blocks of a message

  // What kind of block each start of a stream announces.
  function StartedIn(frames: seq<Frame>): seq<Kind> {
    if frames == [] then []
    else StartedIn(frames[..|frames| - 1]) + (match frames[|frames| - 1] case BlockStart(_, k) => [k] case _ => [])
  }

  lemma {:induction false} BlocksIn(frames: seq<Frame>)
    ensures Summarize(frames).blocks == StartedIn(frames)
  {
    if frames != [] {
      BlocksIn(frames[..|frames| - 1]);
    }
  }

  function LastTouch(touches: seq<Option<Kind>>): Option<Kind> {
    if touches == [] then None else touches[|touches| - 1]
  }

  // The kinds of block an event turns to, in order; None where an open block is stopped and no other follows.
  function ThinkingTouches(m: Mode, last: Option<Kind>, ev: Event): seq<Option<Kind>> {
    if m.wantJson || m.knowledge || ev.thinking.None? then []
    else
      var a := if Ponders(ev) then [Some(Kind.Thinking)] else [];
      a + (if ev.thinking.value.isLast && (Ponders(ev) || last == Some(Kind.Thinking)) then [None] else [])
  }

  function PlaceholderTouches(m: Mode): seq<Option<Kind>> {
    if m.omitted then [Some(Kind.Thinking)] else [Some(Kind.Thinking), None]
  }

  function SpokenTouches(m: Mode, ev: Event): seq<Option<Kind>> {
    if ev.text != "" && !m.wantJson && !m.knowledge then [Some(Text)] else []
  }

  function NamedTouches(ev: Event): seq<Option<Kind>> {
    if ev.partial.Some? && !ev.partial.value.skipped && ev.partial.value.name != ""
    then [Some(ToolUse(ev.partial.value.id, ev.partial.value.name))] else []
  }

  function CallTouches(ev: Event): seq<Option<Kind>> {
    if !CutShort(ev) && ev.tool.Some? && ev.tool.value.Forward? then [Some(ToolUse(ev.tool.value.id, ev.tool.value.name))] else []
  }

  // Of an event; the placeholder comes with the first that speaks.
  function EventTouches(m: Mode, awaited: bool, last: Option<Kind>, ev: Event): seq<Option<Kind>> {
    ThinkingTouches(m, last, ev)
    + (if awaited && !Ponders(ev) && Speaks(ev) then PlaceholderTouches(m) else [])
    + (SpokenTouches(m, ev) + NamedTouches(ev) + CallTouches(ev))
  }

  // The turn must think and has not.
  predicate Awaited(m: Mode, evs: seq<Event>) {
    m.NeedsThinking() && !Thoughtful(m, evs)
  }

  /** The same of a list of events. */
  function Touches(m: Mode, evs: seq<Event>): seq<Option<Kind>> {
    if evs == [] then []
    else
      var before := evs[..|evs| - 1];
      var touches := Touches(m, before);
      touches + EventTouches(m, Awaited(m, before), LastTouch(touches), evs[|evs| - 1])
  }

  /** The blocks of a run: a touch starts one unless its kind is that of the last touch. */
  function Started(touches: seq<Option<Kind>>): seq<Kind> {
    if touches == [] then []
    else
      var before, t := touches[..|touches| - 1], LastTouch(touches);
      Started(before) + (if t.Some? && LastTouch(before) != t then [t.value] else [])
  }

  lemma {:induction false} StartedMore(touches: seq<Option<Kind>>, t: Option<Kind>)
    ensures Started(touches + [t]) == Started(touches) + (if t.Some? && LastTouch(touches) != t then [t.value] else [])
    ensures LastTouch(touches + [t]) == t
  {
    assert (touches + [t])[..|touches|] == touches;
  }

  // The telling knows the blocks.
  ghost predicate Knows(t: Telling, touches: seq<Option<Kind>>) {
    t.blocks == Started(touches) && t.open == LastTouch(touches)
  }

  lemma {:induction false} KnowsTurn(t: Telling, touches: seq<Option<Kind>>, k: Kind, u: Telling)
    requires Knows(t, touches) && u.blocks == Turn(t, k).blocks && u.open == Some(k)
    ensures Knows(u, touches + [Some(k)])
  {
    StartedMore(touches, Some(k));
  }

  lemma {:induction false} KnowsStop(t: Telling, touches: seq<Option<Kind>>, u: Telling)
    requires Knows(t, touches) && u.blocks == t.blocks && u.open.None?
    ensures Knows(u, touches + [None])
  {
    StartedMore(touches, None);
  }

  // One event's touches, step by step.
  lemma KnowsThinking(m: Mode, t: Telling, ev: Event, touches: seq<Option<Kind>>)
    requires Knows(t, touches)
    ensures Knows(TellThinking(m, t, ev), touches + ThinkingTouches(m, LastTouch(touches), ev))
  {
    assert touches + [] == touches;
    if m.Plain() && ev.thinking.Some? {
      var th, u, more := ev.thinking.value, t, touches;
      if th.text != "" {
        u := Turn(t.(pieces := t.pieces + [Thought(th.text)], saw := true), Kind.Thinking);
        more := touches + [Some(Kind.Thinking)];
        KnowsTurn(t, touches, Kind.Thinking, u);
      }
      if th.isLast && u.open == Some(Kind.Thinking) {
        KnowsStop(u, more, u.(open := None));
        assert more + [None] == touches + ThinkingTouches(m, LastTouch(touches), ev);
      } else {
        assert more == touches + ThinkingTouches(m, LastTouch(touches), ev);
      }
    }
  }

  // The placeholder, at the first of a turn's steps that speaks.
  function Placing(m: Mode, t: Telling, speaks: bool): seq<Option<Kind>> {
    if Awaits(m, t) && speaks then PlaceholderTouches(m) else []
  }

  lemma KnowsPlaceholder(m: Mode, texts: Texts, t: Telling, touches: seq<Option<Kind>>)
    requires Knows(t, touches)
    ensures Knows(WithPlaceholder(m, texts, t), touches + Placing(m, t, true))
  {
    assert touches + [] == touches;
    if Awaits(m, t) {
      var u := Turn(t.(saw := true), Kind.Thinking);
      KnowsTurn(t, touches, Kind.Thinking, u);
      if !m.omitted {
        var v := WithPlaceholder(m, texts, t);
        KnowsStop(u, touches + [Some(Kind.Thinking)], v);
        assert touches + [Some(Kind.Thinking)] + [None] == touches + Placing(m, t, true);
      }
    }
  }

  // A step that speaks: the placeholder if it is still awaited, then a block of its own, or none.
  lemma KnowsStep(m: Mode, texts: Texts, t: Telling, touches: seq<Option<Kind>>, speaks: bool, k: seq<Option<Kind>>, u: Telling)
    requires Knows(t, touches) && (k != [] ==> speaks && |k| == 1 && k[0].Some?)
    requires var v := if speaks then WithPlaceholder(m, texts, t) else t;
             if k != [] then u.blocks == Turn(v, k[0].value).blocks && u.open == k[0] else u.blocks == v.blocks && u.open == v.open
    ensures Knows(u, touches + Placing(m, t, speaks) + k)
  {
    var more := touches + Placing(m, t, speaks);
    if speaks {
      KnowsPlaceholder(m, texts, t, touches);
    } else {
      assert more == touches;
    }
    if k != [] {
      KnowsTurn(if speaks then WithPlaceholder(m, texts, t) else t, more, k[0].value, u);
      assert k == [Some(k[0].value)];
    } else {
      assert more + [] == more;
    }
  }

  // Two steps are one.
  lemma Merge(m: Mode, t: Telling, u: Telling, touches: seq<Option<Kind>>, a: bool, b: bool, x: seq<Option<Kind>>, y: seq<Option<Kind>>)
    requires Awaits(m, u) <==> Awaits(m, t) && !a
    requires x != [] ==> a
    ensures touches + Placing(m, t, a) + x + Placing(m, u, b) + y == touches + Placing(m, t, a || b) + (x + y)
  {
  }

  // The first two of an event's three steps that speak.
  lemma KnowsSpeech(m: Mode, texts: Texts, t: Telling, ev: Event, touches: seq<Option<Kind>>)
    requires Knows(t, touches)
    ensures Knows(TellPartial(m, texts, TellText(m, texts, t, ev), ev),
                  touches + Placing(m, t, ev.text != "" || LivePartial(ev)) + (SpokenTouches(m, ev) + NamedTouches(ev)))
  {
    var u := TellText(m, texts, t, ev);
    var more := touches + Placing(m, t, ev.text != "") + SpokenTouches(m, ev);
    TextStep(m, texts, t, ev);
    KnowsStep(m, texts, t, touches, ev.text != "", SpokenTouches(m, ev), u);
    KnowsStep(m, texts, u, more, LivePartial(ev), NamedTouches(ev), TellPartial(m, texts, u, ev));
    Merge(m, t, u, touches, ev.text != "", LivePartial(ev), SpokenTouches(m, ev), NamedTouches(ev));
  }

  lemma KnowsCall(m: Mode, texts: Texts, t: Telling, ev: Event, touches: seq<Option<Kind>>)
    requires Knows(t, touches)
    ensures Knows(TellTool(m, texts, t, ev), touches + Placing(m, t, Forwards(ev)) + CallTouches(ev))
  {
    KnowsStep(m, texts, t, touches, Forwards(ev), CallTouches(ev), TellTool(m, texts, t, ev));
  }

  // Speech takes the placeholder.
  lemma AwaitsAfter(m: Mode, texts: Texts, t: Telling, ev: Event)
    ensures Awaits(m, TellPartial(m, texts, TellText(m, texts, t, ev), ev)) <==> Awaits(m, t) && !(ev.text != "" || LivePartial(ev))
  {
    TextStep(m, texts, t, ev);
    PartialStep(m, texts, TellText(m, texts, t, ev), ev);
  }

  lemma KnowsUses(m: Mode, texts: Texts, t: Telling, ev: Event, touches: seq<Option<Kind>>)
    requires Knows(t, touches)
    ensures Knows(TellUses(m, texts, TellText(m, texts, t, ev), ev),
                  touches + Placing(m, t, Speaks(ev)) + (SpokenTouches(m, ev) + NamedTouches(ev) + CallTouches(ev)))
  {
    var u := TellPartial(m, texts, TellText(m, texts, t, ev), ev);
    var speech := SpokenTouches(m, ev) + NamedTouches(ev);
    var spoken := ev.text != "" || LivePartial(ev);
    AwaitsAfter(m, texts, t, ev);
    KnowsSpeech(m, texts, t, ev, touches);
    KnowsCall(m, texts, u, ev, touches + Placing(m, t, spoken) + speech);
    assert speech != [] ==> spoken;
    assert Speaks(ev) <==> spoken || Forwards(ev);
    Merge(m, t, u, touches, spoken, Forwards(ev), speech, CallTouches(ev));
  }

  lemma {:induction false} KnowsEvent(m: Mode, texts: Texts, before: seq<Event>, ev: Event, touches: seq<Option<Kind>>)
    requires Knows(Told(m, texts, before), touches)
    ensures Knows(Tell(m, texts, Told(m, texts, before), ev), touches + EventTouches(m, Awaited(m, before), LastTouch(touches), ev))
  {
    var t := Told(m, texts, before);
    var u := TellThinking(m, t, ev);
    var thinking, speech := ThinkingTouches(m, LastTouch(touches), ev), SpokenTouches(m, ev) + NamedTouches(ev) + CallTouches(ev);
    ToldWords(m, texts, before);
    KnowsThinking(m, t, ev, touches);
    ThinkingTold(m, t, ev);
    KnowsUses(m, texts, u, ev, touches + thinking);
    Regroup(touches, thinking, Placing(m, u, Speaks(ev)), speech);
  }

  lemma Regroup(s: seq<Option<Kind>>, a: seq<Option<Kind>>, b: seq<Option<Kind>>, c: seq<Option<Kind>>)
    ensures s + a + b + c == s + (a + b + c)
  {
  }

  /** The blocks told of are those the events' touches start. */
  lemma {:induction false} ToldBlocks(m: Mode, texts: Texts, evs: seq<Event>)
    ensures Knows(Told(m, texts, evs), Touches(m, evs))
  {
    if evs != [] {
      var before := evs[..|evs| - 1];
      ToldBlocks(m, texts, before);
      KnowsEvent(m, texts, before, evs[|evs| - 1], Touches(m, before));
    }
  }

  function Blocks(tools: seq<Kind>, id: string): nat {
    if tools == [] then 0
    else Blocks(tools[..|tools| - 1], id) + (if Of(Some(tools[|tools| - 1]), id) then 1 else 0)
  }

  predicate Mentioned(touches: seq<Option<Kind>>, id: string) {
    exists i :: 0 <= i < |touches| && Of(touches[i], id)
  }

  /** Between two touches of the call nothing else is touched, nor the call under another name. */
  predicate Unbroken(touches: seq<Option<Kind>>, id: string) {
    forall i, j, l :: 0 <= i <= j <= l < |touches| && Of(touches[i], id) && Of(touches[l], id) ==> touches[j] == touches[i]
  }

  lemma {:induction false} BlocksMore(tools: seq<Kind>, k: Kind, id: string)
    ensures Blocks(tools + [k], id) == Blocks(tools, id) + (if Of(Some(k), id) then 1 else 0)
  {
    assert (tools + [k])[..|tools|] == tools;
  }

  lemma MentionedMore(before: seq<Option<Kind>>, t: Option<Kind>, id: string)
    ensures Mentioned(before + [t], id) <==> Mentioned(before, id) || Of(t, id)
    ensures Of(LastTouch(before), id) ==> Mentioned(before, id)
  {
    var touches := before + [t];
    assert touches[|before|] == t;
    if i :| 0 <= i < |before| && Of(before[i], id) {
      assert touches[i] == before[i];
    }
  }

  lemma UnbrokenMore(before: seq<Option<Kind>>, t: Option<Kind>, id: string)
    ensures Unbroken(before + [t], id)
            <==> Unbroken(before, id) && (Of(t, id) && Mentioned(before, id) ==> LastTouch(before) == t)
  {
    var touches, n := before + [t], |before|;
    if Unbroken(touches, id) {
      forall i, j, l | 0 <= i <= j <= l < n && Of(before[i], id) && Of(before[l], id)
        ensures before[j] == before[i]
      {
        assert touches[i] == before[i] && touches[j] == before[j] && touches[l] == before[l];
        assert Of(touches[i], id) && Of(touches[l], id);
      }
      if Of(t, id) && Mentioned(before, id) {
        var i :| 0 <= i < n && Of(before[i], id);
        assert touches[i] == before[i] && touches[n] == t && touches[n - 1] == before[n - 1];
      }
    }
  }

  // One touch more.
  lemma {:induction false} BlocksStep(before: seq<Option<Kind>>, t: Option<Kind>, id: string)
    ensures Blocks(Started(before + [t]), id) == Blocks(Started(before), id) + (if Of(t, id) && LastTouch(before) != t then 1 else 0)
  {
    StartedMore(before, t);
    if t.Some? && LastTouch(before) != t {
      BlocksMore(Started(before), t.value, id);
    } else {
      assert Started(before) + [] == Started(before);
    }
  }

  /** A call has a single tool_use block exactly when nothing comes between its first touch and its last. */
  lemma {:induction false} BlockPerCall(touches: seq<Option<Kind>>, id: string)
    ensures Blocks(Started(touches), id) == 0 <==> !Mentioned(touches, id)
    ensures Blocks(Started(touches), id) == 1 <==> Mentioned(touches, id) && Unbroken(touches, id)
  {
    if touches != [] {
      var before, t := touches[..|touches| - 1], LastTouch(touches);
      assert touches == before + [t];
      BlockPerCall(before, id);
      BlocksStep(before, t, id);
      MentionedMore(before, t, id);
      UnbrokenMore(before, t, id);
    }
  }

  /** The blocks that close a complete message: the placeholder's, if the turn has not thought, and one for each
      closing text. */
  function ClosingBlocks(m: Mode, texts: Texts, evs: seq<Event>, ending: Ending): seq<Kind> {
    if ending != Completed then []
    else
      (if Awaited(m, evs) then [Kind.Thinking] else []) + TextBlocks(Closing(m, texts, evs))
  }

  // Those of a finished turn, before the closing texts.
  lemma {:induction false} WholeBlocks(m: Mode, texts: Texts, evs: seq<Event>)
    ensures WithPlaceholder(m, texts, Told(m, texts, evs)).blocks
            == Started(Touches(m, evs)) + (if Awaited(m, evs) then [Kind.Thinking] else [])
  {
    ToldBlocks(m, texts, evs);
    ToldWords(m, texts, evs);
    if m.NeedsThinking() && !Thoughtful(m, evs) {
      ThinkingFirst(m, evs);
    }
  }

  /** The blocks of a message, however it ended: those the events' touches start, and those that close it. */
  lemma {:induction false} MessageBlocks(m: Mode, texts: Texts, a: Attempt, ending: Ending, frames: seq<Frame>)
    requires EndsAs(m, texts, a, ending, Summarize(frames))
    ensures StartedIn(frames) == Started(Touches(m, a.events)) + ClosingBlocks(m, texts, a.events, ending)
  {
    BlocksIn(frames);
    if ending == Completed {
      WholeBlocks(m, texts, a.events);
      Chain(Started(Touches(m, a.events)), if Awaited(m, a.events) then [Kind.Thinking] else [],
            TextBlocks(Closing(m, texts, a.events)));
    } else {
      ToldBlocks(m, texts, a.events);
    }
  }

  lemma Chain(a: seq<Kind>, b: seq<Kind>, c: seq<Kind>)
    ensures a + b + c == a + (b + c)
  {
  }

  /** A turn that must think turns to a thinking block before any other, once it has thought or spoken. */
  lemma {:induction false} ThinkingFirst(m: Mode, evs: seq<Event>)
    requires m.NeedsThinking()
    ensures Touches(m, evs) == [] <==> !AnyPonders(evs) && !AnySpeaks(evs)
    ensures Touches(m, evs) != [] ==> Touches(m, evs)[0] == Some(Kind.Thinking)
  {
    if evs != [] {
      var before, ev := evs[..|evs| - 1], evs[|evs| - 1];
      assert evs == before + [ev];
      ThinkingFirst(m, before);
      PondersMore(before, ev);
    }
  }

  lemma {:induction false} StartedFirst(touches: seq<Option<Kind>>)
    requires touches != [] && touches[0].Some?
    ensures Started(touches) != [] && Started(touches)[0] == touches[0].value
  {
    if |touches| > 1 {
      StartedFirst(touches[..|touches| - 1]);
    }
  }

  /** The first block of a complete message that must think is a thinking block. */
  lemma {:induction false} ThinksFirst(m: Mode, texts: Texts, a: Attempt, frames: seq<Frame>)
    requires EndsAs(m, texts, a, Completed, Summarize(frames)) && m.NeedsThinking()
    ensures StartedIn(frames) != [] && StartedIn(frames)[0] == Kind.Thinking
  {
    MessageBlocks(m, texts, a, Completed, frames);
    ThinkingFirst(m, a.events);
    if Touches(m, a.events) != [] {
      StartedFirst(Touches(m, a.events));
    }
  }

  predicate ShowsTool(blocks: seq<Kind>) {
    exists i :: 0 <= i < |blocks| && blocks[i].ToolUse?
  }

  lemma {:induction false} ShowsMore(a: seq<Kind>, b: seq<Kind>)
    ensures ShowsTool(a + b) <==> ShowsTool(a) || ShowsTool(b)
  {
    if i :| 0 <= i < |a| && a[i].ToolUse? {
      assert (a + b)[i].ToolUse?;
    }
    if i :| 0 <= i < |b| && b[i].ToolUse? {
      assert (a + b)[|a| + i].ToolUse?;
    }
  }

  // An open tool_use block has been started.
  predicate OpenShown(t: Telling) {
    t.open.Some? && t.open.value.ToolUse? ==> ShowsTool(t.blocks)
  }

  ghost predicate ShowsStep(t: Telling, u: Telling, tool: bool) {
    OpenShown(u) && (ShowsTool(u.blocks) <==> ShowsTool(t.blocks) || tool)
  }

  lemma {:induction false} TurnShows(t: Telling, k: Kind)
    requires OpenShown(t)
    ensures ShowsStep(t, Turn(t, k), k.ToolUse?)
  {
    ShowsMore(t.blocks, [k]);
    assert [k][0] == k;
  }

  lemma {:induction false} ThinkingShows(m: Mode, texts: Texts, t: Telling, ev: Event)
    requires OpenShown(t)
    ensures ShowsStep(t, TellThinking(m, t, ev), false) && ShowsStep(t, WithPlaceholder(m, texts, t), false)
  {
    TurnShows(t, Kind.Thinking);
  }

  lemma {:induction false} TextShows(m: Mode, texts: Texts, t: Telling, ev: Event)
    requires OpenShown(t)
    ensures ShowsStep(t, TellText(m, texts, t, ev), false)
  {
    ThinkingShows(m, texts, t, ev);
    TurnShows(WithPlaceholder(m, texts, t), Text);
  }

  lemma {:induction false} PartialShows(m: Mode, texts: Texts, t: Telling, ev: Event)
    requires OpenShown(t)
    ensures ShowsStep(t, TellPartial(m, texts, t, ev), NamedPartial(ev))
  {
    ThinkingShows(m, texts, t, ev);
    if NamedPartial(ev) {
      TurnShows(WithPlaceholder(m, texts, t), ToolUse(ev.partial.value.id, ev.partial.value.name));
    }
  }

  lemma {:induction false} CallShows(m: Mode, texts: Texts, t: Telling, ev: Event)
    requires OpenShown(t)
    ensures ShowsStep(t, TellTool(m, texts, t, ev), Forwards(ev))
  {
    ThinkingShows(m, texts, t, ev);
    if Forwards(ev) {
      TurnShows(WithPlaceholder(m, texts, t), ToolUse(ev.tool.value.id, ev.tool.value.name));
    }
  }

  lemma {:induction false} EventShows(m: Mode, texts: Texts, t: Telling, ev: Event)
    requires OpenShown(t)
    ensures ShowsStep(t, Tell(m, texts, t, ev), NamedPartial(ev) || Forwards(ev))
  {
    var u := TellThinking(m, t, ev);
    var v := TellText(m, texts, u, ev);
    ThinkingShows(m, texts, t, ev);
    TextShows(m, texts, u, ev);
    PartialShows(m, texts, v, ev);
    CallShows(m, texts, TellPartial(m, texts, v, ev), ev);
  }

  lemma {:induction false} ToldShows(m: Mode, texts: Texts, evs: seq<Event>)
    ensures OpenShown(Told(m, texts, evs))
    ensures ShowsTool(Told(m, texts, evs).blocks) <==> MentionsTool(evs)
  {
    if evs != [] {
      var before, ev := evs[..|evs| - 1], evs[|evs| - 1];
      assert evs == before + [ev];
      ToldShows(m, texts, before);
      EventShows(m, texts, Told(m, texts, before), ev);
      Mentions(m, before, ev);
    }
  }

  /** A complete message stops for tools exactly when it shows a tool_use block. */
  lemma {:induction false} StopsForTools(m: Mode, texts: Texts, a: Attempt, frames: seq<Frame>)
    requires EndsAs(m, texts, a, Completed, Summarize(frames))
    ensures Summarize(frames).stop == Some(if ShowsTool(StartedIn(frames)) then ToolCalls else EndTurn)
  {
    var t := Told(m, texts, a.events);
    BlocksIn(frames);
    ToldShows(m, texts, a.events);
    ThinkingShows(m, texts, t, Say(""));
    ShowsMore(WithPlaceholder(m, texts, t).blocks, TextBlocks(Closing(m, texts, a.events)));
  }

  lemma {:induction false} BlocksConcat(a: seq<Kind>, b: seq<Kind>, id: string)
    requires !ShowsTool(b)
    ensures Blocks(a + b, id) == Blocks(a, id)
  {
    if b == [] {
      assert a + b == a;
    } else {
      var c := b[..|b| - 1];
      assert a + b == a + c + [b[|b| - 1]];
      BlocksMore(a + c, b[|b| - 1], id);
      assert b == c + [b[|b| - 1]];
      ShowsMore(c, [b[|b| - 1]]);
      BlocksConcat(a, c, id);
    }
  }

  lemma {:induction false} ClosingShowsNoTool(m: Mode, texts: Texts, evs: seq<Event>, ending: Ending)
    ensures !ShowsTool(ClosingBlocks(m, texts, evs, ending))
  {
  }

  lemma {:induction false} MessageTools(m: Mode, texts: Texts, a: Attempt, ending: Ending, frames: seq<Frame>, id: string)
    requires EndsAs(m, texts, a, ending, Summarize(frames))
    ensures Blocks(StartedIn(frames), id) == Blocks(Started(Touches(m, a.events)), id)
  {
    MessageBlocks(m, texts, a, ending, frames);
    ClosingShowsNoTool(m, texts, a.events, ending);
    BlocksConcat(Started(Touches(m, a.events)), ClosingBlocks(m, texts, a.events, ending), id);
  }

  /** In a message, however it ended: a call has exactly one block if and only if the events touch it without a
      break. */
  lemma {:induction false} OneBlock(m: Mode, texts: Texts, a: Attempt, ending: Ending, frames: seq<Frame>, id: string)
    requires EndsAs(m, texts, a, ending, Summarize(frames))
    ensures Blocks(StartedIn(frames), id) == 1 <==> Mentioned(Touches(m, a.events), id) && Unbroken(Touches(m, a.events), id)
  {
    MessageTools(m, texts, a, ending, frames, id);
    BlockPerCall(Touches(m, a.events), id);
  }

  // Three plain events, and what each turns to.
  function Start(id: string, name: string): Event {
    Event(None, "", Some(Partial(false, id, name)), None)
  }

  function Say(text: string): Event {
    Event(None, text, None, None)
  }

  function Call(id: string, name: string, args: string): Event {
    Event(None, "", None, Some(Forward(id, name, args)))
  }

  lemma {:induction false} TouchesSnoc(m: Mode, before: seq<Event>, ev: Event)
    ensures Touches(m, before + [ev]) == Touches(m, before) + EventTouches(m, Awaited(m, before), LastTouch(Touches(m, before)), ev)
  {
    assert (before + [ev])[..|before|] == before;
  }

  // Each turns to its own block, wherever it comes.
  lemma {:induction false} StartTouches(m: Mode, before: seq<Event>, id: string, name: string)
    requires m.Plain() && !m.NeedsThinking() && name != ""
    ensures Touches(m, before + [Start(id, name)]) == Touches(m, before) + [Some(ToolUse(id, name))]
  {
    TouchesSnoc(m, before, Start(id, name));
    assert EventTouches(m, false, LastTouch(Touches(m, before)), Start(id, name)) == [Some(ToolUse(id, name))];
  }

  lemma {:induction false} SayTouches(m: Mode, before: seq<Event>, text: string)
    requires m.Plain() && !m.NeedsThinking() && text != ""
    ensures Touches(m, before + [Say(text)]) == Touches(m, before) + [Some(Text)]
  {
    TouchesSnoc(m, before, Say(text));
    assert EventTouches(m, false, LastTouch(Touches(m, before)), Say(text)) == [Some(Text)];
  }

  lemma {:induction false} CallTouchesOne(m: Mode, before: seq<Event>, id: string, name: string, args: string)
    requires m.Plain() && !m.NeedsThinking()
    ensures Touches(m, before + [Call(id, name, args)]) == Touches(m, before) + [Some(ToolUse(id, name))]
  {
    TouchesSnoc(m, before, Call(id, name, args));
    assert EventTouches(m, false, LastTouch(Touches(m, before)), Call(id, name, args)) == [Some(ToolUse(id, name))];
  }

  lemma {:induction false} TouchesOfThree(m: Mode, none: seq<Event>, one: seq<Event>, two: seq<Event>, id: string, name: string,
                                          text: string, args: string)
    requires m.Plain() && !m.NeedsThinking() && name != "" && text != ""
    requires none == [] && one == none + [Start(id, name)] && two == one + [Say(text)]
    ensures var k := ToolUse(id, name);
            Touches(m, two + [Call(id, name, args)]) == [] + [Some(k)] + [Some(Text)] + [Some(k)]
  {
    StartTouches(m, none, id, name);
    SayTouches(m, one, text);
    CallTouchesOne(m, two, id, name, args);
  }

  lemma {:induction false} TouchesOfEvents(m: Mode, id: string, name: string, text: string, args: string)
    requires m.Plain() && !m.NeedsThinking() && name != "" && text != ""
    ensures var k := ToolUse(id, name);
            Touches(m, [Start(id, name), Say(text), Call(id, name, args)]) == [] + [Some(k)] + [Some(Text)] + [Some(k)]
  {
    TouchesOfThree(m, [], [] + [Start(id, name)], [] + [Start(id, name)] + [Say(text)], id, name, text, args);
    assert [] + [Start(id, name)] + [Say(text)] + [Call(id, name, args)] == [Start(id, name), Say(text), Call(id, name, args)];
  }

  lemma {:induction false} TwoBlocks(k: Kind)
    requires k.ToolUse?
    ensures Blocks(Started([] + [Some(k)] + [Some(Text)] + [Some(k)]), k.id) == 2
  {
    BlocksStep([], Some(k), k.id);
    BlocksStep([] + [Some(k)], Some(Text), k.id);
    BlocksStep([] + [Some(k)] + [Some(Text)], Some(k), k.id);
  }

  /** Text between the partial frame of a call and the call itself: two blocks under one id, however it ends. */
  lemma {:induction false} CallTwice(m: Mode, texts: Texts, outcome: Outcome, ending: Ending, frames: seq<Frame>, id: string,
                  name: string, text: string, args: string)
    requires m.Plain() && !m.NeedsThinking() && name != "" && text != ""
    requires EndsAs(m, texts, Attempt([Start(id, name), Say(text), Call(id, name, args)], outcome), ending, Summarize(frames))
    ensures Blocks(StartedIn(frames), id) == 2
  {
    var evs := [Start(id, name), Say(text), Call(id, name, args)];
    var k := ToolUse(id, name);
    TouchesOfEvents(m, id, name, text, args);
    TwoBlocks(k);
    MessageTools(m, texts, Attempt(evs, outcome), ending, frames, id);
  }
}
