/** The streaming Responses transducer (internal/api/responses.go, streamResponses): chat chunks become
    numbered Responses events. Item ids are random in the source; here an item is its own id. */
module ResponsesStream {
  import opened Options
  import opened Spelling

  // ---------------------------------------------------------------- input

  datatype CallDelta = CallDelta(index: nat, id: string, name: string, args: string)

  /** A line of the chat stream: `Skipped` does not parse or carries no choice, `Heartbeat` is an empty delta. */
  datatype Chunk =
    | Skipped
    | Heartbeat
    | ErrorChunk
    | DoneMark
    | Delta(content: string, reasoning: string, calls: seq<CallDelta>)

  // ---------------------------------------------------------------- output

  datatype Item = Message | Call(n: nat)
  datatype Meta = Meta(custom: bool, id: string, name: string)
  datatype Finished = Finished(meta: Meta, content: string)

  datatype Ev =
    | Created
    | InProgress
    | ItemAdded(item: Item, meta: Meta, outputIndex: nat)
    | PartAdded
    | TextDelta(delta: string)
    | ReasoningAdded(item: Item, outputIndex: nat)
    | ReasoningDelta(item: Item, outputIndex: nat, reasoning: string)
    | ArgsDelta(item: Item, custom: bool, outputIndex: nat, delta: string)
    | TextDone(text: string)
    | PartDone(text: string)
    | ArgsDone(item: Item, custom: bool, outputIndex: nat, payload: string)
    | ItemDone(item: Item, outputIndex: nat, finished: Finished)
    | Completed(message: Option<string>, output: seq<Finished>, outputText: string)
    | Failed(message: Option<string>, output: seq<Finished>)

  datatype Numbered = Numbered(number: nat, ev: Ev)

  const MESSAGE := Meta(false, "", "")

  // ---------------------------------------------------------------- what a client can check about a stream

  // How far the message item has come: added, its part added, its text done, its part done, itself done.
  datatype Stage = NoItem | ItemOnly | Speaking | TextSealed | PartSealed | ItemSealed

  /** What the events so far amount to. `tidy` says that items were added in order and only once, that text
      and argument deltas and completions name items that were added, with the right type and the right
      content, and that every opening and closing event comes once, in its turn; `named`, that reasoning
      events name an item that was added; `steady`, that no item changed its output index. */
  datatype View = View(
    tidy: bool, named: bool, steady: bool, begun: bool, ended: bool,
    stage: Stage, text: string, reasons: bool, reasoning: string,
    calls: seq<Meta>, indices: seq<nat>, args: seq<string>, argsDone: nat, done: nat)

  const EMPTY := View(true, true, true, false, false, NoItem, "", false, "", [], [], [], 0, 0)

  // The message goes from one stage to the next, saying what it has said so far.
  function Turn(v: View, before: Stage, after: Stage, text: string): View {
    v.(tidy := v.tidy && v.stage == before && text == v.text, stage := after)
  }

  /** A call's final payload: freeform tools get their input taken out of the arguments. */
  function Payload(customInput: string -> string, meta: Meta, args: string): string {
    if meta.custom then customInput(args) else args
  }

  // An event about reasoning names an item and its place.
  function Name(v: View, item: Item, outputIndex: nat): View {
    match item
    case Message => v.(named := v.named && !v.stage.NoItem?, steady := v.steady && outputIndex == 0)
    case Call(n) =>
      if n < |v.calls| && n < |v.indices| then v.(steady := v.steady && v.indices[n] == outputIndex) else v.(named := false)
  }

  function See(customInput: string -> string, v: View, e: Ev): View {
    if v.ended || v.begun == e.Created? then v.(tidy := false)
    else match e
      case Created => v.(begun := true)
      case InProgress => v
      case ReasoningAdded(item, i) => Name(v, item, i).(tidy := v.tidy && !v.reasons, reasons := true)
      case ReasoningDelta(item, i, d) => Name(v, item, i).(tidy := v.tidy && v.reasons, reasoning := v.reasoning + d)
      case ItemAdded(Message, m, i) =>
        Turn(v.(tidy := v.tidy && m == MESSAGE, steady := v.steady && i == 0), NoItem, ItemOnly, v.text)
      case PartAdded => Turn(v, ItemOnly, Speaking, v.text)
      case TextDelta(d) => v.(tidy := v.tidy && v.stage.Speaking?, text := v.text + d)
      case TextDone(t) => Turn(v, Speaking, TextSealed, t)
      case PartDone(t) => Turn(v, TextSealed, PartSealed, t)
      case ItemDone(Message, i, f) =>
        Turn(v.(tidy := v.tidy && f.meta == MESSAGE, steady := v.steady && i == 0), PartSealed, ItemSealed, f.content)
      case ItemAdded(Call(n), m, i) =>
        v.(tidy := v.tidy && n == |v.calls| && v.argsDone == 0,
           calls := v.calls + [m], indices := v.indices + [i], args := v.args + [""])
      case ArgsDelta(Message, _, _, _) => v.(tidy := false)
      case ArgsDelta(Call(n), c, i, d) =>
        if n < |v.calls| && n < |v.args| && n < |v.indices|
        then v.(tidy := v.tidy && v.calls[n].custom == c && v.argsDone == 0,
                steady := v.steady && v.indices[n] == i, args := v.args[n := v.args[n] + d])
        else v.(tidy := false)
      case ArgsDone(Message, _, _, _) => v.(tidy := false)
      case ArgsDone(Call(n), c, i, p) =>
        if n == v.done == v.argsDone && n < |v.calls| && n < |v.args| && n < |v.indices|
        then v.(tidy := v.tidy && v.calls[n].custom == c && p == Payload(customInput, v.calls[n], v.args[n]),
                steady := v.steady && v.indices[n] == i, argsDone := v.argsDone + 1)
        else v.(tidy := false)
      case ItemDone(Call(n), i, f) =>
        if n == v.done && n + 1 == v.argsDone && n < |v.calls| && n < |v.args| && n < |v.indices|
        then v.(tidy := v.tidy && f == Finished(v.calls[n], Payload(customInput, v.calls[n], v.args[n])),
                steady := v.steady && v.indices[n] == i, done := v.done + 1)
        else v.(tidy := false)
      case Completed(_, _, _) => v.(ended := true)
      case Failed(_, _) => v.(ended := true)
  }

  function Seen(customInput: string -> string, out: seq<Numbered>): View {
    if out == [] then EMPTY else See(customInput, Seen(customInput, out[..|out| - 1]), out[|out| - 1].ev)
  }

  // ---------------------------------------------------------------- what the chunks say

  datatype Pending = Pending(meta: Meta, args: string)

  /** `late`: the first text came after a tool call; `crossed`: arguments came for a call that was not
      the last one opened; `gap`: a call's index skipped one; `early`: reasoning came before any text;
      `over`: the end mark was read. */
  datatype Heard = Heard(text: string, reasoning: string, calls: seq<Pending>, failed: bool,
                         late: bool, crossed: bool, gap: bool, early: bool, over: bool)

  const SILENCE := Heard("", "", [], false, false, false, false, false, false)

  // Which of n calls a fragment goes to; n opens the next one.
  function Goes(n: nat, c: CallDelta): nat {
    if c.index < n then c.index else n
  }

  function Opens(custom: string -> bool, c: CallDelta): Pending {
    Pending(Meta(custom(c.name), c.id, c.name), "")
  }

  /** A fragment joins the call of its index, or opens the next call if there is none of that index yet. */
  function Join(custom: string -> bool, calls: seq<Pending>, c: CallDelta): (r: seq<Pending>)
    ensures |r| == if c.index < |calls| then |calls| else |calls| + 1
  {
    var k := Goes(|calls|, c);
    var all := if k < |calls| then calls else calls + [Opens(custom, c)];
    all[k := all[k].(args := all[k].args + c.args)]
  }

  function HearCall(custom: string -> bool, h: Heard, c: CallDelta): Heard {
    var calls := Join(custom, h.calls, c);
    h.(calls := calls, gap := h.gap || c.index > |h.calls|,
       crossed := h.crossed || (c.args != "" && Goes(|h.calls|, c) != |calls| - 1))
  }

  function HearCalls(custom: string -> bool, h: Heard, cs: seq<CallDelta>): (r: Heard)
    ensures r.over == h.over
  {
    if cs == [] then h else HearCall(custom, HearCalls(custom, h, cs[..|cs| - 1]), cs[|cs| - 1])
  }

  function HearText(h: Heard, content: string, reasoning: string): Heard {
    h.(text := h.text + content, reasoning := h.reasoning + reasoning,
       late := h.late || (content != "" && h.text == "" && h.calls != []),
       early := h.early || (reasoning != "" && h.text + content == ""))
  }

  function Hear(custom: string -> bool, h: Heard, c: Chunk): Heard {
    if h.over then h
    else match c
      case Skipped | Heartbeat => h
      case ErrorChunk => h.(failed := true)
      case DoneMark => h.(over := true)
      case Delta(content, reasoning, calls) => HearCalls(custom, HearText(h, content, reasoning), calls)
  }

  /** The text, reasoning and tool calls of a stream of chunks up to its end mark; error chunks add nothing. */
  function Told(custom: string -> bool, chunks: seq<Chunk>): Heard {
    if chunks == [] then SILENCE else Hear(custom, Told(custom, chunks[..|chunks| - 1]), chunks[|chunks| - 1])
  }

  // ---------------------------------------------------------------- the same, off the chunks themselves

  /** How many chunks come before the end mark. */
  function Heeded(chunks: seq<Chunk>): (n: nat)
    ensures n <= |chunks|
    ensures forall i :: 0 <= i < n ==> !chunks[i].DoneMark?
    ensures n < |chunks| ==> chunks[n].DoneMark?
  {
    if chunks == [] || chunks[0].DoneMark? then 0 else 1 + Heeded(chunks[1..])
  }

  function ContentIn(c: Chunk): string {
    if c.Delta? then c.content else ""
  }

  function ReasoningIn(c: Chunk): string {
    if c.Delta? then c.reasoning else ""
  }

  predicate AnyError(chunks: seq<Chunk>) {
    exists i :: 0 <= i < |chunks| && chunks[i].ErrorChunk?
  }

  // The i-th chunk brings reasoning, and there was no text up to and in it.
  predicate ReasonsEarly(chunks: seq<Chunk>, i: nat)
    requires i < |chunks|
  {
    ReasoningIn(chunks[i]) != "" && Spell(chunks[..i + 1], ContentIn) == ""
  }

  predicate AnyReasonsEarly(chunks: seq<Chunk>) {
    exists i :: 0 <= i < |chunks| && ReasonsEarly(chunks, i)
  }

  predicate AnyCalls(chunks: seq<Chunk>) {
    exists i :: 0 <= i < |chunks| && chunks[i].Delta? && chunks[i].calls != []
  }

  // The i-th chunk brings the first text, after a tool call.
  predicate SpeaksLate(chunks: seq<Chunk>, i: nat)
    requires i < |chunks|
  {
    ContentIn(chunks[i]) != "" && Spell(chunks[..i], ContentIn) == "" && AnyCalls(chunks[..i])
  }

  predicate AnySpeaksLate(chunks: seq<Chunk>) {
    exists i :: 0 <= i < |chunks| && SpeaksLate(chunks, i)
  }

  // What was heard of some chunks, none of them an end mark.
  ghost predicate Heeds(h: Heard, chunks: seq<Chunk>) {
    && h.text == Spell(chunks, ContentIn) && h.reasoning == Spell(chunks, ReasoningIn)
    && (h.failed <==> AnyError(chunks)) && (h.calls != [] <==> AnyCalls(chunks))
    && (h.early <==> AnyReasonsEarly(chunks)) && (h.late <==> AnySpeaksLate(chunks))
  }

  // One chunk more.
  lemma {:induction false} AnyMore(front: seq<Chunk>, c: Chunk)
    ensures AnyError(front + [c]) <==> AnyError(front) || c.ErrorChunk?
    ensures AnyCalls(front + [c]) <==> AnyCalls(front) || (c.Delta? && c.calls != [])
  {
    var all := front + [c];
    assert all[|front|] == c;
    if i :| 0 <= i < |front| && front[i].ErrorChunk? {
      assert all[i].ErrorChunk?;
    }
    if i :| 0 <= i < |front| && front[i].Delta? && front[i].calls != [] {
      assert all[i].calls != [];
    }
  }

  lemma {:induction false} EarlyMore(front: seq<Chunk>, c: Chunk)
    ensures AnyReasonsEarly(front + [c]) <==> AnyReasonsEarly(front) || (ReasoningIn(c) != "" && Spell(front + [c], ContentIn) == "")
  {
    var all := front + [c];
    assert all[..|front| + 1] == all && all[|front|] == c;
    forall i | 0 <= i < |front|
      ensures ReasonsEarly(all, i) <==> ReasonsEarly(front, i)
    {
      assert all[..i + 1] == front[..i + 1];
    }
    if i :| 0 <= i < |front| && ReasonsEarly(front, i) {
      assert ReasonsEarly(all, i);
    }
    if i :| 0 <= i < |all| && ReasonsEarly(all, i) {
      assert i == |front| || ReasonsEarly(front, i);
    }
    assert ReasonsEarly(all, |front|) <==> ReasoningIn(c) != "" && Spell(all, ContentIn) == "";
  }

  lemma {:induction false} LateMore(front: seq<Chunk>, c: Chunk)
    ensures AnySpeaksLate(front + [c])
            <==> AnySpeaksLate(front) || (ContentIn(c) != "" && Spell(front, ContentIn) == "" && AnyCalls(front))
  {
    var all := front + [c];
    assert all[..|front|] == front && all[|front|] == c;
    forall i | 0 <= i < |front|
      ensures SpeaksLate(all, i) <==> SpeaksLate(front, i)
    {
      assert all[..i] == front[..i];
    }
    if i :| 0 <= i < |front| && SpeaksLate(front, i) {
      assert SpeaksLate(all, i);
    }
    if i :| 0 <= i < |all| && SpeaksLate(all, i) {
      assert i == |front| || SpeaksLate(front, i);
    }
    assert SpeaksLate(all, |front|) <==> ContentIn(c) != "" && Spell(front, ContentIn) == "" && AnyCalls(front);
  }

  // Fragments leave all but the calls alone, and open one if there is none.
  lemma {:induction false} CallsOnly(custom: string -> bool, h: Heard, cs: seq<CallDelta>)
    ensures var g := HearCalls(custom, h, cs);
            && g.text == h.text && g.reasoning == h.reasoning && g.failed == h.failed
            && g.early == h.early && g.late == h.late && (g.calls == [] <==> h.calls == [] && cs == [])
  {
    if cs != [] {
      CallsOnly(custom, h, cs[..|cs| - 1]);
    }
  }

  lemma {:induction false} HeedOne(custom: string -> bool, front: seq<Chunk>, h: Heard, c: Chunk)
    requires Heeds(h, front) && !h.over && !c.DoneMark?
    ensures Heeds(Hear(custom, h, c), front + [c])
  {
    SpellMore(front, c, ContentIn);
    SpellMore(front, c, ReasoningIn);
    AnyMore(front, c);
    EarlyMore(front, c);
    LateMore(front, c);
    if c.Delta? {
      CallsOnly(custom, HearText(h, c.content, c.reasoning), c.calls);
    } else {
      Bare(h.text);
      Bare(h.reasoning);
    }
  }

  /** Until the end mark, everything is heard as it is said. */
  lemma {:induction false} HeedAll(custom: string -> bool, chunks: seq<Chunk>)
    requires Heeded(chunks) == |chunks|
    ensures Heeds(Told(custom, chunks), chunks) && !Told(custom, chunks).over
  {
    if chunks != [] {
      var front, c := chunks[..|chunks| - 1], chunks[|chunks| - 1];
      assert chunks == front + [c];
      HeedAll(custom, front);
      HeedOne(custom, front, Told(custom, front), c);
    }
  }

  /** The text and reasoning heard are those of the chunks before the end mark; failed, early and late say what they
      should of these. */
  lemma {:induction false} HeedsChunks(custom: string -> bool, chunks: seq<Chunk>)
    ensures Heeds(Told(custom, chunks), chunks[..Heeded(chunks)])
  {
    var n := Heeded(chunks);
    assert chunks[..n][..Heeded(chunks[..n])] == chunks[..Heeded(chunks[..n])];
    HeedAll(custom, chunks[..n]);
    if n < |chunks| {
      assert chunks[..n + 1][..n] == chunks[..n];
      ToldOver(custom, chunks, n + 1);
    } else {
      assert chunks[..n] == chunks;
    }
  }

  lemma NothingSaid(h: Heard)
    ensures HearText(h, "", "") == h
  {
    assert h.text + "" == h.text && h.reasoning + "" == h.reasoning;
  }

  // The two halves of a fragment.
  function HearOpen(custom: string -> bool, h: Heard, c: CallDelta): Heard {
    h.(calls := h.calls + [Opens(custom, c)], gap := h.gap || c.index > |h.calls|)
  }

  function HearArgs(h: Heard, k: nat, args: string): Heard
    requires k < |h.calls|
  {
    h.(calls := h.calls[k := h.calls[k].(args := h.calls[k].args + args)], crossed := h.crossed || k != |h.calls| - 1)
  }

  lemma CallInTwo(custom: string -> bool, h: Heard, c: CallDelta)
    ensures var g := if c.index < |h.calls| then h else HearOpen(custom, h, c);
            HearCall(custom, h, c) == if c.args == "" then g else HearArgs(g, Goes(|h.calls|, c), c.args)
  {
    var g := if c.index < |h.calls| then h else HearOpen(custom, h, c);
    var k := Goes(|h.calls|, c);
    if c.args == "" {
      assert g.calls[k].args + "" == g.calls[k].args;
      assert g.calls[k := g.calls[k]] == g.calls;
    }
  }

  // The events of the two halves.
  function OpenEvents(custom: string -> bool, itemAdded: bool, n: nat, c: CallDelta): seq<Ev> {
    if c.index < n then [] else [ItemAdded(Call(n), Opens(custom, c).meta, FcOutputIndex(itemAdded, n))]
  }

  function ArgsEvents(itemAdded: bool, calls: seq<Pending>, k: nat, args: string): seq<Ev>
    requires k < |calls|
  {
    if args == "" then [] else [ArgsDelta(Call(k), calls[k].meta.custom, FcOutputIndex(itemAdded, |calls| - 1), args)]
  }

  function LaterEvents(custom: string -> bool, itemAdded: bool, calls: seq<Pending>, c: CallDelta): seq<Ev> {
    ArgsEvents(itemAdded, if c.index < |calls| then calls else calls + [Opens(custom, c)], Goes(|calls|, c), c.args)
  }

  /** The events of one fragment. */
  function CallEvents(custom: string -> bool, itemAdded: bool, calls: seq<Pending>, c: CallDelta): seq<Ev> {
    OpenEvents(custom, itemAdded, |calls|, c) + LaterEvents(custom, itemAdded, calls, c)
  }

  function Numbering(n: nat, es: seq<Ev>): seq<Numbered> {
    seq(|es|, i requires 0 <= i < |es| => Numbered(n + i, es[i]))
  }

  lemma NumberingConcat(out: seq<Numbered>, a: seq<Ev>, b: seq<Ev>)
    ensures out + Numbering(|out|, a) + Numbering(|out| + |a|, b) == out + Numbering(|out|, a + b)
  {
  }

  // ---------------------------------------------------------------- the transducer

  function FcOutputIndex(itemAdded: bool, n: nat): nat {
    if itemAdded then n + 1 else n
  }

  // One event takes one view to the next.
  ghost predicate Follows(customInput: string -> string, views: seq<View>, out: seq<Numbered>, i: nat)
    requires i < |out| && i + 1 < |views|
  {
    views[i + 1] == See(customInput, views[i], out[i].ev)
  }

  lemma {:induction false} FollowsSeen(customInput: string -> string, views: seq<View>, out: seq<Numbered>, n: nat)
    requires n <= |out| < |views| && views[0] == EMPTY
    requires forall i :: 0 <= i < |out| ==> Follows(customInput, views, out, i)
    ensures Seen(customInput, out[..n]) == views[n]
  {
    if n > 0 {
      FollowsSeen(customInput, views, out, n - 1);
      assert Follows(customInput, views, out, n - 1);
      assert out[..n][..n - 1] == out[..n - 1];
    }
  }

  class Responder {
    const custom: string -> bool
    const customInput: string -> string
    var out: seq<Numbered>
    // What a client has seen so far, and after each event.
    ghost var view: View
    ghost var views: seq<View>
    var number: nat
    var itemAdded: bool
    var reasoningAdded: bool
    var text: string
    var fcs: seq<Pending>
    var chunkErr: bool

    ghost predicate Shape()
      reads this
    {
      && |views| == |out| + 1 && views[0] == EMPTY && views[|out|] == view
      && (forall i :: 0 <= i < |out| ==> Follows(customInput, views, out, i))
      && number == |out| && forall i :: 0 <= i < |out| ==> out[i].number == i
    }

    // Before the closing events: the view holds what the variables hold.
    ghost predicate Valid()
      reads this
    {
      && Shape()
      && view.tidy && view.begun && !view.ended && view.done == view.argsDone == 0
      && view.stage == (if itemAdded then Speaking else NoItem) && view.text == text && view.reasons == reasoningAdded
      && |view.calls| == |view.indices| == |view.args| == |fcs|
      && (forall n :: 0 <= n < |fcs| ==> view.calls[n] == fcs[n].meta && view.args[n] == fcs[n].args)
      && (forall n :: 0 <= n < |fcs| ==> view.indices[n] <= FcOutputIndex(itemAdded, n))
    }

    // The variables hold what was heard, and the view is steady as long as it can be.
    ghost predicate Following(h: Heard)
      reads this
    {
      && Valid()
      && text == h.text && view.reasoning == h.reasoning && fcs == h.calls && chunkErr == h.failed
      && (itemAdded <==> h.text != "")
      && (h.late ==> itemAdded && |fcs| > 0 && view.indices[0] == 0)
      && (!h.late ==> forall n :: 0 <= n < |fcs| ==> view.indices[n] == FcOutputIndex(itemAdded, n))
      && (h.crossed ==> !view.steady)
      && (!h.crossed && !h.late ==> view.steady)
      && (view.named <==> !h.early) && (reasoningAdded <==> h.reasoning != "")
    }

    // The view is what a client makes of the events.
    lemma SeesAll()
      requires Shape()
      ensures Seen(customInput, out) == view && forall i :: 0 <= i < |out| ==> out[i].number == i
    {
      FollowsSeen(customInput, views, out, |out|);
      assert out[..|out|] == out;
    }

    method Emit(e: Ev)
      requires Shape()
      modifies this`out, this`view, this`views, this`number
      ensures Shape() && view == See(customInput, old(view), e) && out == old(out) + [Numbered(|old(out)|, e)]
    {
      ghost var before := views;
      ghost var last := out;
      out := out + [Numbered(number, e)];
      number := number + 1;
      view := See(customInput, view, e);
      views := views + [view];
      forall i | 0 <= i < |out|
        ensures Follows(customInput, views, out, i)
      {
        if i < |last| {
          assert Follows(customInput, before, last, i);
          assert views[i] == before[i] && views[i + 1] == before[i + 1] && out[i] == last[i];
        }
      }
    }

    constructor (custom: string -> bool, customInput: string -> string)
      ensures this.custom == custom && this.customInput == customInput
      ensures Following(SILENCE)
    {
      this.custom, this.customInput := custom, customInput;
      out, view, views, number := [], EMPTY, [EMPTY], 0;
      itemAdded, reasoningAdded, text, fcs, chunkErr := false, false, "", [], false;
      new;
      Emit(Created);
      Emit(InProgress);
    }

    method AddMessage(ghost h: Heard)
      requires Following(h) && !itemAdded
      modifies this`out, this`view, this`views, this`number, this`itemAdded
      ensures Valid() && itemAdded && view.reasoning == old(view).reasoning && text == old(text)
      ensures view.indices == old(view).indices && view.steady == old(view).steady && view.named == old(view).named
    {
      Emit(ItemAdded(Message, MESSAGE, 0));
      Emit(PartAdded);
      itemAdded := true;
    }

    method Speak(content: string)
      requires Valid() && itemAdded
      modifies this`out, this`view, this`views, this`number, this`text
      ensures Valid() && text == old(text) + content && view == old(view).(text := text)
    {
      text := text + content;
      Emit(TextDelta(content));
    }

    method FirstText(content: string, ghost h: Heard)
      requires Following(h) && !itemAdded && content != ""
      modifies this`out, this`view, this`views, this`number, this`itemAdded, this`text
      ensures Following(HearText(h, content, ""))
    {
      assert h.reasoning + "" == h.reasoning;
      AddMessage(h);
      Speak(content);
    }

    method MoreText(content: string, ghost h: Heard)
      requires Following(h) && itemAdded && content != ""
      modifies this`out, this`view, this`views, this`number, this`text
      ensures Following(HearText(h, content, ""))
    {
      assert h.reasoning + "" == h.reasoning;
      Speak(content);
    }

    method OnText(content: string, ghost h: Heard)
      requires Following(h)
      modifies this`out, this`view, this`views, this`number, this`itemAdded, this`text
      ensures Following(HearText(h, content, ""))
    {
      if content != "" {
        if itemAdded {
          MoreText(content, h);
        } else {
          FirstText(content, h);
        }
      } else {
        NothingSaid(h);
      }
    }

    // The event that only keeps the connection going.
    method Announce(e: Ev)
      requires Shape() && view.begun && !view.ended && e.InProgress?
      modifies this`out, this`view, this`views, this`number
      ensures Shape() && view == old(view)
    {
      Emit(e);
    }

    // All reasoning is put down to the message, which may not have been added yet, or never.
    method Reason(r: string)
      requires Shape() && view.begun && !view.ended && view.reasons == reasoningAdded
      modifies this`out, this`view, this`views, this`number, this`reasoningAdded
      ensures Shape() && reasoningAdded
      ensures view == old(view).(reasons := true, reasoning := old(view).reasoning + r,
                                 named := old(view).named && !old(view).stage.NoItem?)
    {
      if !reasoningAdded {
        Emit(ReasoningAdded(Message, 0));
        reasoningAdded := true;
      }
      Emit(ReasoningDelta(Message, 0, r));
    }

    method OnReasoning(r: string, ghost h: Heard)
      requires Following(h)
      modifies this`out, this`view, this`views, this`number, this`reasoningAdded
      ensures Following(HearText(h, "", r))
    {
      if r != "" {
        assert h.text + "" == h.text;
        Reason(r);
      } else {
        NothingSaid(h);
      }
    }

    method AnnounceCall(n: nat, meta: Meta)
      requires Shape() && view.tidy && view.begun && !view.ended && n == |view.calls| && view.argsDone == 0
      modifies this`out, this`view, this`views, this`number
      ensures Shape() && out == old(out) + [Numbered(|old(out)|, ItemAdded(Call(n), meta, FcOutputIndex(itemAdded, n)))]
      ensures view == old(view).(calls := old(view).calls + [meta], indices := old(view).indices + [FcOutputIndex(itemAdded, n)],
                                 args := old(view).args + [""])
    {
      Emit(ItemAdded(Call(n), meta, FcOutputIndex(itemAdded, n)));
    }

    method OpenCall(c: CallDelta, ghost h: Heard)
      requires Following(h) && c.index >= |fcs|
      modifies this`out, this`view, this`views, this`number, this`fcs
      ensures Following(HearOpen(custom, h, c))
      ensures out == old(out) + [Numbered(|old(out)|, ItemAdded(Call(|h.calls|), Opens(custom, c).meta, FcOutputIndex(itemAdded, |h.calls|)))]
    {
      fcs := fcs + [Pending(Meta(custom(c.name), c.id, c.name), "")];
      AnnounceCall(|fcs| - 1, fcs[|fcs| - 1].meta);
    }

    method AddArgs(k: nat, args: string, ghost h: Heard)
      requires Following(h) && k < |fcs| && args != ""
      modifies this`out, this`view, this`views, this`number, this`fcs
      ensures Following(HearArgs(h, k, args))
      ensures out == old(out) + [Numbered(|old(out)|, ArgsDelta(Call(k), h.calls[k].meta.custom, FcOutputIndex(itemAdded, |h.calls| - 1), args))]
    {
      fcs := fcs[k := fcs[k].(args := fcs[k].args + args)];
      Emit(ArgsDelta(Call(k), fcs[k].meta.custom, FcOutputIndex(itemAdded, |fcs| - 1), args));
    }

    // The call of a fragment, opened if need be.
    method FindCall(tc: CallDelta, ghost h: Heard) returns (k: nat, ghost g: Heard)
      requires Following(h)
      modifies this`out, this`view, this`views, this`number, this`fcs
      ensures g == (if tc.index < |h.calls| then h else HearOpen(custom, h, tc)) && Following(g)
      ensures k == Goes(|h.calls|, tc)
      ensures out == old(out) + Numbering(|old(out)|, OpenEvents(custom, itemAdded, |h.calls|, tc))
    {
      if tc.index < |fcs| {
        return tc.index, h;
      }
      OpenCall(tc, h);
      return |fcs| - 1, HearOpen(custom, h, tc);
    }

    method AddAnyArgs(k: nat, args: string, ghost h: Heard)
      requires Following(h) && k < |h.calls|
      modifies this`out, this`view, this`views, this`number, this`fcs
      ensures Following(if args == "" then h else HearArgs(h, k, args))
      ensures out == old(out) + Numbering(|old(out)|, ArgsEvents(itemAdded, h.calls, k, args))
    {
      if args != "" {
        AddArgs(k, args, h);
      }
    }

    /** A fragment opens a call or not, and then adds arguments or not; both under the place of the call
        opened last. */
    method OnCall(tc: CallDelta, ghost h: Heard)
      requires Following(h)
      modifies this`out, this`view, this`views, this`number, this`fcs
      ensures Following(HearCall(custom, h, tc))
      ensures out == old(out) + Numbering(|old(out)|, CallEvents(custom, itemAdded, h.calls, tc))
    {
      CallInTwo(custom, h, tc);
      NumberingConcat(out, OpenEvents(custom, itemAdded, |h.calls|, tc), LaterEvents(custom, itemAdded, h.calls, tc));
      var k;
      ghost var g;
      k, g := FindCall(tc, h);
      AddAnyArgs(k, tc.args, g);
    }

    method OnCalls(calls: seq<CallDelta>, ghost h: Heard)
      requires Following(h)
      modifies this`out, this`view, this`views, this`number, this`fcs
      ensures Following(HearCalls(custom, h, calls))
    {
      for i := 0 to |calls|
        invariant Following(HearCalls(custom, h, calls[..i]))
      {
        OnCall(calls[i], HearCalls(custom, h, calls[..i]));
        assert calls[..i + 1][..i] == calls[..i];
      }
      assert calls[..|calls|] == calls;
    }

    method OnDelta(content: string, reasoning: string, calls: seq<CallDelta>, ghost h: Heard)
      requires Following(h)
      modifies this
      ensures Following(HearCalls(custom, HearText(h, content, reasoning), calls))
    {
      OnText(content, h);
      OnReasoning(reasoning, HearText(h, content, ""));
      HearTextSplit(h, content, reasoning);
      OnCalls(calls, HearText(h, content, reasoning));
    }

    // A chunk that says nothing itself.
    method OnMark(chunk: Chunk, ghost h: Heard) returns (over: bool)
      requires Following(h) && !h.over && !chunk.Delta?
      modifies this`out, this`view, this`views, this`number, this`chunkErr
      ensures Following(Hear(custom, h, chunk)) && over == Hear(custom, h, chunk).over
    {
      match chunk {
        case Heartbeat => Announce(InProgress);
        case ErrorChunk => chunkErr := true;
        case _ =>
      }
      return chunk.DoneMark?;
    }

    /** One chunk; `over` once the end mark was read. */
    method OnChunk(chunk: Chunk, ghost h: Heard) returns (over: bool)
      requires Following(h) && !h.over
      modifies this
      ensures Following(Hear(custom, h, chunk)) && over == Hear(custom, h, chunk).over
    {
      if chunk.Delta? {
        OnDelta(chunk.content, chunk.reasoning, chunk.calls, h);
        return false;
      }
      over := OnMark(chunk, h);
    }

    // Closes the message item.
    method CloseMessage()
      requires Valid() && itemAdded
      modifies this`out, this`view, this`views, this`number
      ensures Shape() && view == old(view).(stage := ItemSealed)
    {
      Emit(TextDone(text));
      Emit(PartDone(text));
      Emit(ItemDone(Message, 0, Finished(MESSAGE, text)));
    }

    // Closes the n-th call item.
    method CloseCall(n: nat, input: string)
      requires Shape() && view.tidy && view.begun && !view.ended && view.done == view.argsDone == n
      requires n < |fcs| == |view.calls| == |view.args| == |view.indices|
      requires fcs[n].meta == view.calls[n] && fcs[n].args == view.args[n]
      requires input == Payload(customInput, fcs[n].meta, fcs[n].args)
      modifies this`out, this`view, this`views, this`number
      ensures Shape()
      ensures view == CloseOne(old(view), itemAdded, n)
    {
      var i := FcOutputIndex(itemAdded, n);
      Emit(ArgsDone(Call(n), fcs[n].meta.custom, i, input));
      Emit(ItemDone(Call(n), i, Finished(fcs[n].meta, input)));
    }

    // One turn of the closing loop.
    method CloseNext(n: nat, ghost v: View) returns (f: Finished)
      requires Shape() && v.tidy && v.begun && !v.ended && v.done == v.argsDone == 0
      requires n < |fcs| == |v.calls| == |v.args| == |v.indices| && view == CloseFirst(v, itemAdded, n)
      requires fcs[n].meta == v.calls[n] && fcs[n].args == v.args[n]
      modifies this`out, this`view, this`views, this`number
      ensures Shape() && view == CloseFirst(v, itemAdded, n + 1) && f == Output(customInput, fcs[n])
    {
      var input := fcs[n].args;
      if fcs[n].meta.custom {
        input := customInput(fcs[n].args);
      }
      CloseCall(n, input);
      return Finished(fcs[n].meta, input);
    }

    method CloseCalls() returns (output: seq<Finished>)
      requires Shape() && view.tidy && view.begun && !view.ended && view.done == view.argsDone == 0
      requires |fcs| == |view.calls| == |view.args| == |view.indices|
      requires forall n :: 0 <= n < |fcs| ==> fcs[n].meta == view.calls[n] && fcs[n].args == view.args[n]
      modifies this`out, this`view, this`views, this`number
      ensures Shape() && output == Outputs(customInput, fcs)
      ensures view == CloseFirst(old(view), itemAdded, |fcs|)
    {
      output := [];
      ghost var v := view;
      for i := 0 to |fcs|
        invariant Shape() && output == OutputsUpTo(customInput, fcs, i) && view == CloseFirst(v, itemAdded, i)
      {
        var f := CloseNext(i, v);
        output := output + [f];
      }
    }

    // Closes all items; only the terminal event is left.
    method CloseItems(ghost h: Heard) returns (output: seq<Finished>)
      requires Following(h)
      modifies this`out, this`view, this`views, this`number
      ensures Shape() && view.begun && !view.ended && Closed(customInput, h, view.(ended := true))
      ensures output == Outputs(customInput, fcs)
    {
      if itemAdded {
        CloseMessage();
      }
      output := CloseCalls();
    }

    method Finish(ghost h: Heard)
      requires Following(h)
      modifies this
      ensures Shape() && Closed(customInput, h, view)
      ensures out != [] && out[|out| - 1].ev == Terminal(customInput, h)
    {
      var output := CloseItems(h);
      var message := if itemAdded then Some(text) else None;
      if chunkErr {
        Emit(Failed(message, output));
      } else {
        Emit(Completed(message, output, text));
      }
    }
  }

  // The first n calls were added under the index they are done with.
  ghost predicate Aligned(itemAdded: bool, indices: seq<nat>, n: nat)
    requires n <= |indices|
  {
    forall k :: 0 <= k < n ==> indices[k] == FcOutputIndex(itemAdded, k)
  }

  // Closing the n-th call.
  ghost function CloseOne(v: View, itemAdded: bool, n: nat): View
    requires n < |v.indices|
  {
    v.(argsDone := n + 1, done := n + 1, steady := v.steady && v.indices[n] == FcOutputIndex(itemAdded, n))
  }

  // Closing the first n calls.
  ghost function CloseFirst(v: View, itemAdded: bool, n: nat): (r: View)
    requires n <= |v.indices|
    ensures r.tidy == v.tidy && r.named == v.named && r.begun == v.begun && r.ended == v.ended && r.stage == v.stage
    ensures r.text == v.text && r.reasons == v.reasons && r.reasoning == v.reasoning
    ensures r.calls == v.calls && r.indices == v.indices && r.args == v.args
    ensures n == 0 ==> r.done == v.done && r.argsDone == v.argsDone
    ensures n > 0 ==> r.done == r.argsDone == n
    ensures r.steady == (v.steady && Aligned(itemAdded, v.indices, n))
  {
    if n == 0 then v else CloseOne(CloseFirst(v, itemAdded, n - 1), itemAdded, n - 1)
  }

  function Output(customInput: string -> string, p: Pending): Finished {
    Finished(p.meta, Payload(customInput, p.meta, p.args))
  }

  function OutputsUpTo(customInput: string -> string, calls: seq<Pending>, n: nat): seq<Finished>
    requires n <= |calls|
  {
    if n == 0 then [] else OutputsUpTo(customInput, calls, n - 1) + [Output(customInput, calls[n - 1])]
  }

  /** The finished items of the collected calls, in order. */
  function Outputs(customInput: string -> string, calls: seq<Pending>): seq<Finished> {
    OutputsUpTo(customInput, calls, |calls|)
  }

  /** Each call has its finished item, with its input taken out of the arguments if it is of a freeform tool. */
  lemma {:induction false} OutputOfEach(customInput: string -> string, calls: seq<Pending>, n: nat, k: nat)
    requires k < n <= |calls|
    ensures |OutputsUpTo(customInput, calls, n)| == n
    ensures OutputsUpTo(customInput, calls, n)[k]
            == Finished(calls[k].meta, if calls[k].meta.custom then customInput(calls[k].args) else calls[k].args)
  {
    if k < n - 1 {
      OutputOfEach(customInput, calls, n - 1, k);
    } else if n > 1 {
      OutputOfEach(customInput, calls, n - 1, 0);
    }
  }

  /** The one event that ends a stream: failed if there was an error chunk, completed otherwise. */
  function Terminal(customInput: string -> string, h: Heard): Ev {
    var message := if h.text != "" then Some(h.text) else None;
    if h.failed then Failed(message, Outputs(customInput, h.calls))
    else Completed(message, Outputs(customInput, h.calls), h.text)
  }

  /** A closed stream: everything that was added is done, each of its opening and closing events exactly once
      and in its turn, with what its deltas added up to;
      text, reasoning and calls are those of the chunks; reasoning named an item that was added exactly
      when none came before the text; and no item's output index ever changed exactly when no text came
      after a tool call that preceded all text, and arguments came only for the call opened last. Unless the text came
      late, the calls have the places after the message; without any text it, that reasoning is put down to, has that of
      the first call. */
  ghost predicate Closed(customInput: string -> string, h: Heard, v: View) {
    && v.tidy && v.ended
    && v.stage == (if h.text != "" then ItemSealed else NoItem) && v.reasons == (h.reasoning != "")
    && v.text == h.text && v.reasoning == h.reasoning
    && v.done == v.argsDone == |v.calls| == |v.args| == |v.indices| == |h.calls|
    && (forall n :: 0 <= n < |h.calls| ==> v.calls[n] == h.calls[n].meta && v.args[n] == h.calls[n].args)
    && (v.named <==> !h.early)
    && (v.steady <==> !h.late && !h.crossed)
    && (h.text == "" && h.calls != [] ==> v.indices[0] == 0)
    && (!h.late ==> forall n :: 0 <= n < |h.calls| ==> v.indices[n] == if h.text == "" then n else n + 1)
  }

  // The reading loop, up to the end mark.
  method Listen(r: Responder, chunks: seq<Chunk>)
    requires r.Following(SILENCE)
    modifies r
    ensures r.Following(Told(r.custom, chunks))
  {
    var i := 0;
    var over := false;
    while i < |chunks| && !over
      invariant i <= |chunks|
      invariant r.Following(Told(r.custom, chunks[..i])) && over == Told(r.custom, chunks[..i]).over
    {
      over := r.OnChunk(chunks[i], Told(r.custom, chunks[..i]));
      i := i + 1;
      assert chunks[..i][..i - 1] == chunks[..i - 1];
    }
    ToldOver(r.custom, chunks, i);
  }

  // What the deltas among a stream's events say.
  function TextOut(e: Numbered): string {
    if e.ev.TextDelta? then e.ev.delta else ""
  }

  function ReasoningOut(e: Numbered): string {
    if e.ev.ReasoningDelta? then e.ev.reasoning else ""
  }

  function ArgsOut(n: nat): Numbered -> string {
    (e: Numbered) => if e.ev.ArgsDelta? && e.ev.item == Call(n) then e.ev.delta else ""
  }

  // Only their own deltas change the words.
  lemma OtherWords(customInput: string -> string, v: View, e: Ev)
    ensures !e.TextDelta? ==> See(customInput, v, e).text == v.text
    ensures !e.ReasoningDelta? ==> See(customInput, v, e).reasoning == v.reasoning
  {
  }

  // Only an item added, or its delta, changes the calls.
  lemma OtherCalls(customInput: string -> string, v: View, e: Ev)
    ensures !e.ItemAdded? ==> See(customInput, v, e).calls == v.calls && See(customInput, v, e).indices == v.indices
    ensures !e.ItemAdded? && !e.ArgsDelta? ==> See(customInput, v, e).args == v.args
  {
  }

  lemma SeeWords(customInput: string -> string, v: View, e: Numbered)
    requires See(customInput, v, e.ev).tidy
    ensures See(customInput, v, e.ev).text == v.text + TextOut(e)
    ensures See(customInput, v, e.ev).reasoning == v.reasoning + ReasoningOut(e)
  {
    OtherWords(customInput, v, e.ev);
    Bare(v.text);
    Bare(v.reasoning);
    if e.ev.TextDelta? {
      assert See(customInput, v, e.ev).text == v.text + e.ev.delta;
    } else if e.ev.ReasoningDelta? {
      assert See(customInput, v, e.ev).reasoning == v.reasoning + e.ev.reasoning;
    }
  }

  function ArgsOf(v: View, n: nat): string {
    if n < |v.args| then v.args[n] else ""
  }

  lemma SeeArgs(customInput: string -> string, v: View, e: Numbered, n: nat)
    requires See(customInput, v, e.ev).tidy && |v.args| == |v.calls| == |v.indices|
    ensures var u := See(customInput, v, e.ev);
            |u.args| == |u.calls| == |u.indices| && ArgsOf(u, n) == ArgsOf(v, n) + ArgsOut(n)(e)
  {
    OtherCalls(customInput, v, e.ev);
    Bare(ArgsOf(v, n));
    if e.ev.ArgsDelta? {
      SeeDelta(customInput, v, e.ev, n);
    } else if e.ev.ItemAdded? {
      SeeAdded(customInput, v, e.ev, n);
    }
  }

  lemma SeeDelta(customInput: string -> string, v: View, e: Ev, n: nat)
    requires See(customInput, v, e).tidy && e.ArgsDelta? && |v.args| == |v.calls| == |v.indices|
    ensures var u := See(customInput, v, e);
            |u.args| == |v.args| && ArgsOf(u, n) == if e.item == Call(n) then ArgsOf(v, n) + e.delta else ArgsOf(v, n)
  {
  }

  lemma SeeAdded(customInput: string -> string, v: View, e: Ev, n: nat)
    requires See(customInput, v, e).tidy && e.ItemAdded? && |v.args| == |v.calls| == |v.indices|
    ensures var u := See(customInput, v, e);
            |u.args| == |u.calls| == |u.indices| && ArgsOf(u, n) == ArgsOf(v, n)
  {
  }

  /** A tidy stream's text and reasoning are what its deltas say. */
  lemma {:induction false} TextSeen(customInput: string -> string, out: seq<Numbered>)
    requires Seen(customInput, out).tidy
    ensures Seen(customInput, out).text == Spell(out, TextOut)
    ensures Seen(customInput, out).reasoning == Spell(out, ReasoningOut)
  {
    if out != [] {
      var front := out[..|out| - 1];
      SeenTidy(customInput, out);
      TextSeen(customInput, front);
      SeeWords(customInput, Seen(customInput, front), out[|out| - 1]);
    }
  }

  /** And so are the arguments of each of its calls. */
  lemma {:induction false} ArgsSeen(customInput: string -> string, out: seq<Numbered>, n: nat)
    requires Seen(customInput, out).tidy
    ensures var v := Seen(customInput, out);
            |v.args| == |v.calls| == |v.indices| && Spell(out, ArgsOut(n)) == ArgsOf(v, n)
  {
    if out != [] {
      var front := out[..|out| - 1];
      SeenTidy(customInput, out);
      ArgsSeen(customInput, front, n);
      SeeArgs(customInput, Seen(customInput, front), out[|out| - 1], n);
    }
  }

  // How a stream of chunks ends: failed if one of those heeded is an error, with all their text.
  predicate EndsFor(chunks: seq<Chunk>, last: Ev) {
    && (last.Failed? || last.Completed?) && (last.Failed? <==> AnyError(chunks))
    && last.message == (if Spell(chunks, ContentIn) == "" then None else Some(Spell(chunks, ContentIn)))
    && (last.Completed? ==> last.outputText == Spell(chunks, ContentIn))
  }

  /** A whole stream. The deltas say the content and the reasoning of the chunks before the end mark, and the last event
      repeats the content. */
  method StreamResponses(custom: string -> bool, customInput: string -> string, chunks: seq<Chunk>) returns (out: seq<Numbered>)
    ensures forall i :: 0 <= i < |out| ==> out[i].number == i
    ensures Closed(customInput, Told(custom, chunks), Seen(customInput, out))
    ensures out != [] && out[|out| - 1].ev == Terminal(customInput, Told(custom, chunks))
    ensures forall i :: 0 <= i < |out| - 1 ==> !IsTerminal(out[i].ev)
    ensures Spell(out, TextOut) == Spell(chunks[..Heeded(chunks)], ContentIn)
    ensures Spell(out, ReasoningOut) == Spell(chunks[..Heeded(chunks)], ReasoningIn)
    ensures EndsFor(chunks[..Heeded(chunks)], out[|out| - 1].ev)
  {
    var r := new Responder(custom, customInput);
    Listen(r, chunks);
    r.Finish(Told(custom, chunks));
    r.SeesAll();
    out := r.out;
    TextSeen(customInput, out);
    HeedsChunks(custom, chunks);
    NothingAfterTerminal(customInput, out);
  }

  // Nothing is heard after the end mark.
  lemma {:induction false} ToldOver(custom: string -> bool, chunks: seq<Chunk>, i: nat)
    requires i <= |chunks| && (i == |chunks| || Told(custom, chunks[..i]).over)
    ensures Told(custom, chunks) == Told(custom, chunks[..i])
  {
    if i == |chunks| {
      assert chunks[..i] == chunks;
    } else {
      var init := chunks[..|chunks| - 1];
      assert init[..i] == chunks[..i];
      ToldOver(custom, init, i);
    }
  }

  predicate IsTerminal(e: Ev) {
    e.Completed? || e.Failed?
  }

  lemma SeeTidy(customInput: string -> string, v: View, e: Ev)
    ensures See(customInput, v, e).tidy ==> v.tidy && !v.ended
    ensures See(customInput, v, e).tidy && IsTerminal(e) ==> See(customInput, v, e).ended
  {
  }

  // A tidy stream was tidy before its last event, and not over.
  lemma {:induction false} SeenTidy(customInput: string -> string, out: seq<Numbered>)
    requires out != [] && Seen(customInput, out).tidy
    ensures var v := Seen(customInput, out[..|out| - 1]); v.tidy && !v.ended
    ensures IsTerminal(out[|out| - 1].ev) ==> Seen(customInput, out).ended
  {
    SeeTidy(customInput, Seen(customInput, out[..|out| - 1]), out[|out| - 1].ev);
  }

  lemma {:induction false} TidyPrefix(customInput: string -> string, out: seq<Numbered>, n: nat)
    requires n < |out| && Seen(customInput, out).tidy
    ensures var v := Seen(customInput, out[..n]); v.tidy && !v.ended
    decreases |out|
  {
    var front := out[..|out| - 1];
    SeenTidy(customInput, out);
    if n < |front| {
      TidyPrefix(customInput, front, n);
      assert front[..n] == out[..n];
    }
  }

  /** A tidy stream has no terminal event before its last event. */
  lemma {:induction false} NothingAfterEnd(customInput: string -> string, out: seq<Numbered>, i: nat)
    requires Seen(customInput, out).tidy && i < |out| - 1
    ensures !IsTerminal(out[i].ev)
  {
    TidyPrefix(customInput, out, i + 1);
    SeenTidy(customInput, out[..i + 1]);
  }

  lemma {:induction false} NothingAfterTerminal(customInput: string -> string, out: seq<Numbered>)
    requires Seen(customInput, out).tidy
    ensures forall i :: 0 <= i < |out| - 1 ==> !IsTerminal(out[i].ev)
  {
    forall i | 0 <= i < |out| - 1
      ensures !IsTerminal(out[i].ev)
    {
      NothingAfterEnd(customInput, out, i);
    }
  }

  lemma HearTextSplit(h: Heard, content: string, reasoning: string)
    ensures HearText(HearText(h, content, ""), "", reasoning) == HearText(h, content, reasoning)
  {
    assert h.reasoning + "" + reasoning == h.reasoning + reasoning;
    assert h.text + content + "" == h.text + content;
  }
}
