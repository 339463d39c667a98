/** Which item of a Responses stream the fragments of a tool call end up in (internal/api/responses.go): items
    are numbered by arrival, fragments carry the index of their call. */
module ResponsesCalls {
  import opened Spelling
  import opened ResponsesStream

  /** The items that the first n fragments open. */
  function Items(fs: seq<CallDelta>, n: nat): (k: nat)
    requires n <= |fs|
    ensures k <= n
  {
    if n == 0 then 0
    else
      var before := Items(fs, n - 1);
      if fs[n - 1].index < before then before else before + 1
  }

  /** The item the i-th fragment ends up in. */
  function Owner(fs: seq<CallDelta>, i: nat): nat
    requires i < |fs|
  {
    Goes(Items(fs, i), fs[i])
  }

  /** The fragment's index skips one: it opens an item numbered lower than its index. */
  predicate Stray(fs: seq<CallDelta>, i: nat)
    requires i < |fs|
  {
    fs[i].index > Items(fs, i)
  }

  ghost predicate Gap(fs: seq<CallDelta>) {
    exists i :: 0 <= i < |fs| && Stray(fs, i)
  }

  /** The fragment brings arguments for an item that is not the last one opened. */
  predicate Crosses(fs: seq<CallDelta>, i: nat)
    requires i < |fs|
  {
    fs[i].args != "" && fs[i].index + 1 < Items(fs, i)
  }

  ghost predicate AnyCross(fs: seq<CallDelta>) {
    exists i :: 0 <= i < |fs| && Crosses(fs, i)
  }

  /** The arguments of the first n fragments that ended up in one item. */
  function ItemArgs(fs: seq<CallDelta>, n: nat, k: nat): string
    requires n <= |fs|
  {
    if n == 0 then "" else ItemArgs(fs, n - 1, k) + (if Owner(fs, n - 1) == k then fs[n - 1].args else "")
  }

  /** The arguments of the first n fragments that carried one index. */
  function IndexArgs(fs: seq<CallDelta>, n: nat, index: nat): string
    requires n <= |fs|
  {
    if n == 0 then "" else IndexArgs(fs, n - 1, index) + (if fs[n - 1].index == index then fs[n - 1].args else "")
  }

  // ---------------------------------------------------------------- what the stream collects

  function Collected(custom: string -> bool, fs: seq<CallDelta>, n: nat): (r: seq<Pending>)
    requires n <= |fs|
    ensures |r| == Items(fs, n)
  {
    if n == 0 then [] else Join(custom, Collected(custom, fs, n - 1), fs[n - 1])
  }

  // The fragment that opened an item.
  ghost predicate OpenedBy(fs: seq<CallDelta>, k: nat, i: nat)
    requires i < |fs|
  {
    Items(fs, i) == k && Owner(fs, i) == k
  }

  /** An item holds the arguments of the fragments it owns, in order, under the name of the first. */
  lemma {:induction false} ItemHolds(custom: string -> bool, fs: seq<CallDelta>, n: nat, k: nat) returns (opener: nat)
    requires n <= |fs| && k < Items(fs, n)
    ensures Collected(custom, fs, n)[k].args == ItemArgs(fs, n, k)
    ensures opener < n && OpenedBy(fs, k, opener) 
    ensures Collected(custom, fs, n)[k].meta == Meta(custom(fs[opener].name), fs[opener].id, fs[opener].name)
  {
    if k < Items(fs, n - 1) {
      opener := ItemHolds(custom, fs, n - 1, k);
      assert ItemArgs(fs, n - 1, k) + "" == ItemArgs(fs, n - 1, k);
    } else {
      opener := n - 1;
      NothingBefore(fs, n - 1, k);
    }
  }

  lemma {:induction false} NothingBefore(fs: seq<CallDelta>, n: nat, k: nat)
    requires n <= |fs| && Items(fs, n) <= k
    ensures ItemArgs(fs, n, k) == ""
  {
    if n > 0 {
      NothingBefore(fs, n - 1, k);
    }
  }

  /** The fragments of a stream, up to its end mark. */
  function Fragments(chunks: seq<Chunk>): seq<CallDelta> {
    if chunks == [] then []
    else
      var front, c := chunks[..|chunks| - 1], chunks[|chunks| - 1];
      Fragments(front) + (if c.Delta? && !Over(front) then c.calls else [])
  }

  function Over(chunks: seq<Chunk>): bool {
    chunks != [] && (Over(chunks[..|chunks| - 1]) || chunks[|chunks| - 1].DoneMark?)
  }

  // The state of a stream after these fragments.
  ghost predicate Holds(custom: string -> bool, fs: seq<CallDelta>, h: Heard) {
    h.calls == Collected(custom, fs, |fs|) && (h.gap <==> Gap(fs)) && (h.crossed <==> AnyCross(fs))
  }

  lemma {:induction false} CollectedPrefix(custom: string -> bool, fs: seq<CallDelta>, gs: seq<CallDelta>, n: nat)
    requires n <= |fs| <= |gs| && fs == gs[..|fs|]
    ensures Items(gs, n) == Items(fs, n) && Collected(custom, gs, n) == Collected(custom, fs, n)
  {
    if n > 0 {
      CollectedPrefix(custom, fs, gs, n - 1);
    }
  }

  lemma {:induction false} GapMore(fs: seq<CallDelta>, c: CallDelta)
    ensures Items(fs + [c], |fs|) == Items(fs, |fs|)
    ensures Gap(fs + [c]) <==> Gap(fs) || c.index > Items(fs, |fs|)
    ensures AnyCross(fs + [c]) <==> AnyCross(fs) || (c.args != "" && c.index + 1 < Items(fs, |fs|))
  {
    var gs := fs + [c];
    forall i | 0 <= i <= |fs|
      ensures Items(gs, i) == Items(fs, i)
    {
      CollectedPrefix(_ => false, fs, gs, i);
    }
    assert gs[|fs|] == c && forall i :: 0 <= i < |fs| ==> gs[i] == fs[i];
    if Gap(fs) {
      var i :| 0 <= i < |fs| && Stray(fs, i);
      assert Stray(gs, i);
    }
    if AnyCross(fs) {
      var i :| 0 <= i < |fs| && Crosses(fs, i);
      assert Crosses(gs, i);
    }
    if Gap(gs) {
      var i :| 0 <= i < |gs| && Stray(gs, i);
      assert i == |fs| || Stray(fs, i);
    }
    if AnyCross(gs) {
      var i :| 0 <= i < |gs| && Crosses(gs, i);
      assert i == |fs| || Crosses(fs, i);
    }
    assert Stray(gs, |fs|) <==> c.index > Items(fs, |fs|);
    assert Crosses(gs, |fs|) <==> c.args != "" && c.index + 1 < Items(fs, |fs|);
  }

  lemma {:induction false} OneFragment(custom: string -> bool, fs: seq<CallDelta>, h: Heard, c: CallDelta)
    requires Holds(custom, fs, h)
    ensures Holds(custom, fs + [c], HearCall(custom, h, c))
  {
    CollectedPrefix(custom, fs, fs + [c], |fs|);
    GapMore(fs, c);
  }

  lemma {:induction false} MoreFragments(custom: string -> bool, fs: seq<CallDelta>, h: Heard, cs: seq<CallDelta>)
    requires Holds(custom, fs, h)
    ensures Holds(custom, fs + cs, HearCalls(custom, h, cs))
  {
    if cs == [] {
      assert fs + cs == fs;
    } else {
      var front, c := cs[..|cs| - 1], cs[|cs| - 1];
      MoreFragments(custom, fs, h, front);
      OneFragment(custom, fs + front, HearCalls(custom, h, front), c);
      assert fs + cs == fs + front + [c];
    }
  }

  lemma OneChunk(custom: string -> bool, fs: seq<CallDelta>, h: Heard, c: Chunk)
    requires Holds(custom, fs, h)
    ensures Holds(custom, fs + (if c.Delta? && !h.over then c.calls else []), Hear(custom, h, c))
    ensures Hear(custom, h, c).over == (h.over || c.DoneMark?)
  {
    if c.Delta? && !h.over {
      MoreFragments(custom, fs, HearText(h, c.content, c.reasoning), c.calls);
    } else {
      assert fs + [] == fs;
    }
  }

  /** The calls of a stream are those its fragments add up to. */
  lemma {:induction false} StreamCollects(custom: string -> bool, chunks: seq<Chunk>)
    ensures Holds(custom, Fragments(chunks), Told(custom, chunks))
    ensures Told(custom, chunks).over == Over(chunks)
  {
    if chunks != [] {
      var front, c := chunks[..|chunks| - 1], chunks[|chunks| - 1];
      StreamCollects(custom, front);
      OneChunk(custom, Fragments(front), Told(custom, front), c);
    }
  }

  /** A closed stream has the items the fragments open, and no item's place ever changed if and only if neither did the
      first text come after a call nor arguments for a call not opened last. */
  lemma {:induction false} ItemsDelivered(custom: string -> bool, customInput: string -> string, chunks: seq<Chunk>, v: View)
    requires Closed(customInput, Told(custom, chunks), v)
    ensures |v.calls| == Items(Fragments(chunks), |Fragments(chunks)|)
    ensures v.steady <==> !AnySpeaksLate(chunks[..Heeded(chunks)]) && !AnyCross(Fragments(chunks))
  {
    StreamCollects(custom, chunks);
    HeedsChunks(custom, chunks);
  }

  /** Each of them says, under the name of the fragment that opened it, what the fragments it owns brought; and so do
      the argument deltas that name it. */
  lemma {:induction false} ArgumentsDelivered(custom: string -> bool, customInput: string -> string, chunks: seq<Chunk>,
                                              out: seq<ResponsesStream.Numbered>, k: nat) returns (opener: nat)
    requires Closed(customInput, Told(custom, chunks), Seen(customInput, out))
    requires k < |Seen(customInput, out).calls|
    ensures var fs := Fragments(chunks);
            && opener < |fs| && OpenedBy(fs, k, opener)
            && Seen(customInput, out).calls[k] == Meta(custom(fs[opener].name), fs[opener].id, fs[opener].name)
            && Spell(out, ArgsOut(k)) == ItemArgs(fs, |fs|, k)
  {
    var fs := Fragments(chunks);
    StreamCollects(custom, chunks);
    ArgsSeen(customInput, out, k);
    opener := ItemHolds(custom, fs, |fs|, k);
  }

  // ---------------------------------------------------------------- one item for each call

  ghost predicate Numbered(fs: seq<CallDelta>) {
    forall i :: 0 <= i < |fs| ==> Owner(fs, i) == fs[i].index
  }

  /** Every fragment ends up in the item numbered like its index exactly when no index skips one. */
  lemma NumberedByIndex(fs: seq<CallDelta>)
    ensures Numbered(fs) <==> !Gap(fs)
  {
    if i :| 0 <= i < |fs| && Stray(fs, i) {
      assert Owner(fs, i) != fs[i].index;
    } else {
      forall i | 0 <= i < |fs|
        ensures Owner(fs, i) == fs[i].index
      {
        assert !Stray(fs, i);
      }
    }
  }

  lemma {:induction false} SameArgs(fs: seq<CallDelta>, n: nat, k: nat)
    requires n <= |fs| && Numbered(fs)
    ensures ItemArgs(fs, n, k) == IndexArgs(fs, n, k)
  {
    if n > 0 {
      SameArgs(fs, n - 1, k);
    }
  }

  lemma {:induction false} ItemPerIndex(custom: string -> bool, fs: seq<CallDelta>, k: nat)
    requires Numbered(fs) && k < Items(fs, |fs|)
    ensures Collected(custom, fs, |fs|)[k].args == IndexArgs(fs, |fs|, k)
    ensures exists i :: 0 <= i < |fs| && fs[i].index == k
  {
    var opener := ItemHolds(custom, fs, |fs|, k);
    SameArgs(fs, |fs|, k);
    assert fs[opener].index == k;
  }

  /** In a stream without a gap, and in no other, each fragment's item has the number of its index; then item
      k is that of the call of index k, and holds all the arguments that came for it. */
  lemma {:induction false} ItemPerCall(custom: string -> bool, chunks: seq<Chunk>)
    ensures var fs, h := Fragments(chunks), Told(custom, chunks);
            && (Numbered(fs) <==> !h.gap)
            && (!h.gap ==> forall k :: 0 <= k < |h.calls| ==>
                  h.calls[k].args == IndexArgs(fs, |fs|, k) && exists i :: 0 <= i < |fs| && fs[i].index == k)
  {
    var fs, h := Fragments(chunks), Told(custom, chunks);
    StreamCollects(custom, chunks);
    NumberedByIndex(fs);
    if !h.gap {
      forall k | 0 <= k < |h.calls|
        ensures h.calls[k].args == IndexArgs(fs, |fs|, k) && exists i :: 0 <= i < |fs| && fs[i].index == k
      {
        ItemPerIndex(custom, fs, k);
      }
    }
  }

  // Two fragments share an item exactly if they share an index.
  ghost predicate Fair(fs: seq<CallDelta>, i: nat, j: nat)
    requires i < |fs| && j < |fs|
  {
    Owner(fs, i) == Owner(fs, j) <==> fs[i].index == fs[j].index
  }

  /** Each call index has exactly one item, to itself. */
  ghost predicate OneToOne(fs: seq<CallDelta>) {
    forall i, j :: 0 <= i < j < |fs| ==> Fair(fs, i, j)
  }

  // A fragment is not stray, or it does no harm: it is alone with its index, and no later one has the number
  // of its item.
  ghost predicate Harmless(fs: seq<CallDelta>, i: nat)
    requires i < |fs|
  {
    Stray(fs, i) ==> forall j :: 0 <= j < |fs| && j != i ==> fs[j].index != fs[i].index && (j > i ==> fs[j].index != Items(fs, i))
  }

  lemma {:induction false} ItemsGrow(fs: seq<CallDelta>, i: nat, j: nat)
    requires i < j <= |fs|
    ensures Items(fs, i) <= Items(fs, j) && Owner(fs, i) < Items(fs, j)
    decreases j
  {
    if i < j - 1 {
      ItemsGrow(fs, i, j - 1);
    }
  }

  /** That is so if and only if every stray fragment is harmless; so always without a gap. */
  lemma OneItemEach(fs: seq<CallDelta>)
    ensures OneToOne(fs) <==> forall i :: 0 <= i < |fs| ==> Harmless(fs, i)
    ensures !Gap(fs) ==> OneToOne(fs)
  {
    if OneToOne(fs) {
      forall i | 0 <= i < |fs|
        ensures Harmless(fs, i)
      {
        StrayAlone(fs, i);
      }
    }
    if forall i :: 0 <= i < |fs| ==> Harmless(fs, i) {
      AllFair(fs);
    }
    if !Gap(fs) {
      forall i | 0 <= i < |fs|
        ensures Harmless(fs, i)
      {
        assert !Stray(fs, i);
      }
      AllFair(fs);
    }
  }

  lemma AllFair(fs: seq<CallDelta>)
    requires forall i :: 0 <= i < |fs| ==> Harmless(fs, i)
    ensures OneToOne(fs)
  {
    forall i, j | 0 <= i < j < |fs|
      ensures Fair(fs, i, j)
    {
      HarmlessPair(fs, i, j);
    }
  }

  lemma StrayAlone(fs: seq<CallDelta>, i: nat)
    requires i < |fs| && OneToOne(fs)
    ensures Harmless(fs, i)
  {
    if Stray(fs, i) {
      forall j | 0 <= j < |fs| && j != i
        ensures fs[j].index != fs[i].index && (j > i ==> fs[j].index != Items(fs, i))
      {
        if j < i {
          assert Fair(fs, j, i);
          ItemsGrow(fs, j, i);
        } else {
          assert Fair(fs, i, j);
          ItemsGrow(fs, i, j);
        }
      }
    }
  }

  lemma HarmlessPair(fs: seq<CallDelta>, i: nat, j: nat)
    requires i < j < |fs| && Harmless(fs, i) && Harmless(fs, j)
    ensures Fair(fs, i, j)
  {
    ItemsGrow(fs, i, j);
  }

  // ---------------------------------------------------------------- streams that go wrong

  function Fragment(index: nat, id: string, name: string, args: string): Chunk {
    Delta("", "", [CallDelta(index, id, name, args)])
  }

  lemma HearFragment(custom: string -> bool, h: Heard, c: CallDelta)
    requires !h.over
    ensures Hear(custom, h, Delta("", "", [c])) == HearCall(custom, h, c)
  {
    NothingSaid(h);
    assert [c][..0] == [];
    assert HearCalls(custom, h, [c]) == HearCall(custom, HearCalls(custom, h, []), c);
  }

  lemma {:induction false} ToldOneMore(custom: string -> bool, chunks: seq<Chunk>, c: Chunk)
    ensures Told(custom, chunks + [c]) == Hear(custom, Told(custom, chunks), c)
  {
    assert (chunks + [c])[..|chunks|] == chunks;
  }

  /** A call that arrives twice under index 1, as its start and then its arguments, with nothing under index 0,
      becomes two items with the same call id: one without arguments, one with. */
  lemma SplitCall(custom: string -> bool)
    ensures var h := Told(custom, [Fragment(1, "id", "Bash", ""), Fragment(1, "id", "Bash", "{}")]);
            && h.gap && !h.late && !h.crossed && |h.calls| == 2
            && h.calls[0] == Pending(Meta(custom("Bash"), "id", "Bash"), "")
            && h.calls[1] == Pending(Meta(custom("Bash"), "id", "Bash"), "{}")
  {
    var c, d := CallDelta(1, "id", "Bash", ""), CallDelta(1, "id", "Bash", "{}");
    HearFragment(custom, SILENCE, c);
    HearFragment(custom, HearCall(custom, SILENCE, c), d);
    ToldOneMore(custom, [], Delta("", "", [c]));
    ToldOneMore(custom, [Delta("", "", [c])], Delta("", "", [d]));
    assert [] + [Delta("", "", [c])] == [Delta("", "", [c])];
    assert [Delta("", "", [c])] + [Delta("", "", [d])] == [Fragment(1, "id", "Bash", ""), Fragment(1, "id", "Bash", "{}")];
    assert "" + "{}" == "{}";
  }

  /** A gap alone splits nothing: a single fragment has its item to itself, under another number. */
  lemma LoneStray(c: CallDelta)
    requires c.index > 0
    ensures Gap([c]) && OneToOne([c]) && Owner([c], 0) == 0
  {
    assert Stray([c], 0);
  }

  /** Two calls are named, then the first gets its arguments: they go out under the place of the second, though
      no text ever came, and however the stream goes on in the client's view it is not steady. */
  lemma InterleavedCallsUnsteady(custom: string -> bool, customInput: string -> string, args: string)
    requires args != ""
    ensures var a, b := CallDelta(0, "a", "A", ""), CallDelta(1, "b", "B", "");
            var c := CallDelta(0, "a", "A", args);
            var h := HearCall(custom, HearCall(custom, SILENCE, a), b);
            && CallEvents(custom, false, [], a) == [ItemAdded(Call(0), Meta(custom("A"), "a", "A"), 0)]
            && CallEvents(custom, false, h.calls, c) == [ArgsDelta(Call(0), custom("A"), 1, args)]
            && HearCall(custom, h, c).crossed && !HearCall(custom, h, c).late
            && forall v :: Closed(customInput, HearCall(custom, h, c), v) ==> !v.steady
  {
  }

  /** A call and then the first text: the call is done under another place than it was added with. */
  lemma LateTextUnsteady(custom: string -> bool, customInput: string -> string, text: string)
    requires text != ""
    ensures var h := HearText(HearCall(custom, SILENCE, CallDelta(0, "a", "A", "")), text, "");
            h.late && !h.crossed && forall v :: Closed(customInput, h, v) ==> !v.steady
    ensures FcOutputIndex(false, 0) == 0 && FcOutputIndex(true, 0) == 1
  {
    assert "" + text == text;
  }

  /** Reasoning alone names an item that is never added, at the place of the first call. */
  lemma EarlyReasoning(custom: string -> bool, customInput: string -> string, why: string)
    requires why != ""
    ensures var h := HearCall(custom, HearText(SILENCE, "", why), CallDelta(0, "a", "A", ""));
            h.early && forall v :: Closed(customInput, h, v) ==> !v.named && v.stage.NoItem? && v.indices[0] == 0
  {
    assert SILENCE.text + "" == "";
  }
}
