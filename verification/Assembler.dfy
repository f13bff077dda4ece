/**
 * Assembling streamed chunks into content blocks, one partial per block index, and the stream
 * grammar that a validated provider stream obeys.
 */
module Assembler {
  import opened Options

  datatype BlockType = TextType | ReasoningType | ToolCallType | OtherType(kind: nat)

  datatype Block =
    | Text(text: string)
    | Reasoning(text: string)
    | ToolCall(id: string, name: string, arguments: string)
    | Other(kind: nat)

  function TypeOf(block: Block): BlockType {
    match block
    case Text(_) => TextType
    case Reasoning(_) => ReasoningType
    case ToolCall(_, _, _) => ToolCallType
    case Other(kind) => OtherType(kind)
  }

  datatype FinishReason = Stop | ToolCalls | MaxTokens | Error | Aborted

  /** Replay metadata of a response; per-block entries are optional. */
  datatype Envelope = Envelope(response: nat, blocks: Option<seq<nat>>)

  datatype Chunk =
    | BlockStart(index: int, blockType: BlockType)
    | TextDelta(index: int, text: string)
    | ReasoningDelta(index: int, text: string)
    | ToolCallDelta(index: int, id: string, name: string, argumentsDelta: string)
    | BlockEnd(index: int, block: Block)
    | Usage(usage: nat)
    | Finish(reason: FinishReason, replay: Option<Envelope>)

  predicate Addresses(c: Chunk, index: int) {
    !c.Usage? && !c.Finish? && c.index == index
  }

  datatype Partial = Partial(blockType: BlockType, text: string, id: Option<string>, name: Option<string>,
      arguments: string, block: Option<Block>)

  // ----- one index -----

  /** The type a chunk gives a partial it creates. */
  function CreatedType(c: Chunk): BlockType
    requires !c.Usage? && !c.Finish?
  {
    match c
    case BlockStart(_, blockType) => blockType
    case TextDelta(_, _) => TextType
    case ReasoningDelta(_, _) => ReasoningType
    case ToolCallDelta(_, _, _, _) => ToolCallType
    case BlockEnd(_, block) => TypeOf(block)
  }

  function Fresh(blockType: BlockType): Partial {
    Partial(blockType, "", None, None, "", None)
  }

  /** What a chunk does to the partial of its index. */
  function Fed(p: Option<Partial>, c: Chunk): Partial
    requires !c.Usage? && !c.Finish?
  {
    var partial := p.GetOr(Fresh(CreatedType(c)));
    if partial.block.Some? then partial
    else
      match c
      case BlockStart(_, _) => partial
      case TextDelta(_, text) => partial.(text := partial.text + text)
      case ReasoningDelta(_, text) => partial.(text := partial.text + text)
      case ToolCallDelta(_, id, name, delta) =>
        partial.(id := Some(id), name := if name != "" then Some(name) else partial.name,
            arguments := partial.arguments + delta)
      case BlockEnd(_, block) => partial.(block := Some(block))
  }

  /** The chunks of one index, in stream order. */
  function Own(chunks: seq<Chunk>, index: int): (own: seq<Chunk>)
    ensures forall c | c in own :: Addresses(c, index)
  {
    if chunks == [] then []
    else
      var last := chunks[|chunks| - 1];
      Own(chunks[..|chunks| - 1], index) + (if Addresses(last, index) then [last] else [])
  }

  /** The partial that an index's own chunks make. */
  function PartialOf(own: seq<Chunk>): (p: Option<Partial>)
    requires forall c | c in own :: !c.Usage? && !c.Finish?
    ensures p.Some? <==> own != []
  {
    if own == [] then None
    else
      assert forall c | c in own[..|own| - 1] :: c in own;
      Some(Fed(PartialOf(own[..|own| - 1]), own[|own| - 1]))
  }

  /** The chunks before an index's first `block-end`. */
  function Open(own: seq<Chunk>): seq<Chunk> {
    if own == [] || own[0].BlockEnd? then [] else [own[0]] + Open(own[1..])
  }

  function FirstEnd(own: seq<Chunk>): Option<Block> {
    if own == [] then None else if own[0].BlockEnd? then Some(own[0].block) else FirstEnd(own[1..])
  }

  function Texts(own: seq<Chunk>): string {
    if own == [] then ""
    else Texts(own[..|own| - 1]) + (if own[|own| - 1].TextDelta?
        || own[|own| - 1].ReasoningDelta? then own[|own| - 1].text else "")
  }

  function Arguments(own: seq<Chunk>): string {
    if own == [] then ""
    else Arguments(own[..|own| - 1]) + (if own[|own| - 1].ToolCallDelta? then own[|own| - 1].argumentsDelta else "")
  }

  function LastId(own: seq<Chunk>): Option<string> {
    if own == [] then None else if own[|own| - 1].ToolCallDelta? then Some(own[|own| - 1].id)
    else LastId(own[..|own| - 1])
  }

  function LastName(own: seq<Chunk>): Option<string> {
    if own == [] then None
    else if own[|own| - 1].ToolCallDelta? && own[|own| - 1].name != "" then Some(own[|own| - 1].name)
    else LastName(own[..|own| - 1])
  }

  lemma {:induction false} OpenNext(own: seq<Chunk>, c: Chunk)
    ensures Open(own + [c]) == if FirstEnd(own).Some? || c.BlockEnd? then Open(own) else Open(own) + [c]
    ensures FirstEnd(own + [c]) ==
          if FirstEnd(own).Some? then FirstEnd(own) else if c.BlockEnd? then Some(c.block) else None
  {
    if own == [] {
      assert own + [c] == [c];
      assert [c][1..] == [];
    } else {
      var next, rest := own + [c], own[1..];
      assert next[0] == own[0] && next[1..] == rest + [c];
      OpenNext(rest, c);
      assert [own[0]] + (Open(rest) + [c]) == [own[0]] + Open(rest) + [c];
    }
  }

  /**
   * What a partial means: its type is its first chunk's, its first `block-end` wins and freezes it,
   * and until then its deltas are concatenated, with the latest id and the latest non-empty name.
   */
  lemma {:induction false} PartialMeans(own: seq<Chunk>)
    requires own != [] && forall c | c in own :: !c.Usage? && !c.Finish?
    ensures PartialOf(own) ==
            Some(Meaning(CreatedType(own[0]), Open(own), FirstEnd(own)))
  {
    hide Open, FirstEnd, Texts, Arguments, LastId, LastName;
    var init, c := own[..|own| - 1], own[|own| - 1];
    assert own == init + [c];
    assert forall d | d in init :: d in own;
    OpenNext(init, c);
    if init == [] {
      OpenNothing(CreatedType(c));
      FedMeans(CreatedType(c), [], None, c);
    } else {
      PartialMeans(init);
      FedMeans(CreatedType(init[0]), Open(init), FirstEnd(init), c);
    }
  }

  function Meaning(blockType: BlockType, open: seq<Chunk>, end: Option<Block>): Partial {
    Partial(blockType, Texts(open), LastId(open), LastName(open), Arguments(open), end)
  }

  lemma OpenNothing(blockType: BlockType)
    ensures Open([]) == [] && FirstEnd([]) == None && Meaning(blockType, [], None) == Fresh(blockType)
  {
  }

  lemma FedMeans(blockType: BlockType, open: seq<Chunk>, end: Option<Block>, c: Chunk)
    requires !c.Usage? && !c.Finish?
    ensures Fed(Some(Meaning(blockType, open, end)), c) ==
            (if end.Some? then Meaning(blockType, open, end)
             else if c.BlockEnd? then Meaning(blockType, open, Some(c.block))
             else Meaning(blockType, open + [c], None))
  {
  }

  // ----- a whole stream -----

  /** The indices of a stream in order of first appearance. */
  function FirstSeen(chunks: seq<Chunk>): seq<int> {
    if chunks == [] then []
    else
      var before, c := FirstSeen(chunks[..|chunks| - 1]), chunks[|chunks| - 1];
      if c.Usage? || c.Finish? || c.index in before then before else before + [c.index]
  }

  lemma {:induction false} SeenIsOwn(chunks: seq<Chunk>, index: int)
    ensures index in FirstSeen(chunks) <==> Own(chunks, index) != []
  {
    if chunks != [] {
      SeenIsOwn(chunks[..|chunks| - 1], index);
    }
  }

  lemma {:induction false} SeenOnce(chunks: seq<Chunk>)
    ensures forall i, j | 0 <= i < j < |FirstSeen(chunks)| :: FirstSeen(chunks)[i] != FirstSeen(chunks)[j]
  {
    if chunks != [] {
      SeenOnce(chunks[..|chunks| - 1]);
    }
  }

  /** The stream's first chunk of this index. */
  ghost predicate FirstAt(chunks: seq<Chunk>, index: int, p: nat) {
    p < |chunks| && Addresses(chunks[p], index) && forall m | 0 <= m < p :: !Addresses(chunks[m], index)
  }

  /** The indices are listed exactly once each, by their first chunks. */
  lemma {:induction false} SeenInOrder(chunks: seq<Chunk>)
    ensures forall index :: index in FirstSeen(chunks) <==> exists p: nat :: FirstAt(chunks, index, p)
    ensures forall i, j, p: nat, q: nat | 0 <= i < j < |FirstSeen(chunks)|
              && FirstAt(chunks, FirstSeen(chunks)[i], p) && FirstAt(chunks, FirstSeen(chunks)[j], q) :: p < q
  {
    if chunks != [] {
      var last := |chunks| - 1;
      var init, seen := chunks[..last], FirstSeen(chunks[..last]);
      SeenInOrder(init);
      forall index, p: nat
        ensures FirstAt(chunks, index, p)
          == (FirstAt(init, index, p) || (p == last && Addresses(chunks[last], index) && index !in seen)) {
        FirstAtNext(chunks, index, p);
      }
      hide FirstAt;
      forall index ensures index in FirstSeen(chunks) <==> exists p: nat :: FirstAt(chunks, index, p) {
        if index in seen {
          var p: nat :| FirstAt(init, index, p);
          assert FirstAt(chunks, index, p);
        } else if Addresses(chunks[last], index) {
          assert FirstAt(chunks, index, last);
        }
      }
      forall i, j, p: nat, q: nat | 0 <= i < j < |FirstSeen(chunks)|
          && FirstAt(chunks, FirstSeen(chunks)[i], p) && FirstAt(chunks, FirstSeen(chunks)[j], q) ensures p < q {
        FirstAtBefore(init, FirstSeen(chunks)[i], p);
      }
    }
  }

  lemma FirstAtBefore(chunks: seq<Chunk>, index: int, p: nat)
    ensures FirstAt(chunks, index, p) ==> p < |chunks|
  {
  }

  lemma FirstAtNext(chunks: seq<Chunk>, index: int, p: nat)
    requires chunks != []
    requires var init := chunks[..|chunks| - 1]; index in FirstSeen(init) <==> exists q: nat :: FirstAt(init, index, q)
    ensures var init, last := chunks[..|chunks| - 1], |chunks| - 1;
            FirstAt(chunks, index, p) == (FirstAt(init, index, p)
                                          || (p == last && Addresses(chunks[last], index) && index !in FirstSeen(init)))
  {
    hide FirstSeen;
    var init, last := chunks[..|chunks| - 1], |chunks| - 1;
    if FirstAt(init, index, p) {
      forall m | 0 <= m < p ensures !Addresses(chunks[m], index) { assert chunks[m] == init[m]; }
    }
    if q: nat :| FirstAt(init, index, q) { assert chunks[q] == init[q]; }
    if !exists q: nat :: FirstAt(init, index, q) { NoneAddresses(init, index); }
    if FirstAt(chunks, index, p) && p < last {
      assert init[p] == chunks[p];
      forall m | 0 <= m < p ensures !Addresses(init[m], index) { assert chunks[m] == init[m]; }
    }
    assert forall m | 0 <= m < last :: chunks[m] == init[m];
  }

  lemma {:induction false} NoneAddresses(chunks: seq<Chunk>, index: int)
    requires !exists q: nat :: FirstAt(chunks, index, q)
    ensures forall m | 0 <= m < |chunks| :: !Addresses(chunks[m], index)
  {
    var n := 0;
    while n < |chunks|
      invariant n <= |chunks| && forall m | 0 <= m < n :: !Addresses(chunks[m], index)
    {
      if Addresses(chunks[n], index) { assert FirstAt(chunks, index, n); }
      n := n + 1;
    }
  }

  lemma OwnPartial(chunks: seq<Chunk>, index: int)
    ensures forall c | c in Own(chunks, index) :: !c.Usage? && !c.Finish?
  {
  }

  /** The last finish of a stream. */
  function LastFinish(chunks: seq<Chunk>): Option<Chunk> {
    if chunks == [] then None
    else if chunks[|chunks| - 1].Finish? then Some(chunks[|chunks| - 1])
    else LastFinish(chunks[..|chunks| - 1])
  }

  /** A block from a partial; an open partial of another type cannot be assembled. */
  function Assembled(p: Partial, callName: string): Option<Block> {
    if p.block.Some? then p.block
    else
      match p.blockType
      case TextType => Some(Text(p.text))
      case ReasoningType => Some(Reasoning(p.text))
      case ToolCallType => Some(ToolCall(p.id.GetOr(callName), p.name.GetOr(""), p.arguments))
      case OtherType(_) => None
  }

  /** The block of an index: a function of the chunks of that index alone. */
  function BlockAt(chunks: seq<Chunk>, index: int, names: int -> string): Option<Block> {
    OwnPartial(chunks, index);
    var p := PartialOf(Own(chunks, index));
    if p.None? then None else Assembled(p.value, names(index))
  }

  /**
   * What the block of a seen index is, by its own chunks: the payload of its first end; if it has
   * none, its concatenated deltas as a block of its first chunk's type, if that type has deltas.
   */
  lemma BlockMeans(chunks: seq<Chunk>, index: int, names: int -> string)
    requires Own(chunks, index) != []
    ensures var own := Own(chunks, index);
            var block := BlockAt(chunks, index, names);
            if FirstEnd(own).Some? then block == FirstEnd(own)
            else
              assert own[0] in own;
              match CreatedType(own[0])
              case TextType => block == Some(Text(Texts(Open(own))))
              case ReasoningType => block == Some(Reasoning(Texts(Open(own))))
              case ToolCallType =>
                block.Some? && block.value.ToolCall? && block.value.arguments == Arguments(Open(own))
                && block.value.id == LastId(Open(own)).GetOr(names(index))
                && block.value.name == LastName(Open(own)).GetOr("")
              case OtherType(_) => block.None?
  {
    OwnPartial(chunks, index);
    PartialMeans(Own(chunks, index));
  }

  /** All blocks of a stream in first-seen order, or nothing if one cannot be assembled. */
  function AllBlocks(chunks: seq<Chunk>, order: seq<int>, names: int -> string): (all: Option<seq<Block>>)
    ensures all.Some? <==> forall k | 0 <= k < |order| :: BlockAt(chunks, order[k], names).Some?
    ensures all.Some? ==>
              && |all.value| == |order|
              && forall k | 0 <= k < |order| :: BlockAt(chunks, order[k], names) == Some(all.value[k])
  {
    if order == [] then Some([])
    else
      var init := AllBlocks(chunks, order[..|order| - 1], names);
      var last := BlockAt(chunks, order[|order| - 1], names);
      if init.None? || last.None? then None else Some(init.value + [last.value])
  }

  /**
   * Two interleavings of the same per-index streams, with the same first appearances, assemble to
   * the same blocks.
   */
  lemma InterleavingIrrelevant(a: seq<Chunk>, b: seq<Chunk>, names: int -> string)
    requires FirstSeen(a) == FirstSeen(b) && forall index :: Own(a, index) == Own(b, index)
    ensures AllBlocks(a, FirstSeen(a), names) == AllBlocks(b, FirstSeen(b), names)
  {
    SameBlocks(a, b, FirstSeen(a), names);
  }

  lemma {:induction false} SameBlocks(a: seq<Chunk>, b: seq<Chunk>, order: seq<int>, names: int -> string)
    requires forall index :: Own(a, index) == Own(b, index)
    ensures AllBlocks(a, order, names) == AllBlocks(b, order, names)
  {
    if order != [] {
      SameBlocks(a, b, order[..|order| - 1], names);
      assert Own(a, order[|order| - 1]) == Own(b, order[|order| - 1]);
    }
  }

  // ----- pruning and replay -----

  /** The positions max-token truncation keeps: everything but tool calls. */
  function KeptPositions(all: seq<Block>): (kept: seq<nat>)
    ensures forall i | 0 <= i < |kept| :: kept[i] < |all| && !all[kept[i]].ToolCall?
    ensures forall p | 0 <= p < |all| && !all[p].ToolCall? :: p in kept
    ensures forall i, j | 0 <= i < j < |kept| :: kept[i] < kept[j]
  {
    if all == [] then []
    else
      var init := KeptPositions(all[..|all| - 1]);
      assert forall p | 0 <= p < |all| - 1 :: all[..|all| - 1][p] == all[p];
      if all[|all| - 1].ToolCall? then init else init + [|all| - 1]
  }

  function AllPositions(n: nat): (ps: seq<nat>)
    ensures |ps| == n && forall k | 0 <= k < n :: ps[k] == k
  {
    seq(n, k requires 0 <= k < n => k)
  }

  /** The positions that are emitted under a finish reason. */
  function Emitted(all: seq<Block>, reason: FinishReason): (kept: seq<nat>)
    ensures forall i | 0 <= i < |kept| :: kept[i] < |all|
  {
    if reason.MaxTokens? then KeptPositions(all) else AllPositions(|all|)
  }

  function At<T>(items: seq<T>, positions: seq<nat>): (picked: seq<T>)
    requires forall i | 0 <= i < |positions| :: positions[i] < |items|
    ensures |picked| == |positions| && forall i | 0 <= i < |positions| :: picked[i] == items[positions[i]]
  {
    seq(|positions|, i requires 0 <= i < |positions| => items[positions[i]])
  }

  /** The blocks other than tool calls, in order. */
  ghost predicate WithoutCalls(all: seq<Block>, kept: seq<Block>) {
    exists positions: seq<nat> ::
      && |positions| == |kept|
      && (forall i | 0 <= i < |positions| :: positions[i] < |all| && kept[i] == all[positions[i]] && !kept[i].ToolCall?)
      && (forall i, j | 0 <= i < j < |positions| :: positions[i] < positions[j])
      && (forall p | 0 <= p < |all| && !all[p].ToolCall? :: p in positions)
  }

  lemma KeptWithoutCalls(all: seq<Block>)
    ensures WithoutCalls(all, At(all, KeptPositions(all)))
  {
    var positions := KeptPositions(all);
    assert forall i | 0 <= i < |positions| :: At(all, positions)[i] == all[positions[i]];
  }

  lemma {:induction false} AtAll<T>(items: seq<T>)
    ensures At(items, AllPositions(|items|)) == items
  {
  }

  /** Truncation that keeps as many blocks as there are keeps them all. */
  lemma {:induction false} KeptAll(all: seq<Block>)
    ensures |KeptPositions(all)| <= |all|
    ensures |KeptPositions(all)| == |all| ==> KeptPositions(all) == AllPositions(|all|)
  {
    if all != [] {
      KeptAll(all[..|all| - 1]);
    }
  }

  /**
   * Replay metadata without entries passes; misaligned entries drop it; aligned entries are picked
   * with the blocks they describe.
   */
  function Replay(all: seq<Block>, envelope: Option<Envelope>, reason: FinishReason): Option<Envelope> {
    if envelope.None? || envelope.value.blocks.None? then envelope
    else if |envelope.value.blocks.value| != |all| then None
    else Some(Envelope(envelope.value.response, Some(At(envelope.value.blocks.value, Emitted(all, reason)))))
  }

  /**
   * Replay metadata is dropped exactly when it has entries for another number of blocks; entries that
   * are kept correspond one to one with the emitted blocks, each to the block it was written for.
   */
  lemma ReplayAligned(all: seq<Block>, envelope: Option<Envelope>, reason: FinishReason)
    ensures var replay := Replay(all, envelope, reason);
            && (replay.None? <==>
                  envelope.None? || (envelope.value.blocks.Some? && |envelope.value.blocks.value| != |all|))
            && (replay.Some? ==> replay.value.response == envelope.value.response
                                 && (replay.value.blocks.None? <==> envelope.value.blocks.None?))
    ensures var emitted := Emitted(all, reason);
            var replay := Replay(all, envelope, reason);
            replay.Some? && replay.value.blocks.Some? ==>
              && envelope.Some? && envelope.value.blocks.Some?
              && |replay.value.blocks.value| == |At(all, emitted)| == |emitted|
              && |envelope.value.blocks.value| == |all|
              && forall i | 0 <= i < |emitted| ::
                   replay.value.blocks.value[i] == envelope.value.blocks.value[emitted[i]]
                   && At(all, emitted)[i] == all[emitted[i]]
  {
  }

  // ----- interruption -----

  predicate Readable(b: Block) {
    b.Text? || b.Reasoning?
  }

  /** What an interrupted stream keeps of one partial: readable content that is not blank. */
  function Salvaged(p: Partial, blank: string -> bool): (kept: seq<Block>)
    ensures |kept| <= 1 && forall b | b in kept :: Readable(b) && !blank(b.text)
    ensures kept != [] <==> (exists b :: Assembled(p, "") == Some(b) && Readable(b) && !blank(b.text))
  {
    var block := Assembled(p, "");
    if block.Some? && Readable(block.value) && !blank(block.value.text) then [block.value] else []
  }

  function PartialAt(chunks: seq<Chunk>, index: int): Option<Partial> {
    OwnPartial(chunks, index);
    PartialOf(Own(chunks, index))
  }

  function Interrupted(chunks: seq<Chunk>, order: seq<int>, blank: string -> bool): (kept: seq<Block>)
    ensures forall b | b in kept :: Readable(b) && !blank(b.text)
  {
    if order == [] then []
    else
      var p := PartialAt(chunks, order[|order| - 1]);
      Interrupted(chunks, order[..|order| - 1], blank) + (if p.Some? then Salvaged(p.value, blank) else [])
  }

  /** The index has readable content that is not blank. */
  predicate Salvageable(chunks: seq<Chunk>, index: int, blank: string -> bool) {
    var block := BlockAt(chunks, index, _ => "");
    block.Some? && Readable(block.value) && !blank(block.value.text)
  }

  /** The blocks kept are those at `positions` of the order: the salvageable ones, in order. */
  ghost predicate Keeps(chunks: seq<Chunk>, order: seq<int>, blank: string -> bool, kept: seq<Block>,
      positions: seq<nat>)
  {
    && |positions| == |kept|
    && (forall i | 0 <= i < |positions| ::
          && positions[i] < |order| && Salvageable(chunks, order[positions[i]], blank)
          && BlockAt(chunks, order[positions[i]], _ => "") == Some(kept[i]))
    && (forall i, j | 0 <= i < j < |positions| :: positions[i] < positions[j])
    && (forall p | 0 <= p < |order| && Salvageable(chunks, order[p], blank) :: p in positions)
  }

  lemma KeepsNext(chunks: seq<Chunk>, order: seq<int>, index: int, blank: string -> bool, kept: seq<Block>,
      positions: seq<nat>)
    requires Keeps(chunks, order, blank, kept, positions)
    ensures if Salvageable(chunks, index, blank) then
              var block := BlockAt(chunks, index, _ => "");
              block.Some? && Keeps(chunks, order + [index], blank, kept + [block.value], positions + [|order|])
            else Keeps(chunks, order + [index], blank, kept, positions)
  {
    SalvagedIs(chunks, index, blank);
    hide BlockAt, Salvageable;
    assert forall p | 0 <= p < |order| :: (order + [index])[p] == order[p];
    assert forall p | p in positions :: p in positions + [|order|];
    assert |order| in positions + [|order|];
  }

  lemma InterruptedNext(chunks: seq<Chunk>, order: seq<int>, index: int, blank: string -> bool)
    ensures var block := BlockAt(chunks, index, _ => "");
            && (Salvageable(chunks, index, blank) ==> block.Some?)
            && Interrupted(chunks, order + [index], blank)
                 == Interrupted(chunks, order, blank)
                    + (if Salvageable(chunks, index, blank) then [block.value] else [])
  {
    hide BlockAt, Salvageable, Salvaged, PartialAt;
    SalvagedIs(chunks, index, blank);
    assert (order + [index])[..|order|] == order;
  }

  /** What an interruption keeps are exactly the readable blocks that are not blank, in first-seen order. */
  lemma {:induction false} InterruptedMeans(chunks: seq<Chunk>, order: seq<int>, blank: string -> bool)
      returns (positions: seq<nat>)
    ensures Keeps(chunks, order, blank, Interrupted(chunks, order, blank), positions)
  {
    if order == [] {
      positions := [];
    } else {
      hide BlockAt, Salvageable, Keeps, Interrupted;
      var last := |order| - 1;
      var init := order[..last];
      assert init + [order[last]] == order;
      positions := InterruptedMeans(chunks, init, blank);
      InterruptedNext(chunks, init, order[last], blank);
      KeepsNext(chunks, init, order[last], blank, Interrupted(chunks, init, blank), positions);
      assert Interrupted(chunks, init, blank) + [] == Interrupted(chunks, init, blank);
      if Salvageable(chunks, order[last], blank) { positions := positions + [last]; }
    }
  }

  lemma SalvagedIs(chunks: seq<Chunk>, index: int, blank: string -> bool)
    ensures var p, block := PartialAt(chunks, index), BlockAt(chunks, index, _ => "");
            (if p.Some? then Salvaged(p.value, blank) else [])
              == (if Salvageable(chunks, index, blank) then [block.value] else [])
            && (Salvageable(chunks, index, blank) ==> block.Some?)
  {
  }

  // ----- the assembler -----

  class BlockAssembler {
    var partials: map<int, Partial>
    var order: seq<int>
    var usage: Option<nat>
    var finish: Option<Chunk>
    ghost var pushed: seq<Chunk>

    ghost predicate Valid()
      reads this
    {
      Matches(pushed, partials, order, finish)
    }

    constructor ()
      ensures Valid() && pushed == []
    {
      partials, order, usage, finish, pushed := map[], [], None, None, [];
    }

    method Ensure(index: int, blockType: BlockType) returns (partial: Partial)
      modifies `partials, `order
      ensures partial == (if index in old(partials) then old(partials)[index] else Fresh(blockType))
      ensures partials == old(partials)[index := partial]
      ensures order == if index in old(partials) then old(order) else old(order) + [index]
    {
      if index in partials {
        partial := partials[index];
        assert partials == partials[index := partial];
      } else {
        partial := Fresh(blockType);
        partials := partials[index := partial];
        order := order + [index];
      }
    }

    /** Feed one chunk. */
    method Push(chunk: Chunk)
      requires Valid()
      modifies this
      ensures Valid() && pushed == old(pushed) + [chunk]
      ensures usage == if chunk.Usage? then Some(chunk.usage) else old(usage)
      ensures finish == if chunk.Finish? then Some(chunk) else old(finish)
      ensures order == if chunk.Usage? || chunk.Finish? || chunk.index in old(order) then old(order)
                       else old(order) + [chunk.index]
    {
      hide Matches;
      MatchesNext(pushed, partials, order, finish, chunk);
      PartialsSeen(pushed, partials, order, finish);
      ghost var before := partials;
      pushed := pushed + [chunk];
      match chunk {
        case BlockStart(index, blockType) =>
          if index !in partials {
            order := order + [index];
            partials := partials[index := Fresh(blockType)];
          }
        case TextDelta(index, text) =>
          var partial := Ensure(index, TextType);
          if partial.block.None? { partials := partials[index := partial.(text := partial.text + text)]; }
        case ReasoningDelta(index, text) =>
          var partial := Ensure(index, ReasoningType);
          if partial.block.None? { partials := partials[index := partial.(text := partial.text + text)]; }
        case ToolCallDelta(index, id, name, delta) =>
          var partial := Ensure(index, ToolCallType);
          if partial.block.None? {
            partials := partials[index := partial.(id := Some(id), name := if name != "" then Some(name)
                else partial.name,
                                                   arguments := partial.arguments + delta)];
          }
        case BlockEnd(index, block) =>
          var partial := Ensure(index, TypeOf(block));
          if partial.block.None? { partials := partials[index := partial.(block := Some(block))]; }
        case Usage(u) => usage := Some(u);
        case Finish(_, _) => finish := Some(chunk);
      }
      if !chunk.Usage? && !chunk.Finish? {
        assert partials == before[chunk.index := Fed(if chunk.index in before then Some(before[chunk.index]) else None,
            chunk)];
      }
    }

    function Reason(): FinishReason
      reads this
    {
      if finish.Some? && finish.value.Finish? then finish.value.reason else Stop
    }

    /** Every seen block, with the replay metadata that still fits; nothing if some block cannot be assembled. */
    method Assemble(names: int -> string) returns (result: Option<(seq<Block>, Option<Envelope>)>)
      requires Valid()
      ensures var all := AllBlocks(pushed, FirstSeen(pushed), names);
              var last := LastFinish(pushed);
              var reason := if last.Some? then last.value.reason else Stop;
              var envelope := if last.Some? then last.value.replay else None;
              && result.Some? == all.Some?
              && (all.Some? ==>
                    && result.value == (At(all.value, Emitted(all.value, reason)), Replay(all.value, envelope, reason))
                    && (if reason == MaxTokens then WithoutCalls(all.value, result.value.0)
                        else result.value.0 == all.value))
    {
      hide FirstSeen, LastFinish, Own, PartialOf, KeptPositions, AllPositions;
      var all: seq<Block> := [];
      for k := 0 to |order|
        invariant AllBlocks(pushed, order[..k], names) == Some(all)
      {
        assert order[..k + 1][..k] == order[..k];
        var index := order[k];
        var block := Assembled(partials[index], names(index));
        assert block == BlockAt(pushed, index, names);
        if block.None? {
          Unassembled(pushed, order, k, names);
          return None;
        }
        all := all + [block.value];
      }
      assert order[..|order|] == order;
      var reason := Reason();
      var kept := Emitted(all, reason);
      var blocks := At(all, kept);
      AtAll(all);
      KeptAll(all);
      KeptWithoutCalls(all);
      hide WithoutCalls;
      var envelope: Option<Envelope> := None;
      if finish.Some? { envelope := finish.value.replay; }
      if envelope.None? || envelope.value.blocks.None? { return Some((blocks, envelope)); }
      if |envelope.value.blocks.value| != |all| { return Some((blocks, None)); }
      AtAll(envelope.value.blocks.value);
      if !reason.MaxTokens? || |blocks| == |all| { return Some((blocks, envelope)); }
      return Some((blocks, Some(Envelope(envelope.value.response, Some(At(envelope.value.blocks.value, kept))))));
    }

    /** The prefix an interruption can finalize; unlike assembly it never throws. */
    method InterruptedBlocks(blank: string -> bool) returns (kept: seq<Block>)
      requires Valid()
      ensures kept == Interrupted(pushed, FirstSeen(pushed), blank)
      ensures exists positions :: Keeps(pushed, FirstSeen(pushed), blank, kept, positions)
    {
      hide FirstSeen, LastFinish, Own, PartialOf, Keeps;
      kept := [];
      for k := 0 to |order|
        invariant kept == Interrupted(pushed, order[..k], blank)
      {
        assert order[..k + 1][..k] == order[..k];
        var index := order[k];
        var partial := partials[index];
        assert PartialAt(pushed, index) == Some(partial);
        var blockType := if partial.block.Some? then TypeOf(partial.block.value) else partial.blockType;
        if blockType == TextType || blockType == ReasoningType {
          var block := Assembled(partial, "");
          if block.Some? && Readable(block.value) && !blank(block.value.text) { kept := kept + [block.value]; }
        }
      }
      assert order[..|order|] == order;
      ghost var positions := InterruptedMeans(pushed, order, blank);
    }
  }

  /** `p` is the partial that the pushed chunks of `index` make. */
  ghost predicate OwnedPartial(pushed: seq<Chunk>, index: int, p: Partial) {
    OwnPartial(pushed, index);
    PartialOf(Own(pushed, index)) == Some(p)
  }

  /** The assembler's fields are what the pushed chunks make of them, index by index. */
  ghost predicate Matches(pushed: seq<Chunk>, partials: map<int, Partial>, order: seq<int>, finish: Option<Chunk>) {
    && order == FirstSeen(pushed)
    && finish == LastFinish(pushed) && (finish.Some? ==> finish.value.Finish?)
    && (forall index :: index in partials <==> index in order)
    && (forall index | index in partials :: OwnedPartial(pushed, index, partials[index]))
  }

  lemma PartialsSeen(pushed: seq<Chunk>, partials: map<int, Partial>, order: seq<int>, finish: Option<Chunk>)
    requires Matches(pushed, partials, order, finish)
    ensures forall index :: index in partials <==> index in order
  {
  }

  lemma MatchesNext(pushed: seq<Chunk>, partials: map<int, Partial>, order: seq<int>, finish: Option<Chunk>,
      chunk: Chunk)
    requires Matches(pushed, partials, order, finish)
    ensures if chunk.Usage? then Matches(pushed + [chunk], partials, order, finish)
            else if chunk.Finish? then Matches(pushed + [chunk], partials, order, Some(chunk))
            else if chunk.index in partials then
              Matches(pushed + [chunk], partials[chunk.index := Fed(Some(partials[chunk.index]), chunk)], order, finish)
              && (Fed(Some(partials[chunk.index]), chunk) == partials[chunk.index] ==>
                    Matches(pushed + [chunk], partials, order, finish))
            else Matches(pushed + [chunk], partials[chunk.index := Fed(None, chunk)], order + [chunk.index], finish)
  {
    hide PartialOf, Own, FirstSeen, LastFinish, OwnedPartial, Fed;
    PushNext(pushed, chunk);
    if !chunk.Usage? && !chunk.Finish? && chunk.index in partials && Fed(Some(partials[chunk.index]), chunk)
        == partials[chunk.index] {
      assert partials[chunk.index := partials[chunk.index]] == partials;
    }
  }

  lemma PushNext(pushed: seq<Chunk>, chunk: Chunk)
    ensures LastFinish(pushed + [chunk]) == if chunk.Finish? then Some(chunk) else LastFinish(pushed)
    ensures FirstSeen(pushed + [chunk]) ==
            if chunk.Usage? || chunk.Finish? || chunk.index in FirstSeen(pushed) then FirstSeen(pushed)
            else FirstSeen(pushed) + [chunk.index]
    ensures forall index, p | OwnedPartial(pushed, index, p) && !Addresses(chunk, index) ::
          OwnedPartial(pushed + [chunk], index, p)
    ensures !chunk.Usage? && !chunk.Finish? ==>
              && (chunk.index !in FirstSeen(pushed) ==> OwnedPartial(pushed + [chunk], chunk.index, Fed(None, chunk)))
              && forall p | OwnedPartial(pushed, chunk.index, p) ::
                    OwnedPartial(pushed + [chunk], chunk.index, Fed(Some(p), chunk))
  {
    var next := pushed + [chunk];
    assert next[..|pushed|] == pushed;
    forall index, p | OwnedPartial(pushed, index, p) && !Addresses(chunk, index) ensures OwnedPartial(next, index, p) {
      assert Own(next, index) == Own(pushed, index);
    }
    if !chunk.Usage? && !chunk.Finish? {
      SeenIsOwn(pushed, chunk.index);
      assert Own(next, chunk.index) == Own(pushed, chunk.index) + [chunk];
      assert Own(next, chunk.index)[..|Own(pushed, chunk.index)|] == Own(pushed, chunk.index);
    }
  }

  lemma Unassembled(chunks: seq<Chunk>, order: seq<int>, k: nat, names: int -> string)
    requires k < |order| && BlockAt(chunks, order[k], names).None?
    ensures AllBlocks(chunks, order, names).None?
  {
  }

  // ----- the stream grammar -----

  const MAX_SAFE: int := 0x1F_FFFF_FFFF_FFFF

  /** The validator's variables after an accepted prefix. */
  datatype Grammar = Grammar(open: map<int, BlockType>, usageSeen: bool, finished: bool)

  predicate Permits(g: Grammar, c: Chunk) {
    && !g.finished
    && (!c.Usage? && !c.Finish? ==> 0 <= c.index <= MAX_SAFE)
    && match c
       case BlockStart(index, _) => index !in g.open
       case TextDelta(index, _) => index in g.open && g.open[index] == TextType
       case ReasoningDelta(index, _) => index in g.open && g.open[index] == ReasoningType
       case ToolCallDelta(index, _, _, _) => index in g.open && g.open[index] == ToolCallType
       case BlockEnd(index, block) => index in g.open && g.open[index] == TypeOf(block)
       case Usage(_) => !g.usageSeen
       case Finish(reason, _) => g.open == map[] || reason == Error || reason == Aborted
  }

  function GrammarNext(g: Grammar, c: Chunk): Grammar {
    match c
    case BlockStart(index, blockType) => g.(open := g.open[index := blockType])
    case BlockEnd(index, _) => g.(open := g.open - {index})
    case Usage(_) => g.(usageSeen := true)
    case Finish(_, _) => g.(finished := true)
    case _ => g
  }

  /** The validator's state, or nothing once a chunk was refused. */
  function Validated(chunks: seq<Chunk>): Option<Grammar> {
    if chunks == [] then Some(Grammar(map[], false, false))
    else
      var before := Validated(chunks[..|chunks| - 1]);
      if before.Some? && Permits(before.value, chunks[|chunks| - 1]) then
        Some(GrammarNext(before.value, chunks[|chunks| - 1])) else None
  }

  // ----- the grammar, chunk by chunk -----

  /** The index was started at `j` and has not been ended before `n`. */
  ghost predicate OpenSince(chunks: seq<Chunk>, n: nat, index: int, j: nat) {
    && j < n <= |chunks| && chunks[j].BlockStart? && chunks[j].index == index
    && forall m | j < m < n :: !(chunks[m].BlockEnd? && chunks[m].index == index)
  }

  ghost predicate IsOpen(chunks: seq<Chunk>, n: nat, index: int) {
    exists j: nat :: OpenSince(chunks, n, index, j)
  }

  /** The chunk at `j` starts a block of this type. */
  predicate StartsAs(chunks: seq<Chunk>, j: nat, blockType: BlockType) {
    j < |chunks| && chunks[j].BlockStart? && chunks[j].blockType == blockType
  }

  ghost predicate OpenAs(chunks: seq<Chunk>, n: nat, index: int, blockType: BlockType) {
    exists j: nat :: OpenSince(chunks, n, index, j) && StartsAs(chunks, j, blockType)
  }

  predicate SafeIndex(c: Chunk) {
    !c.Usage? && !c.Finish? ==> 0 <= c.index <= MAX_SAFE
  }

  /**
   * The chunk at `i` fits the stream before it: nothing follows a finish, indices are safe integers,
   * only a closed index is started, deltas and ends are of an open index of their type, usage comes
   * once, and a finish other than a failure leaves nothing open.
   */
  ghost predicate WellPlaced(chunks: seq<Chunk>, i: nat)
    requires i < |chunks|
  {
    && (forall m | 0 <= m < i :: !chunks[m].Finish?)
    && SafeIndex(chunks[i])
    && match chunks[i]
       case BlockStart(index, _) => !IsOpen(chunks, i, index)
       case TextDelta(index, _) => OpenAs(chunks, i, index, TextType)
       case ReasoningDelta(index, _) => OpenAs(chunks, i, index, ReasoningType)
       case ToolCallDelta(index, _, _, _) => OpenAs(chunks, i, index, ToolCallType)
       case BlockEnd(index, block) => OpenAs(chunks, i, index, TypeOf(block))
       case Usage(_) => forall m | 0 <= m < i :: !chunks[m].Usage?
       case Finish(reason, _) => reason == Error || reason == Aborted || forall index :: !IsOpen(chunks, i, index)
  }

  ghost predicate Grammatical(chunks: seq<Chunk>, n: nat)
    requires n <= |chunks|
  {
    forall i: nat | i < n :: WellPlaced(chunks, i)
  }

  /** The validator's variables tell what was started and not ended, and whether usage and a finish were seen. */
  ghost predicate Tells(g: Grammar, chunks: seq<Chunk>, n: nat)
    requires n <= |chunks|
  {
    && (forall index :: IsOpen(chunks, n, index) <==> index in g.open)
    && (forall index, j: nat | OpenSince(chunks, n, index, j) ::
          index in g.open && StartsAs(chunks, j, g.open[index]))
    && (g.usageSeen <==> exists m :: 0 <= m < n && chunks[m].Usage?)
    && (g.finished <==> exists m :: 0 <= m < n && chunks[m].Finish?)
  }

  lemma OpenSinceNext(chunks: seq<Chunk>, n: nat, index: int, j: nat)
    requires n < |chunks|
    ensures OpenSince(chunks, n + 1, index, j) <==>
              || (j == n && chunks[n].BlockStart? && chunks[n].index == index)
              || (OpenSince(chunks, n, index, j) && !(chunks[n].BlockEnd? && chunks[n].index == index))
  {
  }

  lemma IsOpenNext(chunks: seq<Chunk>, n: nat, index: int)
    requires n < |chunks|
    ensures IsOpen(chunks, n + 1, index) <==>
              || (chunks[n].BlockStart? && chunks[n].index == index)
              || (IsOpen(chunks, n, index) && !(chunks[n].BlockEnd? && chunks[n].index == index))
  {
    hide OpenSince;
    OpenSinceNext(chunks, n, index, n);
    var m := n + 1;
    if j: nat :| OpenSince(chunks, n, index, j) { OpenSinceNext(chunks, n, index, j); }
    if j: nat :| OpenSince(chunks, m, index, j) { OpenSinceNext(chunks, n, index, j); }
  }

  /** A chunk is permitted exactly when it fits. */
  lemma PermitsIff(g: Grammar, chunks: seq<Chunk>, n: nat)
    requires n < |chunks| && Tells(g, chunks, n)
    ensures Permits(g, chunks[n]) <==> WellPlaced(chunks, n)
  {
    hide OpenSince;
    forall index, blockType
      ensures OpenAs(chunks, n, index, blockType) <==> index in g.open && g.open[index] == blockType {
      if index in g.open {
        assert IsOpen(chunks, n, index);
        var j: nat :| OpenSince(chunks, n, index, j);
      }
    }
    assert forall index :: index in g.open <==> IsOpen(chunks, n, index);
    hide IsOpen, OpenAs;
    assert (forall index :: index !in g.open) ==> g.open == map[];
  }

  lemma TellsNext(g: Grammar, chunks: seq<Chunk>, n: nat)
    requires n < |chunks| && Tells(g, chunks, n) && Permits(g, chunks[n])
    ensures Tells(GrammarNext(g, chunks[n]), chunks, n + 1)
  {
    hide OpenSince, IsOpen;
    var next, m := GrammarNext(g, chunks[n]), n + 1;
    forall index ensures IsOpen(chunks, m, index) <==> index in next.open { IsOpenNext(chunks, n, index); }
    forall index, j: nat | OpenSince(chunks, m, index, j)
      ensures index in next.open && StartsAs(chunks, j, next.open[index]) {
      OpenSinceNext(chunks, n, index, j);
      SomeOpen(chunks, n, index, j);
    }
  }

  lemma SomeOpen(chunks: seq<Chunk>, n: nat, index: int, j: nat)
    ensures OpenSince(chunks, n, index, j) ==> IsOpen(chunks, n, index)
  {
  }

  /** The validator's acceptance of a prefix, read off the chunks alone. */
  lemma {:induction false} ValidatedIff(chunks: seq<Chunk>, n: nat)
    requires n <= |chunks|
    ensures Validated(chunks[..n]).Some? <==> Grammatical(chunks, n)
    ensures Validated(chunks[..n]).Some? ==> Tells(Validated(chunks[..n]).value, chunks, n)
  {
    hide Tells, WellPlaced, Permits, GrammarNext;
    if n == 0 {
      NothingTells(chunks);
    } else {
      ValidatedIff(chunks, n - 1);
      assert chunks[..n][..n - 1] == chunks[..n - 1];
      if Validated(chunks[..n - 1]).Some? {
        PermitsIff(Validated(chunks[..n - 1]).value, chunks, n - 1);
        if WellPlaced(chunks, n - 1) { TellsNext(Validated(chunks[..n - 1]).value, chunks, n - 1); }
      }
    }
  }

  lemma NothingTells(chunks: seq<Chunk>)
    ensures Validated(chunks[..0]) == Some(Grammar(map[], false, false))
    ensures Tells(Grammar(map[], false, false), chunks, 0)
  {
  }

  /** Acceptance: every chunk fits, and the last one is the finish. */
  lemma AcceptedIff(chunks: seq<Chunk>)
    ensures Validated(chunks).Some? && Validated(chunks).value.finished <==>
              Grammatical(chunks, |chunks|) && chunks != [] && chunks[|chunks| - 1].Finish?
  {
    assert chunks[..|chunks|] == chunks;
    ValidatedIff(chunks, |chunks|);
    hide Validated, IsOpen, OpenSince;
    if Grammatical(chunks, |chunks|) && chunks != [] { assert WellPlaced(chunks, |chunks| - 1); }
  }

  /** A stream is accepted when every chunk is permitted and the last is its finish. */
  method ValidateStream(chunks: seq<Chunk>) returns (accepted: bool)
    ensures accepted <==> Validated(chunks).Some? && Validated(chunks).value.finished
    ensures accepted <==> Grammatical(chunks, |chunks|) && chunks != [] && chunks[|chunks| - 1].Finish?
  {
    AcceptedIff(chunks);
    hide Grammatical;
    var open: map<int, BlockType> := map[];
    var usageSeen, finished := false, false;
    for i := 0 to |chunks|
      invariant Validated(chunks[..i]) == Some(Grammar(open, usageSeen, finished))
    {
      assert chunks[..i + 1][..i] == chunks[..i];
      var c := chunks[i];
      if finished || (!c.Usage? && !c.Finish? && !(0 <= c.index <= MAX_SAFE))
          || !Permits(Grammar(open, usageSeen, finished), c) {
        RefusedStays(chunks, i + 1);
        return false;
      }
      match c {
        case BlockStart(index, blockType) => open := open[index := blockType];
        case BlockEnd(index, _) => open := open - {index};
        case Usage(_) => usageSeen := true;
        case Finish(_, _) => finished := true;
        case _ =>
      }
    }
    assert chunks[..|chunks|] == chunks;
    return finished;
  }

  lemma {:induction false} RefusedStays(chunks: seq<Chunk>, n: nat)
    requires n <= |chunks| && Validated(chunks[..n]).None?
    ensures Validated(chunks).None?
    decreases |chunks|
  {
    if n < |chunks| {
      assert chunks[..|chunks| - 1][..n] == chunks[..n];
      RefusedStays(chunks[..|chunks| - 1], n);
    } else {
      assert chunks[..n] == chunks;
    }
  }

  /** No index is started twice. */
  ghost predicate NoReopen(chunks: seq<Chunk>) {
    forall i, j | 0 <= i < j < |chunks| && chunks[i].BlockStart? && chunks[j].BlockStart? ::
          chunks[i].index != chunks[j].index
  }

  ghost predicate Started(chunks: seq<Chunk>, index: int) {
    exists i :: 0 <= i < |chunks| && chunks[i].BlockStart? && chunks[i].index == index
  }

  /** An index of an accepted prefix is open with no end, or closed by exactly the payload that made its block. */
  ghost predicate Settles(chunks: seq<Chunk>, g: Grammar, index: int) {
    && (index in g.open || Own(chunks, index) != [] ==> Started(chunks, index))
    && (Own(chunks, index) != [] <==> index in g.open || FirstEnd(Own(chunks, index)).Some?)
    && (index in g.open ==> Own(chunks, index) != [] && FirstEnd(Own(chunks, index)).None?)
    && (forall j | 0 <= j < |chunks| && chunks[j].BlockEnd? && chunks[j].index == index ::
          FirstEnd(Own(chunks, index)) == Some(chunks[j].block))
  }

  lemma SettlesNext(chunks: seq<Chunk>, g: Grammar, c: Chunk, index: int)
    requires Settles(chunks, g, index) && Permits(g, c) && NoReopen(chunks + [c])
    ensures Settles(chunks + [c], GrammarNext(g, c), index)
  {
    hide FirstEnd;
    var next := chunks + [c];
    assert next[..|chunks|] == chunks && next[|chunks|] == c;
    assert forall j | 0 <= j < |chunks| :: next[j] == chunks[j];
    var own := Own(chunks, index);
    assert Own(next, index) == own + (if Addresses(c, index) then [c] else []);
    assert own + [] == own;
    StartedNext(chunks, c, index);
    NoEndYet();
    if Addresses(c, index) { OpenNext(own, c); }
  }

  lemma StartedNext(chunks: seq<Chunk>, c: Chunk, index: int)
    ensures Started(chunks, index) ==> Started(chunks + [c], index)
    ensures c.BlockStart? && c.index == index ==> Started(chunks + [c], index)
    ensures NoReopen(chunks + [c]) && c.BlockStart? && c.index == index ==> !Started(chunks, index)
  {
    var next := chunks + [c];
    if i :| 0 <= i < |chunks| && chunks[i].BlockStart? && chunks[i].index == index {
      assert next[i] == chunks[i];
    }
    assert next[|chunks|] == c;
  }

  lemma NoEndYet()
    ensures FirstEnd([]) == None
  {
  }

  lemma {:induction false} ValidatedSettles(chunks: seq<Chunk>, index: int)
    requires Validated(chunks).Some? && NoReopen(chunks)
    ensures Settles(chunks, Validated(chunks).value, index)
  {
    hide Settles, Permits, GrammarNext;
    if chunks == [] {
      NothingSettles(index);
    } else {
      var init := chunks[..|chunks| - 1];
      assert forall i | 0 <= i < |init| :: init[i] == chunks[i];
      ValidatedSettles(init, index);
      assert init + [chunks[|chunks| - 1]] == chunks;
      SettlesNext(init, Validated(init).value, chunks[|chunks| - 1], index);
    }
  }

  lemma NothingSettles(index: int)
    ensures Settles([], Grammar(map[], false, false), index)
  {
  }

  /** An accepted stream ends with its only finish, with nothing open unless it failed. */
  lemma FinishedLast(chunks: seq<Chunk>)
    requires Validated(chunks).Some? && Validated(chunks).value.finished
    ensures chunks != [] && chunks[|chunks| - 1].Finish?
    ensures LastFinish(chunks) == Some(chunks[|chunks| - 1])
    ensures chunks[|chunks| - 1].reason != Error && chunks[|chunks| - 1].reason != Aborted ==>
          Validated(chunks).value.open == map[]
  {
  }

  /**
   * On an accepted stream that reopens no index and does not fail, the blocks are exactly the
   * `block-end` payloads: each emitted block is its index's payload, and every payload is emitted.
   */
  lemma AcceptedBlocks(chunks: seq<Chunk>, names: int -> string)
    requires Validated(chunks).Some? && Validated(chunks).value.finished && NoReopen(chunks)
    requires chunks[|chunks| - 1].Finish? && chunks[|chunks| - 1].reason != Error
      && chunks[|chunks| - 1].reason != Aborted
    ensures var order := FirstSeen(chunks);
            var all := AllBlocks(chunks, order, names);
            && all.Some?
            && (forall k | 0 <= k < |order| :: FirstEnd(Own(chunks, order[k])) == Some(all.value[k]))
            && (forall j | 0 <= j < |chunks| && chunks[j].BlockEnd? ::
                  exists k :: 0 <= k < |order| && order[k] == chunks[j].index && all.value[k] == chunks[j].block)
  {
    FinishedLast(chunks);
    var order := FirstSeen(chunks);
    forall k | 0 <= k < |order|
      ensures BlockAt(chunks, order[k], names) == FirstEnd(Own(chunks, order[k]))
        && BlockAt(chunks, order[k], names).Some? {
      PayloadAt(chunks, order[k], names);
    }
    var all := AllBlocks(chunks, order, names);
    forall j | 0 <= j < |chunks| && chunks[j].BlockEnd?
      ensures exists k :: 0 <= k < |order| && order[k] == chunks[j].index && all.value[k] == chunks[j].block
    {
      var index := chunks[j].index;
      ValidatedSettles(chunks, index);
      NoEndYet();
      SeenIsOwn(chunks, index);
      var k :| 0 <= k < |order| && order[k] == index;
      assert BlockAt(chunks, order[k], names) == Some(all.value[k]);
    }
  }

  lemma PayloadAt(chunks: seq<Chunk>, index: int, names: int -> string)
    requires Validated(chunks).Some? && NoReopen(chunks) && Validated(chunks).value.open == map[]
      && index in FirstSeen(chunks)
    ensures FirstEnd(Own(chunks, index)).Some? && BlockAt(chunks, index, names) == FirstEnd(Own(chunks, index))
  {
    SeenIsOwn(chunks, index);
    ValidatedSettles(chunks, index);
    OwnPartial(chunks, index);
    PartialMeans(Own(chunks, index));
  }

  // ----- exactly when every payload is a block -----

  function Ends(chunks: seq<Chunk>): nat {
    if chunks == [] then 0 else Ends(chunks[..|chunks| - 1]) + (if chunks[|chunks| - 1].BlockEnd? then 1 else 0)
  }

  /** The indices that have been closed. */
  function EndedIndices(chunks: seq<Chunk>): set<int> {
    set i | 0 <= i < |chunks| && chunks[i].BlockEnd? :: chunks[i].index
  }

  ghost predicate DistinctEnds(chunks: seq<Chunk>) {
    forall i, j | 0 <= i < j < |chunks| && chunks[i].BlockEnd? && chunks[j].BlockEnd? ::
          chunks[i].index != chunks[j].index
  }

  /** Every `block-end` payload is emitted as a block of its own. */
  ghost predicate EachEmitted(chunks: seq<Chunk>, order: seq<int>, all: seq<Block>)
    requires |all| == |order|
  {
    && DistinctEnds(chunks)
    && forall j | 0 <= j < |chunks| && chunks[j].BlockEnd? ::
         exists k :: 0 <= k < |order| && order[k] == chunks[j].index && all[k] == chunks[j].block
  }

  /** On an accepted prefix the seen indices are the started ones, and what is open or ended was seen. */
  ghost predicate SeenStarted(chunks: seq<Chunk>, g: Grammar) {
    && (forall index | index in g.open :: index in FirstSeen(chunks))
    && (forall index | index in EndedIndices(chunks) :: index in FirstSeen(chunks))
    && (forall index :: index in FirstSeen(chunks) <==> Started(chunks, index))
  }

  /**
   * On an accepted prefix as many indices are seen as blocks are ended or open exactly when no
   * index was started twice.
   */
  ghost predicate Counted(chunks: seq<Chunk>, g: Grammar) {
    && |FirstSeen(chunks)| <= Ends(chunks) + |g.open|
    && (NoReopen(chunks) <==> |FirstSeen(chunks)| == Ends(chunks) + |g.open|)
  }

  lemma SeenStartedNext(chunks: seq<Chunk>, g: Grammar, c: Chunk)
    requires SeenStarted(chunks, g) && Permits(g, c)
    ensures SeenStarted(chunks + [c], GrammarNext(g, c))
  {
    hide FirstSeen, Ends, EndedIndices, Started;
    CountsNext(chunks, c);
    forall index
      ensures Started(chunks + [c], index) <==> Started(chunks, index) || (c.BlockStart? && c.index == index) {
      StartedIff(chunks, c, index);
    }
  }

  lemma CountedNext(chunks: seq<Chunk>, g: Grammar, c: Chunk)
    requires SeenStarted(chunks, g) && Counted(chunks, g) && Permits(g, c)
    ensures Counted(chunks + [c], GrammarNext(g, c))
  {
    hide FirstSeen, Ends, EndedIndices, NoReopen, Started;
    CountsNext(chunks, c);
    NoReopenNext(chunks, c);
    if c.BlockEnd? { OpenShrinks(g.open, c.index); }
  }

  lemma OpenShrinks(open: map<int, BlockType>, index: int)
    requires index in open
    ensures |open - {index}| == |open| - 1
  {
    var rest := open - {index};
    assert open.Keys == rest.Keys + {index};
  }

  lemma CountsNext(chunks: seq<Chunk>, c: Chunk)
    ensures Ends(chunks + [c]) == Ends(chunks) + (if c.BlockEnd? then 1 else 0)
    ensures EndedIndices(chunks + [c]) == EndedIndices(chunks) + (if c.BlockEnd? then {c.index} else {})
    ensures FirstSeen(chunks + [c]) ==
            if c.Usage? || c.Finish? || c.index in FirstSeen(chunks) then FirstSeen(chunks)
            else FirstSeen(chunks) + [c.index]
  {
    var next := chunks + [c];
    assert next[..|chunks|] == chunks && next[|chunks|] == c;
    assert forall i | 0 <= i < |chunks| :: next[i] == chunks[i];
    forall index
      ensures index in EndedIndices(next) <==> index in EndedIndices(chunks) || (c.BlockEnd? && index == c.index) {
      if index in EndedIndices(chunks) {
        var i :| 0 <= i < |chunks| && chunks[i].BlockEnd? && chunks[i].index == index;
        assert next[i].BlockEnd?;
      }
    }
  }

  lemma StartedIff(chunks: seq<Chunk>, c: Chunk, index: int)
    ensures Started(chunks + [c], index) <==> Started(chunks, index) || (c.BlockStart? && c.index == index)
  {
    StartedNext(chunks, c, index);
  }

  lemma NoReopenNext(chunks: seq<Chunk>, c: Chunk)
    ensures NoReopen(chunks + [c]) <==> NoReopen(chunks) && (c.BlockStart? ==> !Started(chunks, c.index))
  {
    var next := chunks + [c];
    assert forall i | 0 <= i < |chunks| :: next[i] == chunks[i];
    if c.BlockStart? && Started(chunks, c.index) {
      var i :| 0 <= i < |chunks| && chunks[i].BlockStart? && chunks[i].index == c.index;
      assert next[i].BlockStart? && next[|chunks|].BlockStart?;
    }
    if NoReopen(next) {
      forall i, j | 0 <= i < j < |chunks| && chunks[i].BlockStart? && chunks[j].BlockStart?
        ensures chunks[i].index != chunks[j].index {
        assert next[i].index != next[j].index;
      }
    }
  }

  lemma {:induction false} ValidatedCounts(chunks: seq<Chunk>)
    requires Validated(chunks).Some?
    ensures SeenStarted(chunks, Validated(chunks).value) && Counted(chunks, Validated(chunks).value)
  {
    hide SeenStarted, Counted, Permits, GrammarNext;
    if chunks == [] {
      NothingCounted();
    } else {
      var init := chunks[..|chunks| - 1];
      ValidatedCounts(init);
      assert init + [chunks[|chunks| - 1]] == chunks;
      SeenStartedNext(init, Validated(init).value, chunks[|chunks| - 1]);
      CountedNext(init, Validated(init).value, chunks[|chunks| - 1]);
    }
  }

  lemma NothingCounted()
    ensures SeenStarted([], Grammar(map[], false, false)) && Counted([], Grammar(map[], false, false))
  {
  }

  /** Blocks closed under different indices are at most as many as the indices closed. */
  lemma {:induction false} DistinctEndsCount(chunks: seq<Chunk>)
    requires DistinctEnds(chunks)
    ensures Ends(chunks) == |EndedIndices(chunks)|
  {
    if chunks == [] {
      assert EndedIndices(chunks) == {};
    } else {
      var init, c := chunks[..|chunks| - 1], chunks[|chunks| - 1];
      assert forall i | 0 <= i < |init| :: init[i] == chunks[i];
      DistinctEndsCount(init);
      assert init + [c] == chunks;
      CountsNext(init, c);
      forall i | 0 <= i < |init| && init[i].BlockEnd? && c.BlockEnd? ensures init[i].index != c.index {
        assert chunks[i].index != chunks[|init|].index;
      }
    }
  }

  lemma {:induction false} SetWithin(indices: set<int>, list: seq<int>)
    requires forall x | x in indices :: x in list
    ensures |indices| <= |list|
  {
    if list == [] {
      assert forall x :: x !in indices;
    } else {
      var last, init := list[|list| - 1], list[..|list| - 1];
      forall x | x in indices - {last} ensures x in init {
        var i :| 0 <= i < |list| && list[i] == x;
        assert init[i] == x;
      }
      SetWithin(indices - {last}, init);
      assert indices <= (indices - {last}) + {last};
      assert |indices| <= |indices - {last}| + 1;
    }
  }

  /**
   * On every accepted stream that does not fail, every `block-end` payload is emitted as a block of
   * its own if and only if no index is started twice; that is, if and only if there are as many
   * payloads as blocks.
   */
  lemma EachEmittedIff(chunks: seq<Chunk>, names: int -> string)
    requires Validated(chunks).Some? && Validated(chunks).value.finished
    requires chunks[|chunks| - 1].Finish? && chunks[|chunks| - 1].reason != Error
      && chunks[|chunks| - 1].reason != Aborted
    ensures var order := FirstSeen(chunks);
            var all := AllBlocks(chunks, order, names);
            && all.Some?
            && (EachEmitted(chunks, order, all.value) <==> NoReopen(chunks))
            && (Ends(chunks) == |all.value| <==> NoReopen(chunks))
            && (!NoReopen(chunks) ==> Ends(chunks) > |all.value|)
  {
    hide Validated, FirstSeen, Ends, EndedIndices, NoReopen, BlockAt, Own;
    FinishedLast(chunks);
    ValidatedCounts(chunks);
    ClosedAssembles(chunks, names);
    var order := FirstSeen(chunks);
    if DistinctEnds(chunks) {
      DistinctEndsCount(chunks);
      SetWithin(EndedIndices(chunks), order);
    }
    if NoReopen(chunks) {
      AcceptedBlocks(chunks, names);
      NoReopenDistinctEnds(chunks);
    }
  }

  /** Every seen index of an accepted stream that does not fail has been ended, so its block can be assembled. */
  lemma ClosedAssembles(chunks: seq<Chunk>, names: int -> string)
    requires Validated(chunks).Some? && Validated(chunks).value.open == map[]
    ensures AllBlocks(chunks, FirstSeen(chunks), names).Some?
  {
    hide Validated, FirstSeen;
    forall k | 0 <= k < |FirstSeen(chunks)| ensures BlockAt(chunks, FirstSeen(chunks)[k], names).Some? {
      var index := FirstSeen(chunks)[k];
      SeenIsOwn(chunks, index);
      ValidatedEnded(chunks, index);
      PartialMeans(Own(chunks, index));
    }
  }

  lemma {:induction false} ValidatedEnded(chunks: seq<Chunk>, index: int)
    requires Validated(chunks).Some?
    ensures Own(chunks, index) != [] ==> index in Validated(chunks).value.open || FirstEnd(Own(chunks, index)).Some?
  {
    if chunks != [] {
      var init, c := chunks[..|chunks| - 1], chunks[|chunks| - 1];
      ValidatedEnded(init, index);
      assert Own(chunks, index) == Own(init, index) + (if Addresses(c, index) then [c] else []);
      assert Own(init, index) + [] == Own(init, index);
      OpenNext(Own(init, index), c);
    }
  }

  /** Without reopening, as many payloads as indices, all of them seen: no index is ended twice. */
  lemma NoReopenDistinctEnds(chunks: seq<Chunk>)
    requires Validated(chunks).Some? && NoReopen(chunks)
    ensures DistinctEnds(chunks)
  {
    hide FirstEnd;
    forall i, j | 0 <= i < j < |chunks| && chunks[i].BlockEnd? && chunks[j].BlockEnd?
      ensures chunks[i].index != chunks[j].index {
      EndedOnce(chunks, j, i);
    }
  }

  lemma ClosedStaysClosed(chunks: seq<Chunk>, g: Grammar, c: Chunk, i: nat)
    requires c.BlockEnd? && Permits(g, c) && Settles(chunks, g, c.index)
    requires i < |chunks| && chunks[i].BlockEnd?
    ensures chunks[i].index != c.index
  {
    hide Own, FirstEnd;
  }

  lemma {:induction false} EndedOnce(chunks: seq<Chunk>, j: nat, i: nat)
    requires Validated(chunks).Some? && NoReopen(chunks)
    requires i < j < |chunks| && chunks[i].BlockEnd? && chunks[j].BlockEnd?
    ensures chunks[i].index != chunks[j].index
    decreases |chunks|
  {
    var init := chunks[..|chunks| - 1];
    assert forall k | 0 <= k < |init| :: init[k] == chunks[k];
    if j < |init| {
      EndedOnce(init, j, i);
    } else {
      assert NoReopen(init);
      ValidatedSettles(init, chunks[j].index);
      ClosedStaysClosed(init, Validated(init).value, chunks[j], i);
    }
  }

  /** The grammar does not forbid reopening a closed index; then the second payload is lost. */
  lemma ReopenedIndexLosesPayload() returns (chunks: seq<Chunk>)
    ensures Validated(chunks).Some? && Validated(chunks).value.finished && !NoReopen(chunks)
    ensures exists j ::
          0 <= j < |chunks| && chunks[j].BlockEnd? && FirstEnd(Own(chunks, chunks[j].index)) != Some(chunks[j].block)
  {
    hide Validated, Own, Open, FirstEnd, Permits, GrammarNext;
    var start, first, second := BlockStart(0, TextType), BlockEnd(0, Text("a")), BlockEnd(0, Text("b"));
    var before := Grammar(map[], false, false);
    NothingYet();
    Appended([], start);
    Appended([start], first);
    Appended([start, first], start);
    Appended([start, first, start], second);
    Appended([start, first, start, second], Finish(Stop, None));
    Closing(before, TextType, Text("a"));
    Closing(before, TextType, Text("b"));
    assert [] + [start] == [start] && [start] + [first] == [start, first]
      && [start, first] + [start] == [start, first, start];
    assert [start, first, start] + [second] == [start, first, start, second];
    chunks := [start, first, start, second] + [Finish(Stop, None)];
    assert chunks[0].BlockStart? && chunks[2].BlockStart?;
    SecondLost(start, first, second);
    assert Own(chunks, 0) == [start, first, start, second];
    assert chunks[3].BlockEnd? && FirstEnd(Own(chunks, chunks[3].index)) == Some(Text("a"));
  }

  /** Opening and closing an index leaves the grammar as it was; so does nothing stop a finish. */
  lemma Closing(g: Grammar, blockType: BlockType, block: Block)
    requires g == Grammar(map[], false, false) && TypeOf(block) == blockType
    ensures Permits(g, BlockStart(0, blockType)) && Permits(GrammarNext(g, BlockStart(0, blockType)),
        BlockEnd(0, block))
    ensures GrammarNext(GrammarNext(g, BlockStart(0, blockType)), BlockEnd(0, block)) == g
    ensures Permits(g, Finish(Stop, None)) && GrammarNext(g, Finish(Stop, None)).finished
  {
  }

  lemma SecondLost(start: Chunk, first: Chunk, second: Chunk)
    requires start.BlockStart? && first.BlockEnd? && second.BlockEnd?
    ensures FirstEnd([start, first, start, second]) == Some(first.block)
  {
  }

  lemma NothingYet()
    ensures Validated([]) == Some(Grammar(map[], false, false)) && Own([], 0) == [] && FirstEnd([]) == None
  {
  }

  lemma Appended(chunks: seq<Chunk>, c: Chunk)
    ensures Validated(chunks + [c]) ==
            if Validated(chunks).Some? && Permits(Validated(chunks).value, c) then
              Some(GrammarNext(Validated(chunks).value, c)) else None
    ensures Own(chunks + [c], 0) == Own(chunks, 0) + (if Addresses(c, 0) then [c] else [])
  {
  }
}
