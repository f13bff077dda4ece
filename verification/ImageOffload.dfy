/**
 * Fitting a request's images into a route's budgets: the oldest images are replaced, in whole
 * count and byte quanta, inside arbitrarily nested tool results.
 */
module ImageOffload {
  import opened Options

  /** A durable image reference: its identity and its encoded byte length. */
  datatype Ref = Ref(attachment: nat, bytes: nat)

  datatype Block =
    | Text(text: string)
    | Image(ref: Ref)
    | ToolResult(callId: string, content: seq<Block>)
    | OtherBlock(kind: nat)

  datatype Message = Message(id: nat, content: seq<Block>)

  datatype Representation = Raw | Base64

  /** Budgets and quanta; an absent quantum is one. */
  datatype Policy = Policy(maxImages: Option<nat>, maxBytes: Option<nat>, countQuantum: Option<nat>,
      byteQuantum: Option<nat>, representation: Representation)

  const OFFLOADED := "[image omitted to keep the request within its image limit; older images are omitted first. If this image is still needed, read its file again when a path is available; otherwise ask the user to attach it again.]"

  // ----- images in order -----

  /** The images of a content tree in pre-order. */
  function ImagesIn(blocks: seq<Block>): seq<Ref>
    decreases blocks
  {
    if blocks == [] then [] else ImagesOf(blocks[0]) + ImagesIn(blocks[1..])
  }

  function ImagesOf(block: Block): seq<Ref>
    decreases block
  {
    match block
    case Image(ref) => [ref]
    case ToolResult(_, content) => ImagesIn(content)
    case _ => []
  }

  function RequestImages(messages: seq<Message>): seq<Ref> {
    if messages == [] then [] else ImagesIn(messages[0].content) + RequestImages(messages[1..])
  }

  lemma ImagesCons(block: Block, rest: seq<Block>)
    ensures ImagesIn([block] + rest) == ImagesOf(block) + ImagesIn(rest)
  {
  }

  lemma {:induction false} ImagesSplit(a: seq<Block>, b: seq<Block>)
    ensures ImagesIn(a + b) == ImagesIn(a) + ImagesIn(b)
  {
    hide ImagesIn, ImagesOf;
    if a == [] {
      assert a + b == b;
      ImagesEmpty();
    } else {
      ImagesSplit(a[1..], b);
      ImagesCons(a[0], a[1..]);
      ImagesCons(a[0], a[1..] + b);
      assert [a[0]] + a[1..] == a && [a[0]] + (a[1..] + b) == a + b;
    }
  }

  lemma ImagesEmpty()
    ensures ImagesIn([]) == []
  {
  }

  lemma RequestCons(message: Message, rest: seq<Message>)
    ensures RequestImages([message] + rest) == ImagesIn(message.content) + RequestImages(rest)
  {
  }

  lemma RequestEmpty()
    ensures RequestImages([]) == []
  {
  }

  lemma {:induction false} RequestSplit(a: seq<Message>, b: seq<Message>)
    ensures RequestImages(a + b) == RequestImages(a) + RequestImages(b)
  {
    hide ImagesIn, RequestImages;
    if a == [] {
      assert a + b == b;
      RequestEmpty();
    } else {
      RequestSplit(a[1..], b);
      RequestCons(a[0], a[1..]);
      RequestCons(a[0], a[1..] + b);
      assert [a[0]] + a[1..] == a && [a[0]] + (a[1..] + b) == a + b;
    }
  }

  /** The recursive image test of every image policy finds an image exactly when there is one. */
  predicate ContentHasImage(blocks: seq<Block>)
    ensures ContentHasImage(blocks) <==> ImagesIn(blocks) != []
    decreases blocks
  {
    if blocks == [] then false
    else
      || blocks[0].Image? || (blocks[0].ToolResult? && ContentHasImage(blocks[0].content))
      || ContentHasImage(blocks[1..])
  }

  /** The block that a path of positions, one per level of nesting, leads to. */
  function BlockAt(blocks: seq<Block>, path: seq<nat>): Option<Block>
    decreases |path|
  {
    if path == [] || path[0] >= |blocks| then None
    else if |path| == 1 then Some(blocks[path[0]])
    else if blocks[path[0]].ToolResult? then BlockAt(blocks[path[0]].content, path[1..])
    else None
  }

  /** The images of a tree are the image blocks at any path into it, however deep. */
  lemma {:induction false} ImageAtPath(blocks: seq<Block>, path: seq<nat>)
    requires BlockAt(blocks, path).Some? && BlockAt(blocks, path).value.Image?
    ensures BlockAt(blocks, path).value.ref in ImagesIn(blocks)
    decreases |path|
  {
    var i := path[0];
    assert blocks == blocks[..i] + [blocks[i]] + blocks[i + 1..];
    ImagesSplit(blocks[..i] + [blocks[i]], blocks[i + 1..]);
    ImagesSplit(blocks[..i], [blocks[i]]);
    ImagesOfOne(blocks[i]);
    if |path| > 1 { ImageAtPath(blocks[i].content, path[1..]); }
  }

  lemma {:induction false} PathToImage(blocks: seq<Block>, ref: Ref) returns (path: seq<nat>)
    requires ref in ImagesIn(blocks)
    ensures BlockAt(blocks, path) == Some(Image(ref))
    decreases blocks
  {
    if ref in ImagesOf(blocks[0]) {
      path := [0];
      if blocks[0].ToolResult? {
        var inner := PathToImage(blocks[0].content, ref);
        assert ([0] + inner)[1..] == inner;
        path := [0] + inner;
      }
    } else {
      var rest := PathToImage(blocks[1..], ref);
      path := [rest[0] + 1] + rest[1..];
      assert path[1..] == rest[1..];
    }
  }

  // ----- replacement -----

  /** The tree with every image replaced whose pre-order index, counted from `from`, is below `n`. */
  function Erased(blocks: seq<Block>, from: nat, n: nat): (out: seq<Block>)
    ensures |out| == |blocks|
    decreases blocks
  {
    if blocks == [] then []
    else [ErasedBlock(blocks[0], from, n)] + Erased(blocks[1..], from + |ImagesOf(blocks[0])|, n)
  }

  function ErasedBlock(block: Block, from: nat, n: nat): Block
    decreases block
  {
    match block
    case Image(_) => if from < n then Text(OFFLOADED) else block
    case ToolResult(callId, content) => ToolResult(callId, Erased(content, from, n))
    case _ => block
  }

  function ErasedMessages(messages: seq<Message>, from: nat, n: nat): (out: seq<Message>)
    ensures |out| == |messages|
  {
    if messages == [] then []
    else
      var first := Message(messages[0].id, Erased(messages[0].content, from, n));
      [first] + ErasedMessages(messages[1..], from + |ImagesIn(messages[0].content)|, n)
  }

  function Min(a: nat, b: nat): nat { if a <= b then a else b }

  /** How many of `images` images, the first of which has index `from`, lie below `n`. */
  function Below(from: nat, n: nat, images: nat): nat {
    if n <= from then 0 else Min(n - from, images)
  }

  lemma ErasedCons(blocks: seq<Block>, from: nat, n: nat)
    requires blocks != []
    ensures Erased(blocks, from, n)
         == [ErasedBlock(blocks[0], from, n)] + Erased(blocks[1..], from + |ImagesOf(blocks[0])|, n)
    ensures blocks == [blocks[0]] + blocks[1..]
  {
  }

  /** What is left of the images is the suffix past `n`. */
  lemma {:induction false} ErasedImages(blocks: seq<Block>, from: nat, n: nat)
    ensures ImagesIn(Erased(blocks, from, n)) == ImagesIn(blocks)[Below(from, n, |ImagesIn(blocks)|)..]
    decreases blocks
  {
    if blocks != [] {
      hide Erased, ErasedBlock, ImagesIn, ImagesOf, Below;
      var head, rest := blocks[0], blocks[1..];
      ErasedBlockImages(head, from, n);
      ErasedImages(rest, from + |ImagesOf(head)|, n);
      ErasedCons(blocks, from, n);
      ImagesCons(head, rest);
      ImagesCons(ErasedBlock(head, from, n), Erased(rest, from + |ImagesOf(head)|, n));
      Suffixes(ImagesOf(head), ImagesIn(rest), from, n);
    }
  }

  lemma {:induction false} ErasedBlockImages(block: Block, from: nat, n: nat)
    ensures ImagesOf(ErasedBlock(block, from, n)) == ImagesOf(block)[Below(from, n, |ImagesOf(block)|)..]
    decreases block
  {
    if block.ToolResult? {
      ErasedImages(block.content, from, n);
    }
  }

  lemma Suffixes(a: seq<Ref>, b: seq<Ref>, from: nat, n: nat)
    ensures a[Below(from, n, |a|)..] + b[Below(from + |a|, n, |b|)..] == (a + b)[Below(from, n, |a + b|)..]
  {
  }

  lemma {:induction false} ErasedRequestImages(messages: seq<Message>, from: nat, n: nat)
    ensures RequestImages(ErasedMessages(messages, from, n)) ==
          RequestImages(messages)[Below(from, n, |RequestImages(messages)|)..]
  {
    if messages != [] {
      var head, rest := messages[0].content, messages[1..];
      ErasedImages(head, from, n);
      ErasedRequestImages(rest, from + |ImagesIn(head)|, n);
      assert ErasedMessages(messages, from, n)[1..] == ErasedMessages(rest, from + |ImagesIn(head)|, n);
      Suffixes(ImagesIn(head), RequestImages(rest), from, n);
    }
  }

  /** The second tree is the first with some images replaced: same nesting, same other blocks, same order. */
  predicate SameOtherwise(a: seq<Block>, b: seq<Block>)
    decreases a
  {
    |a| == |b| && (a != [] ==> SameBlock(a[0], b[0]) && SameOtherwise(a[1..], b[1..]))
  }

  predicate SameBlock(a: Block, b: Block)
    decreases a
  {
    match a
    case Image(_) => b == a || b == Text(OFFLOADED)
    case ToolResult(callId, content) => b.ToolResult? && b.callId == callId && SameOtherwise(content, b.content)
    case _ => b == a
  }

  lemma {:induction false} ErasedSameOtherwise(blocks: seq<Block>, from: nat, n: nat)
    ensures SameOtherwise(blocks, Erased(blocks, from, n))
    decreases blocks
  {
    if blocks != [] {
      if blocks[0].ToolResult? { ErasedSameOtherwise(blocks[0].content, from, n); }
      ErasedSameOtherwise(blocks[1..], from + |ImagesOf(blocks[0])|, n);
      assert Erased(blocks, from, n)[1..] == Erased(blocks[1..], from + |ImagesOf(blocks[0])|, n);
    }
  }

  /** Trees past the removed prefix are untouched. */
  lemma {:induction false} ErasedNothing(blocks: seq<Block>, from: nat, n: nat)
    requires n <= from || ImagesIn(blocks) == []
    ensures Erased(blocks, from, n) == blocks
    decreases blocks
  {
    if blocks != [] {
      if blocks[0].ToolResult? { ErasedNothing(blocks[0].content, from, n); }
      ErasedNothing(blocks[1..], from + |ImagesOf(blocks[0])|, n);
    }
  }

  lemma {:induction false} ErasedNoMessages(messages: seq<Message>, from: nat, n: nat)
    requires n <= from
    ensures ErasedMessages(messages, from, n) == messages
  {
    if messages != [] {
      ErasedNothing(messages[0].content, from, n);
      ErasedNoMessages(messages[1..], from + |ImagesIn(messages[0].content)|, n);
    }
  }

  lemma {:induction false} ErasedSplit(a: seq<Block>, b: seq<Block>, from: nat, n: nat)
    ensures Erased(a + b, from, n) == Erased(a, from, n) + Erased(b, from + |ImagesIn(a)|, n)
    decreases a
  {
    if a == [] {
      assert a + b == b;
    } else {
      ErasedSplit(a[1..], b, from + |ImagesOf(a[0])|, n);
      assert (a + b)[1..] == a[1..] + b;
    }
  }

  lemma ErasedOneMore(blocks: seq<Block>, i: nat, from: nat, n: nat)
    requires i < |blocks|
    ensures |ImagesIn(blocks[..i + 1])| == |ImagesIn(blocks[..i])| + |ImagesOf(blocks[i])|
    ensures Erased(blocks[..i + 1], from, n) ==
          Erased(blocks[..i], from, n) + [ErasedBlock(blocks[i], from + |ImagesIn(blocks[..i])|, n)]
  {
    assert blocks[..i + 1] == blocks[..i] + [blocks[i]];
    ErasedSplit(blocks[..i], [blocks[i]], from, n);
    ImagesSplit(blocks[..i], [blocks[i]]);
    ImagesOfOne(blocks[i]);
    ErasedOne(blocks[i], from + |ImagesIn(blocks[..i])|, n);
  }

  lemma ErasedOne(block: Block, from: nat, n: nat)
    ensures Erased([block], from, n) == [ErasedBlock(block, from, n)]
  {
  }

  /** The tree changes exactly when some image of it lies in the removed prefix. */
  lemma {:induction false} ErasedChanges(blocks: seq<Block>, from: nat, n: nat)
    ensures Erased(blocks, from, n) != blocks <==> Below(from, n, |ImagesIn(blocks)|) > 0
  {
    ErasedImages(blocks, from, n);
    if Below(from, n, |ImagesIn(blocks)|) == 0 {
      ErasedNothing(blocks, from, n);
    } else {
      assert |ImagesIn(Erased(blocks, from, n))| < |ImagesIn(blocks)|;
    }
  }

  /**
   * Replace the first `remaining` images of a tree. The result is the tree itself unless some
   * image was replaced; `next` is built only from the first change on.
   */
  method ReplaceOldestImages(blocks: seq<Block>, remaining: nat) returns (out: seq<Block>, left: nat, changed: bool)
    ensures out == Erased(blocks, 0, remaining)
    ensures left == remaining - Min(remaining, |ImagesIn(blocks)|)
    ensures changed <==> out != blocks
    decreases blocks
  {
    hide ImagesIn, ImagesOf, Erased;
    var next: Option<seq<Block>> := None;
    left := remaining;
    ErasedEmpty(remaining);
    for i := 0 to |blocks|
      invariant left == remaining - Min(remaining, |ImagesIn(blocks[..i])|)
      invariant Erased(blocks[..i], 0, remaining) == next.GetOr(blocks[..i])
      invariant next.Some? <==> next.GetOr(blocks[..i]) != blocks[..i]
    {
      ErasedOneMore(blocks, i, 0, remaining);
      BlockFrom(blocks[i], |ImagesIn(blocks[..i])|, remaining, left);
      assert blocks[..i + 1] == blocks[..i] + [blocks[i]];
      match blocks[i] {
        case Image(_) =>
          if left > 0 {
            left := left - 1;
            next := Some(next.GetOr(blocks[..i]) + [Text(OFFLOADED)]);
          } else if next.Some? {
            next := Some(next.value + [blocks[i]]);
          }
        case ToolResult(callId, content) =>
          var replaced, after, nested := ReplaceOldestImages(content, left);
          left := after;
          if nested {
            next := Some(next.GetOr(blocks[..i]) + [ToolResult(callId, replaced)]);
          } else if next.Some? {
            next := Some(next.value + [blocks[i]]);
          }
        case _ =>
          if next.Some? { next := Some(next.value + [blocks[i]]); }
      }
    }
    assert blocks[..|blocks|] == blocks;
    return next.GetOr(blocks), left, next.Some?;
  }

  lemma ErasedEmpty(n: nat)
    ensures ImagesIn([]) == [] && Erased([], 0, n) == []
  {
  }

  /** The block at pre-order index `from`, erased, in terms of what remains to be replaced there. */
  lemma BlockFrom(block: Block, from: nat, n: nat, left: nat)
    requires left == n - Min(n, from)
    ensures if block.Image? then
              |ImagesOf(block)| == 1 && ErasedBlock(block, from, n) == (if left > 0 then Text(OFFLOADED) else block)
            else if block.ToolResult? then
              ImagesOf(block) == ImagesIn(block.content) && ErasedBlock(block, from, n)
                  == ToolResult(block.callId, Erased(block.content, 0, left))
            else
              ImagesOf(block) == [] && ErasedBlock(block, from, n) == block
  {
    if block.ToolResult? { ErasedFrom(block.content, from, n); }
  }

  /** Counting what remains is counting from where the scan stands. */
  lemma {:induction false} ErasedFrom(blocks: seq<Block>, from: nat, n: nat)
    ensures Erased(blocks, from, n) == Erased(blocks, 0, if n <= from then 0 else n - from)
  {
    ErasedShift(blocks, from, 0, n, if n <= from then 0 else n - from);
  }

  lemma {:induction false} ErasedShift(blocks: seq<Block>, from: nat, from': nat, n: nat, n': nat)
    requires (if n <= from then 0 else n - from) == (if n' <= from' then 0 else n' - from')
    ensures Erased(blocks, from, n) == Erased(blocks, from', n')
    decreases blocks
  {
    if blocks != [] {
      if blocks[0].ToolResult? { ErasedShift(blocks[0].content, from, from', n, n'); }
      var images := |ImagesOf(blocks[0])|;
      ErasedShift(blocks[1..], from + images, from' + images, n, n');
    }
  }

  // ----- budgets -----

  /** `Math.ceil(n / d)`. */
  function CeilDiv(n: nat, d: nat): (q: nat)
    requires d > 0
    ensures n <= q * d < n + d
  {
    (n + d - 1) / d
  }

  /** The accounted length of one image: raw bytes, or base64 with padding. */
  function Length(ref: Ref, representation: Representation): nat {
    if representation.Base64? then CeilDiv(ref.bytes, 3) * 4 else ref.bytes
  }

  /** Base64 is in groups of four characters, each for three bytes, the last one padded. */
  lemma Base64Groups(ref: Ref)
    ensures exists groups: nat :: Length(ref, Base64) == 4 * groups && 3 * groups - 3 < ref.bytes <= 3 * groups
    ensures Length(ref, Raw) == ref.bytes
  {
    assert Length(ref, Base64) == 4 * CeilDiv(ref.bytes, 3);
  }

  function Lengths(refs: seq<Ref>, representation: Representation): (ls: seq<nat>)
    ensures |ls| == |refs|
  {
    seq(|refs|, i requires 0 <= i < |refs| => Length(refs[i], representation))
  }

  function Sum(ls: seq<nat>): nat {
    if ls == [] then 0 else Sum(ls[..|ls| - 1]) + ls[|ls| - 1]
  }

  lemma {:induction false} SumSplit(a: seq<nat>, b: seq<nat>)
    ensures Sum(a + b) == Sum(a) + Sum(b)
  {
    if b == [] {
      assert a + b == a;
    } else {
      assert (a + b)[..|a + b| - 1] == a + b[..|b| - 1];
      SumSplit(a, b[..|b| - 1]);
    }
  }

  predicate Usable(policy: Policy) {
    policy.countQuantum.GetOr(1) > 0 && policy.byteQuantum.GetOr(1) > 0
  }

  function Excess(amount: nat, bound: Option<nat>): nat {
    if bound.None? || amount <= bound.value then 0 else amount - bound.value
  }

  /** An excess rounded up to whole quanta. */
  function Quantized(excess: nat, quantum: nat): nat
    requires quantum > 0
  {
    CeilDiv(excess, quantum) * quantum
  }

  /** How many images and how many bytes a history's excess asks to remove. */
  function Targets(ls: seq<nat>, policy: Policy): (nat, nat)
    requires Usable(policy)
  {
    (Quantized(Excess(|ls|, policy.maxImages), policy.countQuantum.GetOr(1)),
     Quantized(Excess(Sum(ls), policy.maxBytes), policy.byteQuantum.GetOr(1)))
  }

  /**
   * Removing `k` images of total length `removed` reaches the targets. A quantum above one must be
   * exceeded, not just reached.
   */
  predicate Reaches(k: nat, removed: nat, targets: (nat, nat), byteQuantum: nat) {
    k >= targets.0 && (targets.1 == 0 || (if byteQuantum == 1 then removed >= targets.1 else removed > targets.1))
  }

  predicate Meets(ls: seq<nat>, k: nat, policy: Policy)
    requires Usable(policy) && k <= |ls|
  {
    Reaches(k, Sum(ls[..k]), Targets(ls, policy), policy.byteQuantum.GetOr(1))
  }

  /** The shortest oldest-first prefix that reaches the targets, or everything when nothing does. */
  ghost predicate Least(ls: seq<nat>, k: nat, policy: Policy)
    requires Usable(policy)
  {
    && k <= |ls|
    && (k == |ls| || Meets(ls, k, policy))
    && forall j: nat | j < k :: !Meets(ls, j, policy)
  }

  /** What remains after the shortest sufficient prefix is gone fits both budgets. */
  lemma RemainderFits(ls: seq<nat>, k: nat, policy: Policy)
    requires Usable(policy) && Least(ls, k, policy)
    ensures Excess(|ls[k..]|, policy.maxImages) == 0 && Excess(Sum(ls[k..]), policy.maxBytes) == 0
  {
    assert ls == ls[..k] + ls[k..];
    SumSplit(ls[..k], ls[k..]);
  }

  /** Within both budgets nothing is removed. */
  lemma WithinBudget(ls: seq<nat>, k: nat, policy: Policy)
    requires Usable(policy) && Least(ls, k, policy)
    requires Excess(|ls|, policy.maxImages) == 0 && Excess(Sum(ls), policy.maxBytes) == 0
    ensures k == 0
  {
    QuantizedZero(policy.countQuantum.GetOr(1));
    QuantizedZero(policy.byteQuantum.GetOr(1));
    assert Meets(ls, 0, policy);
  }

  lemma QuantizedZero(quantum: nat)
    requires quantum > 0
    ensures Quantized(0, quantum) == 0
  {
  }

  /** The target is the least multiple of the quantum that covers the excess. */
  ghost predicate CoversInQuanta(target: nat, excess: nat, quantum: nat) {
    && (exists q: nat :: target == q * quantum)
    && excess <= target && forall q: nat | excess <= q * quantum :: target <= q * quantum
  }

  lemma QuantizedCovers(excess: nat, quantum: nat)
    requires quantum > 0
    ensures CoversInQuanta(Quantized(excess, quantum), excess, quantum)
  {
    var c := CeilDiv(excess, quantum);
    assert Quantized(excess, quantum) == c * quantum;
    forall q: nat | excess <= q * quantum ensures c * quantum <= q * quantum {
      if q < c { MulStep(q, c, quantum); }
      MulStep(c, q, quantum);
    }
  }

  /** What a history asks to remove: what it exceeds each budget by, in whole quanta. */
  lemma TargetsMean(ls: seq<nat>, policy: Policy)
    requires Usable(policy)
    ensures var bound := policy.maxImages.GetOr(|ls|);
            var over := if bound < |ls| then |ls| - bound else 0;
            CoversInQuanta(Targets(ls, policy).0, over, policy.countQuantum.GetOr(1))
    ensures var bound := policy.maxBytes.GetOr(Sum(ls));
            var over := if bound < Sum(ls) then Sum(ls) - bound else 0;
            CoversInQuanta(Targets(ls, policy).1, over, policy.byteQuantum.GetOr(1))
  {
    hide CoversInQuanta, Quantized, Sum;
    QuantizedCovers(Excess(|ls|, policy.maxImages), policy.countQuantum.GetOr(1));
    QuantizedCovers(Excess(Sum(ls), policy.maxBytes), policy.byteQuantum.GetOr(1));
  }

  const MIB: nat := 0x10_0000

  function Megabytes(n: nat): (ls: seq<nat>)
    ensures |ls| == n && forall i | 0 <= i < n :: ls[i] == MIB
  {
    seq(n, _ => MIB)
  }

  lemma {:induction false} MegabytesSum(ls: seq<nat>)
    requires forall i | 0 <= i < |ls| :: ls[i] == MIB
    ensures Sum(ls) == |ls| * MIB
  {
    if ls != [] { MegabytesSum(ls[..|ls| - 1]); }
  }

  /**
   * The documented steps: one-megabyte images under a 128 MiB bound with a 64 MiB quantum. From 129
   * images on the oldest 65 are removed, and that prefix stands up to 192; the next one removes 129.
   */
  lemma DocumentedSteps(n: nat)
    requires 129 <= n <= 193
    ensures var policy := Policy(None, Some(128 * MIB), None, Some(64 * MIB), Raw);
            Least(Megabytes(n), if n <= 192 then 65 else 129, policy)
  {
    var policy := Policy(None, Some(128 * MIB), None, Some(64 * MIB), Raw);
    var ls := Megabytes(n);
    MegabytesSum(ls);
    forall j: nat | j <= n ensures Sum(ls[..j]) == j * MIB { MegabytesSum(ls[..j]); }
    hide Sum;
    assert Targets(ls, policy).0 == 0;
    assert Targets(ls, policy).1 == if n <= 192 then 64 * MIB else 128 * MIB;
  }

  lemma MulStep(a: nat, b: nat, c: nat)
    ensures a < b ==> a * c + c <= b * c
    ensures a <= b ==> a * c <= b * c
  {
    if a < b {
      assert (a + 1) * c <= b * c;
    }
  }

  lemma QuantizedMonotone(a: nat, b: nat, quantum: nat)
    requires quantum > 0 && a <= b
    ensures Quantized(a, quantum) <= Quantized(b, quantum)
  {
    MulStep(CeilDiv(b, quantum), CeilDiv(a, quantum), quantum);
    MulStep(CeilDiv(a, quantum), CeilDiv(b, quantum), quantum);
  }

  lemma TargetsGrow(ls: seq<nat>, more: seq<nat>, policy: Policy)
    requires Usable(policy)
    ensures Targets(ls, policy).0 <= Targets(ls + more, policy).0
      && Targets(ls, policy).1 <= Targets(ls + more, policy).1
  {
    SumSplit(ls, more);
    QuantizedMonotone(Excess(|ls|, policy.maxImages), Excess(|ls + more|, policy.maxImages),
        policy.countQuantum.GetOr(1));
    QuantizedMonotone(Excess(Sum(ls), policy.maxBytes), Excess(Sum(ls + more), policy.maxBytes),
        policy.byteQuantum.GetOr(1));
  }

  /** Appending history never gives an image back. */
  lemma RemovalGrows(ls: seq<nat>, more: seq<nat>, k: nat, k': nat, policy: Policy)
    requires Usable(policy) && Least(ls, k, policy) && Least(ls + more, k', policy)
    ensures k <= k'
  {
    TargetsGrow(ls, more, policy);
    forall j: nat | j < k ensures !Meets(ls + more, j, policy) {
      assert (ls + more)[..j] == ls[..j];
      assert !Meets(ls, j, policy);
    }
  }

  /** Once the targets were reached, the removed prefix stays fixed until a target moves. */
  lemma RemovalStable(ls: seq<nat>, more: seq<nat>, k: nat, k': nat, policy: Policy)
    requires Usable(policy) && Least(ls, k, policy) && Least(ls + more, k', policy)
    requires Meets(ls, k, policy) && Targets(ls + more, policy) == Targets(ls, policy)
    ensures k' == k
  {
    RemovalGrows(ls, more, k, k', policy);
    assert (ls + more)[..k] == ls[..k];
    assert Meets(ls + more, k, policy);
  }

  /** The offload loop over the accounted lengths. */
  method RemovedPrefix(ls: seq<nat>, policy: Policy) returns (count: nat)
    requires Usable(policy)
    ensures Least(ls, count, policy)
  {
    var total := Total(ls);
    var excessCount := Excess(|ls|, policy.maxImages);
    var excessBytes := Excess(total, policy.maxBytes);
    var countQuantum, byteQuantum := policy.countQuantum.GetOr(1), policy.byteQuantum.GetOr(1);
    QuantizedZero(countQuantum);
    QuantizedZero(byteQuantum);
    if excessCount == 0 && excessBytes == 0 { return 0; }
    var removeCount := if excessCount == 0 then 0 else CeilDiv(excessCount, countQuantum) * countQuantum;
    var removeBytes := if excessBytes == 0 then 0 else CeilDiv(excessBytes, byteQuantum) * byteQuantum;
    count := 0;
    var removedBytes := 0;
    while count < |ls|
      invariant count <= |ls| && removedBytes == Sum(ls[..count])
      invariant forall j: nat | j < count :: !Meets(ls, j, policy)
    {
      var byteTargetMet := removeBytes == 0 || (if byteQuantum == 1 then removedBytes >= removeBytes
          else removedBytes > removeBytes);
      if count >= removeCount && byteTargetMet { break; }
      assert ls[..count + 1][..count] == ls[..count];
      removedBytes := removedBytes + ls[count];
      count := count + 1;
    }
  }

  method Total(ls: seq<nat>) returns (total: nat)
    ensures total == Sum(ls)
  {
    total := 0;
    for i := 0 to |ls|
      invariant total == Sum(ls[..i])
    {
      assert ls[..i + 1][..i] == ls[..i];
      total := total + ls[i];
    }
    assert ls[..|ls|] == ls;
  }

  /** Collect the accounted lengths of a content tree in pre-order. */
  method CollectImageLengths(blocks: seq<Block>, lengths: seq<nat>, representation: Representation)
      returns (out: seq<nat>)
    ensures out == lengths + Lengths(ImagesIn(blocks), representation)
    decreases blocks
  {
    hide ImagesIn, Lengths, Length;
    out := lengths;
    NoLengths(representation);
    for i := 0 to |blocks|
      invariant out == lengths + Lengths(ImagesIn(blocks[..i]), representation)
    {
      CollectedOneMore(blocks, i, lengths, representation);
      match blocks[i] {
        case Image(ref) => out := out + [Length(ref, representation)];
        case ToolResult(_, content) => out := CollectImageLengths(content, out, representation);
        case _ =>
      }
    }
    assert blocks[..|blocks|] == blocks;
  }

  lemma NoLengths(representation: Representation)
    ensures Lengths(ImagesIn([]), representation) == []
  {
  }

  /** What the next block adds to the collected lengths. */
  lemma CollectedOneMore(blocks: seq<Block>, i: nat, lengths: seq<nat>, representation: Representation)
    requires i < |blocks|
    ensures var before := lengths + Lengths(ImagesIn(blocks[..i]), representation);
            lengths + Lengths(ImagesIn(blocks[..i + 1]), representation) ==
            if blocks[i].Image? then before + [Length(blocks[i].ref, representation)]
            else if blocks[i].ToolResult? then before + Lengths(ImagesIn(blocks[i].content), representation)
            else before
  {
    hide Length;
    assert blocks[..i + 1] == blocks[..i] + [blocks[i]];
    ImagesSplit(blocks[..i], [blocks[i]]);
    ImagesOfOne(blocks[i]);
    LengthsSplit(ImagesIn(blocks[..i]), ImagesOf(blocks[i]), representation);
  }

  lemma ImagesOfOne(block: Block)
    ensures ImagesIn([block]) == ImagesOf(block)
  {
  }

  lemma LengthsSplit(a: seq<Ref>, b: seq<Ref>, representation: Representation)
    ensures Lengths(a + b, representation) == Lengths(a, representation) + Lengths(b, representation)
  {
  }

  function RequestLengths(messages: seq<Message>, policy: Policy): seq<nat> {
    Lengths(RequestImages(messages), policy.representation)
  }

  /**
   * Offload one request: exactly the images of the shortest oldest-first prefix that reaches the
   * quantized targets are replaced, wherever they are nested, and nothing else changes.
   */
  method OffloadRequestImagesWithPolicy(messages: seq<Message>, policy: Policy) returns (out: seq<Message>)
    requires Usable(policy)
    ensures exists removed: nat ::
          Least(RequestLengths(messages, policy), removed, policy) && out == ErasedMessages(messages, 0, removed)
  {
    hide RequestImages, ImagesIn, Lengths, ErasedMessages, Erased, Least;
    var lengths: seq<nat> := [];
    NoMessages(policy.representation, 0);
    for i := 0 to |messages|
      invariant lengths == Lengths(RequestImages(messages[..i]), policy.representation)
    {
      RequestOneMore(messages, i);
      LengthsSplit(RequestImages(messages[..i]), ImagesIn(messages[i].content), policy.representation);
      lengths := CollectImageLengths(messages[i].content, lengths, policy.representation);
    }
    assert messages[..|messages|] == messages;
    var count := RemovedPrefix(lengths, policy);
    out := [];
    var remaining := count;
    NoMessages(policy.representation, count);
    for i := 0 to |messages|
      invariant remaining == count - Min(count, |RequestImages(messages[..i])|)
      invariant out == ErasedMessages(messages[..i], 0, count)
    {
      RequestOneMore(messages, i);
      ErasedMessagesOneMore(messages, i, count);
      var content, left, changed := ReplaceOldestImages(messages[i].content, remaining);
      remaining := left;
      out := out + [if changed then Message(messages[i].id, content) else messages[i]];
    }
  }

  lemma NoMessages(representation: Representation, n: nat)
    ensures RequestImages([]) == [] && Lengths([], representation) == [] && ErasedMessages([], 0, n) == []
  {
  }

  lemma RequestOneMore(messages: seq<Message>, i: nat)
    requires i < |messages|
    ensures RequestImages(messages[..i + 1]) == RequestImages(messages[..i]) + ImagesIn(messages[i].content)
  {
    assert messages[..i + 1] == messages[..i] + [messages[i]];
    RequestSplit(messages[..i], [messages[i]]);
    RequestOne(messages[i]);
  }

  lemma RequestOne(message: Message)
    ensures RequestImages([message]) == ImagesIn(message.content)
  {
  }

  /** The next message is erased by what remains after the images before it. */
  lemma ErasedMessagesOneMore(messages: seq<Message>, i: nat, n: nat)
    requires i < |messages|
    ensures ErasedMessages(messages[..i + 1], 0, n) ==
            ErasedMessages(messages[..i], 0, n) + [Message(messages[i].id,
                Erased(messages[i].content, 0, n - Min(n, |RequestImages(messages[..i])|)))]
  {
    hide RequestImages, Erased;
    assert messages[..i + 1] == messages[..i] + [messages[i]];
    var seen := |RequestImages(messages[..i])|;
    ErasedMessagesSplit(messages[..i], [messages[i]], 0, n);
    ErasedOneMessage(messages[i], seen, n);
    ErasedFrom(messages[i].content, seen, n);
  }

  lemma ErasedOneMessage(message: Message, from: nat, n: nat)
    ensures ErasedMessages([message], from, n) == [Message(message.id, Erased(message.content, from, n))]
  {
  }

  lemma ErasedMessagesCons(messages: seq<Message>, from: nat, n: nat)
    requires messages != []
    ensures ErasedMessages(messages, from, n)
         == [Message(messages[0].id, Erased(messages[0].content, from, n))]
            + ErasedMessages(messages[1..], from + |ImagesIn(messages[0].content)|, n)
    ensures messages == [messages[0]] + messages[1..]
  {
  }

  lemma {:induction false} ErasedMessagesSplit(a: seq<Message>, b: seq<Message>, from: nat, n: nat)
    ensures ErasedMessages(a + b, from, n) ==
          ErasedMessages(a, from, n) + ErasedMessages(b, from + |RequestImages(a)|, n)
  {
    hide ImagesIn, Erased;
    if a == [] {
      assert a + b == b;
    } else {
      hide ErasedMessages, RequestImages;
      ErasedMessagesSplit(a[1..], b, from + |ImagesIn(a[0].content)|, n);
      assert (a + b)[0] == a[0] && (a + b)[1..] == a[1..] + b;
      ErasedMessagesCons(a, from, n);
      ErasedMessagesCons(a + b, from, n);
      RequestCons(a[0], a[1..]);
    }
  }

  /** The request that goes out fits both budgets, keeps the newest images, and keeps everything else. */
  lemma OffloadedFits(messages: seq<Message>, policy: Policy, removed: nat)
    requires Usable(policy) && Least(RequestLengths(messages, policy), removed, policy)
    ensures var out := ErasedMessages(messages, 0, removed);
            && RequestImages(out) == RequestImages(messages)[removed..]
            && Excess(|RequestImages(out)|, policy.maxImages) == 0
            && Excess(Sum(RequestLengths(out, policy)), policy.maxBytes) == 0
            && (&& Excess(|RequestImages(messages)|, policy.maxImages) == 0
                && Excess(Sum(RequestLengths(messages, policy)), policy.maxBytes) == 0
                ==> out == messages)
  {
    var ls := RequestLengths(messages, policy);
    ErasedRequestImages(messages, 0, removed);
    RemainderFits(ls, removed, policy);
    assert ls[removed..] == Lengths(RequestImages(messages)[removed..], policy.representation);
    if Excess(|ls|, policy.maxImages) == 0 && Excess(Sum(ls), policy.maxBytes) == 0 {
      WithinBudget(ls, removed, policy);
      ErasedNoMessages(messages, 0, 0);
    }
  }

  /** Appending messages only ever removes more images, and none more while the reached targets stand. */
  lemma OffloadGrows(messages: seq<Message>, more: seq<Message>, policy: Policy, removed: nat, removed': nat)
    requires Usable(policy)
    requires Least(RequestLengths(messages, policy), removed, policy)
      && Least(RequestLengths(messages + more, policy), removed', policy)
    ensures removed <= removed'
    ensures (&& Meets(RequestLengths(messages, policy), removed, policy)
             && Targets(RequestLengths(messages + more, policy), policy)
                 == Targets(RequestLengths(messages, policy), policy))
            ==> removed' == removed
  {
    var ls, added := RequestLengths(messages, policy), RequestLengths(more, policy);
    RequestSplit(messages, more);
    LengthsSplit(RequestImages(messages), RequestImages(more), policy.representation);
    RemovalGrows(ls, added, removed, removed', policy);
    if Meets(ls, removed, policy) && Targets(ls + added, policy) == Targets(ls, policy) {
      RemovalStable(ls, added, removed, removed', policy);
    }
  }

  /** Each message's tree changes only in replaced images. */
  lemma {:induction false} OffloadedSameOtherwise(messages: seq<Message>, from: nat, n: nat)
    ensures var out := ErasedMessages(messages, from, n);
            forall i | 0 <= i < |messages| ::
                  out[i].id == messages[i].id && SameOtherwise(messages[i].content, out[i].content)
  {
    if messages != [] {
      ErasedSameOtherwise(messages[0].content, from, n);
      OffloadedSameOtherwise(messages[1..], from + |ImagesIn(messages[0].content)|, n);
    }
  }
}
