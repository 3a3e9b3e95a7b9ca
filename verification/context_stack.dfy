/**
  The context stack and the builder's state.

  The Go stack indexes its slice without a bounds check. Popping exactly as
  many entries as it holds empties it without complaint (the next Peek then
  panics); popping more panics at once. `Drained` is the empty stack: the
  root has been popped but the tree is still there to be printed. `Failed`
  is a Go runtime panic. Every primitive that needs a top entry fails on a
  state without one, and `Failed` absorbs everything.
*/
module ContextStack {
  import opened Lexicon
  import opened Tree

  datatype Parser = Building(stack: seq<Frame>) | Drained(root: Node) | Failed

  /** A fresh builder: the stack holds only the empty root. */
  const Initial: Parser := Building([Empty(Root)])

  predicate HasTop(p: Parser) {
    p.Building? && |p.stack| >= 1
  }

  function Depth(p: Parser): (d: nat) {
    if p.Building? then |p.stack| else 0
  }

  /** The innermost open construct. */
  function Peek(p: Parser): (f: Frame)
    requires HasTop(p)
  {
    p.stack[|p.stack| - 1]
  }

  /** `CheckCurrentContext` with one kind: is the innermost construct of
      kind `k`? On a state without a top Go panics; this is false there, and
      every caller goes on to a primitive that fails on such a state. */
  predicate Is(p: Parser, k: Kind) {
    HasTop(p) && Peek(p).kind == k
  }

  predicate Valid(p: Parser) {
    match p
    case Building(s) => ValidStack(s)
    case Drained(r) => r.kind == Root && WellFormed(r)
    case Failed => true
  }

  /** The tree reachable from the root, as the Go pointer structure holds it. */
  function TreeOf(p: Parser): (t: Node)
    requires HasTop(p) || p.Drained?
  {
    if p.Drained? then p.root else Collapse(p.stack)
  }

  /** Close the innermost frame and attach its node to the frame below. */
  function PopOne(s: seq<Frame>): (s': seq<Frame>)
    requires |s| >= 2
    ensures |s'| == |s| - 1
    ensures s'[..|s| - 2] == s[..|s| - 2]
    ensures s'[|s| - 2].kind == s[|s| - 2].kind
    ensures s'[|s| - 2].children == s[|s| - 2].children + [Close(s[|s| - 1])]
  {
    s[..|s| - 2] + [Attach(s[|s| - 2], Close(s[|s| - 1]))]
  }

  lemma PopOneValid(s: seq<Frame>)
    requires |s| >= 2 && ValidStack(s)
    ensures ValidStack(PopOne(s))
  {
    var s' := PopOne(s);
    assert s[|s| - 1].kind != Root;
    forall i | 0 <= i < |s'|
      ensures ValidFrame(s'[i])
    {
      if i < |s| - 2 {
        assert s'[i] == s[i];
      }
    }
  }

  /** `Pop(count)`: remove `n` entries from the top. */
  function Pop(p: Parser, n: nat): (r: Parser)
    ensures r.Failed? <==> p.Failed? || (n > 0 && (p.Drained? || n > |p.stack|))
    ensures r.Drained? <==> (p.Drained? && n == 0) || (p.Building? && n > 0 && n == |p.stack|)
    ensures r.Building? ==> p.Building? && |r.stack| == |p.stack| - n
    ensures r.Building? && |r.stack| >= 1 ==> r.stack[..|r.stack| - 1] == p.stack[..|r.stack| - 1]
    ensures Valid(p) ==> Valid(r)
    decreases n
  {
    if n == 0 then p
    else
      match p
      case Building(s) =>
        if |s| >= 2 then
          PopOneValidIf(s);
          Pop(Building(PopOne(s)), n - 1)
        else if |s| == 1 && n == 1 then Drained(Close(s[0]))
        else Failed
      case _ => Failed
  }

  lemma PopOneValidIf(s: seq<Frame>)
    requires |s| >= 2
    ensures ValidStack(s) ==> ValidStack(PopOne(s))
  {
    if ValidStack(s) {
      PopOneValid(s);
    }
  }

  /** `Push`: the frame becomes the innermost construct. */
  function Push(p: Parser, f: Frame): (r: Parser)
    requires p.Building?
    ensures r.Building? && |r.stack| == |p.stack| + 1
    ensures r.stack[..|p.stack|] == p.stack && Peek(r) == f
  {
    Building(p.stack + [f])
  }

  /** `AddToken`: append a node to the innermost construct. */
  function Add(p: Parser, m: Node): (r: Parser)
    ensures r.Failed? <==> !HasTop(p)
    ensures HasTop(p) ==> HasTop(r) && Depth(r) == Depth(p)
    ensures HasTop(p) ==> r.stack[..|p.stack| - 1] == p.stack[..|p.stack| - 1]
    ensures HasTop(p) ==> Peek(r).kind == Peek(p).kind && Peek(r).children == Peek(p).children + [m]
    ensures Valid(p) && WellFormed(m) && m.kind != Root ==> Valid(r)
  {
    if HasTop(p) then
      var s := p.stack;
      Building(s[..|s| - 1] + [Attach(s[|s| - 1], m)])
    else Failed
  }

  /** `AddToken` of a structural node followed by `UpdateCurrentContext`
      with the same node: the node is appended, then pushed. In the zipper
      the pushed frame is attached to its parent when it is closed. */
  function Open(p: Parser, f: Frame): (r: Parser)
    ensures r.Failed? <==> !HasTop(p)
    ensures HasTop(p) ==> HasTop(r) && Depth(r) == Depth(p) + 1
    ensures HasTop(p) ==> r.stack[..|p.stack|] == p.stack && Peek(r) == f
    ensures Valid(p) && ValidFrame(f) && f.kind != Root ==> Valid(r)
  {
    if HasTop(p) then Push(p, f) else Failed
  }

  /** Popping never changes the tree: a closed frame's node sits where its
      pointer was appended when the frame was opened. */
  lemma {:induction false} PopPreservesTree(p: Parser, n: nat)
    requires HasTop(p)
    requires !Pop(p, n).Failed?
    ensures TreeOf(Pop(p, n)) == TreeOf(p)
    decreases n
  {
    if n > 0 {
      var s := p.stack;
      if |s| >= 2 {
        PopOneCollapse(s);
        PopPreservesTree(Building(PopOne(s)), n - 1);
      }
    }
  }

  lemma {:induction false} PopOneCollapse(s: seq<Frame>)
    requires |s| >= 2
    ensures Collapse(PopOne(s)) == Collapse(s)
    decreases |s|
  {
    if |s| == 2 {
      assert PopOne(s)[0].children == s[0].children + [Close(s[1])];
      assert s[1..] == [s[1]];
    } else {
      assert PopOne(s)[1..] == PopOne(s[1..]);
      PopOneCollapse(s[1..]);
    }
  }

  /** `AddToken` appends on the rightmost spine at the innermost depth, as
      the pointer structure does. */
  lemma AddOnSpine(p: Parser, m: Node)
    requires HasTop(p)
    ensures TreeOf(Add(p, m)) == AppendOnSpine(TreeOf(p), Depth(p) - 1, m)
  {
    AttachTopOnSpine(p.stack, m);
  }

  /** Opening a construct appends its (still empty-tailed) node on the
      rightmost spine; pushing it changes nothing else in the tree. */
  lemma OpenOnSpine(p: Parser, f: Frame)
    requires HasTop(p)
    ensures TreeOf(Open(p, f)) == AppendOnSpine(TreeOf(p), Depth(p) - 1, Close(f))
  {
    PushOnSpine(p.stack, f);
  }
}
