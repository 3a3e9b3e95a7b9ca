/**
  The parse tree and its zipper.

  A `Node` is a finished, immutable tree element. A `Frame` is an open
  construct: a node whose children are still being appended. The context
  stack is a sequence of frames, bottom (index 0) is the root and the last
  frame is the innermost open construct. Only the last frame ever receives
  children, so a frame's finished node can be attached to the frame below at
  the moment it is closed: `Collapse` shows the whole tree as the pointer
  structure would, with every open frame already attached as the last child
  of the frame beneath it.
*/
module Tree {
  import opened Lexicon

  /** Structural kinds (one per grammar construct) and the four terminal
      kinds, which share their names with the classifier's categories. */
  datatype Kind =
    | Root | Class | SubroutineDec | ParameterList | SubroutineBody | Statements
    | ReturnStatement | DoStatement | ExpressionList | Expression | Term
    | Terminal(category: Category)

  datatype Node = Node(kind: Kind, literal: string, children: seq<Node>)

  datatype Frame = Frame(kind: Kind, literal: string, children: seq<Node>)

  function Leaf(c: Category, lit: string): (n: Node)
    ensures n.kind == Terminal(c) && n.literal == lit && n.children == []
    ensures c != Unclassified ==> WellFormed(n)
  {
    Node(Terminal(c), lit, [])
  }

  /** An empty structural node or frame of the given kind. */
  function Empty(k: Kind): (f: Frame)
    ensures f.kind == k && f.children == []
    ensures !k.Terminal? ==> ValidFrame(f)
  {
    Frame(k, "", [])
  }

  /** Terminal nodes carry text and no children; structural nodes carry no
      text; the root never occurs below the top of a tree. */
  predicate WellFormed(n: Node) {
    match n.kind
    case Terminal(c) => c != Unclassified && n.children == []
    case _ =>
      && n.literal == ""
      && forall m :: m in n.children ==> m.kind != Root && WellFormed(m)
  }

  predicate ValidFrame(f: Frame) {
    && !f.kind.Terminal?
    && f.literal == ""
    && forall m :: m in f.children ==> m.kind != Root && WellFormed(m)
  }

  /** A well-formed context stack: the root at the bottom and nowhere else,
      only structural frames. */
  predicate ValidStack(s: seq<Frame>) {
    && |s| >= 1
    && s[0].kind == Root
    && (forall i :: 1 <= i < |s| ==> s[i].kind != Root)
    && forall i :: 0 <= i < |s| ==> ValidFrame(s[i])
  }

  /** Retire a frame: its children are final from now on. */
  function Close(f: Frame): (n: Node)
    ensures ValidFrame(f) ==> WellFormed(n)
    ensures n.kind == f.kind && n.children == f.children
  {
    Node(f.kind, f.literal, f.children)
  }

  function Attach(f: Frame, n: Node): (g: Frame)
    ensures g.kind == f.kind && g.children == f.children + [n]
    ensures ValidFrame(f) && WellFormed(n) && n.kind != Root ==> ValidFrame(g)
  {
    f.(children := f.children + [n])
  }

  /** The whole tree seen from the bottom frame: each open frame is the last
      child of the frame beneath it. */
  function Collapse(s: seq<Frame>): (n: Node)
    requires |s| >= 1
    ensures n.kind == s[0].kind && n.literal == s[0].literal
    ensures |n.children| == |s[0].children| + (if |s| == 1 then 0 else 1)
    ensures n.children[..|s[0].children|] == s[0].children
    ensures |s| > 1 ==> n.children[|s[0].children|].kind == s[1].kind
    decreases |s|
  {
    if |s| == 1 then Close(s[0])
    else Node(s[0].kind, s[0].literal, s[0].children + [Collapse(s[1..])])
  }

  /** Collapsing frames that are structural, and non-root above the bottom,
      gives a well-formed tree. */
  lemma {:induction false} CollapseWellFormed(s: seq<Frame>)
    requires |s| >= 1
    requires forall i :: 0 <= i < |s| ==> ValidFrame(s[i])
    requires forall i :: 1 <= i < |s| ==> s[i].kind != Root
    ensures WellFormed(Collapse(s))
    decreases |s|
  {
    if |s| > 1 {
      CollapseWellFormed(s[1..]);
    }
  }

  /** The pointer-tree view of appending: follow the last child `d` times
      from `t` and append `m` to the children of the node reached. */
  function AppendOnSpine(t: Node, d: nat, m: Node): (t': Node)
    decreases d
  {
    if d == 0 then t.(children := t.children + [m])
    else if |t.children| == 0 then t
    else
      var last := t.children[|t.children| - 1];
      t.(children := t.children[..|t.children| - 1] + [AppendOnSpine(last, d - 1, m)])
  }

  /** Appending to the innermost open frame is appending on the tree's
      rightmost spine at that frame's depth. */
  lemma {:induction false} AttachTopOnSpine(s: seq<Frame>, m: Node)
    requires |s| >= 1
    ensures Collapse(s[..|s| - 1] + [Attach(s[|s| - 1], m)]) == AppendOnSpine(Collapse(s), |s| - 1, m)
    decreases |s|
  {
    var s' := s[..|s| - 1] + [Attach(s[|s| - 1], m)];
    if |s| > 1 {
      assert s'[1..] == s[1..][..|s| - 2] + [Attach(s[1..][|s| - 2], m)];
      AttachTopOnSpine(s[1..], m);
      var t := Collapse(s);
      assert t.children[..|t.children| - 1] == s[0].children;
    }
  }

  /** Opening a frame above the innermost one is appending its node on the
      tree's rightmost spine at the old innermost depth. */
  lemma {:induction false} PushOnSpine(s: seq<Frame>, f: Frame)
    requires |s| >= 1
    ensures Collapse(s + [f]) == AppendOnSpine(Collapse(s), |s| - 1, Close(f))
    decreases |s|
  {
    if |s| == 1 {
      assert (s + [f])[1..] == [f];
    } else {
      assert (s + [f])[1..] == s[1..] + [f];
      PushOnSpine(s[1..], f);
      var t := Collapse(s);
      assert t.children[..|t.children| - 1] == s[0].children;
    }
  }
}
