/** The accessibility tree of the active window, captured as a finite read-only node table,
    and the two ways the detection service reads it: the concatenation of all node texts
    (`getAllText`) and the host's text search (`findAccessibilityNodeInfosByText`). */
module AccessibilityTree {
  import opened Base

  /** One node: its text (`null` when absent), its parent (`null` at the root) and its
      child slots in order; a slot is `None` where the host hands back no node. */
  datatype Node = Node(text: Option<string>, parent: Option<nat>, children: seq<Option<nat>>)

  /** Node 0 is the root. Every child index is larger than its parent's, which rules out
      cycles; a finite tree numbered in pre-order has this shape. */
  type Tree = seq<Node>

  const Root: nat := 0

  /** Indices stay inside the table and children come after their parent, so traversals
      terminate. A `parent` link is not required to match the parent's child slots: the
      host reports the two separately, and the merchant heuristic reads both as given. */
  predicate NodeValid(t: Tree, i: nat)
    requires i < |t|
  {
    && (t[i].parent.Some? ==> t[i].parent.value < |t|)
    && forall k :: 0 <= k < |t[i].children| && t[i].children[k].Some? ==>
         i < t[i].children[k].value < |t|
  }

  predicate Valid(t: Tree) {
    |t| > 0 && forall i :: 0 <= i < |t| ==> NodeValid(t, i)
  }

  /** The child in slot `k` of node `i`, when the slot holds one. */
  function ChildAt(t: Tree, i: nat, k: nat): (c: Option<nat>)
    requires Valid(t) && i < |t| && k < |t[i].children|
    ensures c.Some? ==> i < c.value < |t|
  {
    assert NodeValid(t, i);
    t[i].children[k]
  }

  /** What a node contributes to the concatenation: its text, or nothing. */
  function Own(n: Node): string {
    n.text.GetOr("")
  }

  /** The text `getAllText` builds for the subtree at `i`: the node's own text, then the
      texts of its children's subtrees in slot order. */
  function AllText(t: Tree, i: nat): string
    requires Valid(t) && i < |t|
    decreases |t| - i, 1
  {
    Own(t[i]) + ChildrenText(t, i, |t[i].children|)
  }

  /** The texts of the subtrees in the first `k` child slots of `i`. */
  function ChildrenText(t: Tree, i: nat, k: nat): string
    requires Valid(t) && i < |t| && k <= |t[i].children|
    decreases |t| - i, 0, k
  {
    if k == 0 then ""
    else
      ChildrenText(t, i, k - 1) +
      match ChildAt(t, i, k - 1)
      case None => ""
      case Some(c) => AllText(t, c)
  }

  /** The nodes of the subtree at `i` in pre-order: the node, then its children's subtrees. */
  function PreOrder(t: Tree, i: nat): (r: seq<nat>)
    requires Valid(t) && i < |t|
    ensures |r| > 0 && r[0] == i
    ensures forall k :: 0 <= k < |r| ==> i <= r[k] < |t|
    decreases |t| - i, 1
  {
    [i] + ChildrenOrder(t, i, |t[i].children|)
  }

  /** The pre-orders of the subtrees in the first `k` child slots of `i`. */
  function ChildrenOrder(t: Tree, i: nat, k: nat): (r: seq<nat>)
    requires Valid(t) && i < |t| && k <= |t[i].children|
    ensures forall k' :: 0 <= k' < |r| ==> i < r[k'] < |t|
    decreases |t| - i, 0, k
  {
    if k == 0 then []
    else
      ChildrenOrder(t, i, k - 1) +
      match ChildAt(t, i, k - 1)
      case None => []
      case Some(c) => PreOrder(t, c)
  }

  /** Every listed index is below `n`. */
  predicate Below(ids: seq<nat>, n: nat) {
    forall k :: 0 <= k < |ids| ==> ids[k] < n
  }

  /** The own texts of the listed nodes, concatenated in list order. */
  function Texts(t: Tree, ids: seq<nat>): string
    requires Below(ids, |t|)
  {
    if ids == [] then "" else Own(t[ids[0]]) + Texts(t, ids[1..])
  }

  lemma {:induction false} TextsAppend(t: Tree, a: seq<nat>, b: seq<nat>)
    requires Below(a, |t|) && Below(b, |t|)
    ensures Texts(t, a + b) == Texts(t, a) + Texts(t, b)
  {
    if a != [] {
      assert (a + b)[1..] == a[1..] + b;
      TextsAppend(t, a[1..], b);
    } else {
      assert a + b == b;
    }
  }

  /** `getAllText` is the own texts of the subtree's nodes, concatenated in pre-order. */
  lemma {:induction false} AllTextIsPreOrderTexts(t: Tree, i: nat)
    requires Valid(t) && i < |t|
    ensures AllText(t, i) == Texts(t, PreOrder(t, i))
    decreases |t| - i, 1
  {
    var n := |t[i].children|;
    ChildrenTextIsPreOrderTexts(t, i, n);
    var rest := ChildrenOrder(t, i, n);
    assert PreOrder(t, i) == [i] + rest;
    assert ([i] + rest)[1..] == rest;
  }

  lemma {:induction false} ChildrenTextIsPreOrderTexts(t: Tree, i: nat, k: nat)
    requires Valid(t) && i < |t| && k <= |t[i].children|
    ensures ChildrenText(t, i, k) == Texts(t, ChildrenOrder(t, i, k))
    decreases |t| - i, 0, k
  {
    if k > 0 {
      ChildrenTextIsPreOrderTexts(t, i, k - 1);
      var prefix := ChildrenOrder(t, i, k - 1);
      match ChildAt(t, i, k - 1)
      case None =>
        assert ChildrenOrder(t, i, k) == prefix + [];
        assert prefix + [] == prefix;
      case Some(c) =>
        AllTextIsPreOrderTexts(t, c);
        TextsAppend(t, prefix, PreOrder(t, c));
    }
  }

  lemma AppendAssoc(a: string, b: string, c: string)
    ensures (a + b) + c == a + (b + c)
  {
  }

  /** One more child slot appends that child's subtree text, if the slot holds a child. */
  lemma ChildrenTextStep(t: Tree, i: nat, k: nat)
    requires Valid(t) && i < |t| && k < |t[i].children|
    ensures ChildrenText(t, i, k + 1) ==
              ChildrenText(t, i, k) +
              (if ChildAt(t, i, k).Some? then AllText(t, ChildAt(t, i, k).value) else "")
  {
  }

  /** `getAllText`: appends the node's text, then each present child's text, in slot order. */
  method GetAllText(t: Tree, i: nat) returns (s: string)
    requires Valid(t) && i < |t|
    ensures s == Texts(t, PreOrder(t, i))
    decreases |t| - i
  {
    var builder := "";
    if t[i].text.Some? {
      builder := builder + t[i].text.value;
    }
    var k := 0;
    while k < |t[i].children|
      invariant k <= |t[i].children|
      invariant builder == Own(t[i]) + ChildrenText(t, i, k)
    {
      var child := ChildAt(t, i, k);
      if child.Some? {
        var sub := GetAllText(t, child.value);
        AllTextIsPreOrderTexts(t, child.value);
        AppendAssoc(Own(t[i]), ChildrenText(t, i, k), sub);
        builder := builder + sub;
      } else {
        assert ChildrenText(t, i, k) + "" == ChildrenText(t, i, k);
      }
      ChildrenTextStep(t, i, k);
      k := k + 1;
    }
    s := builder;
    AllTextIsPreOrderTexts(t, i);
  }

  /** The node `n` carries a text that contains `needle`. */
  predicate HasText(n: Node, needle: string) {
    n.text.Some? && Contains(n.text.value, needle)
  }

  /** The listed nodes whose text contains `needle`, in list order. */
  function Matching(t: Tree, ids: seq<nat>, needle: string): (r: seq<nat>)
    requires Below(ids, |t|)
    ensures forall x :: x in r <==> x in ids && x < |t| && HasText(t[x], needle)
    ensures |r| <= |ids| && Below(r, |t|)
  {
    if ids == [] then []
    else if HasText(t[ids[0]], needle) then [ids[0]] + Matching(t, ids[1..], needle)
    else Matching(t, ids[1..], needle)
  }

  /** Searching a concatenation of lists is searching each in turn, so the search keeps
      the order of the list. */
  lemma {:induction false} MatchingAppend(t: Tree, a: seq<nat>, b: seq<nat>, needle: string)
    requires Below(a, |t|) && Below(b, |t|)
    ensures Below(a + b, |t|)
    ensures Matching(t, a + b, needle) == Matching(t, a, needle) + Matching(t, b, needle)
  {
    if a == [] {
      assert a + b == b;
    } else {
      assert (a + b)[0] == a[0];
      assert (a + b)[1..] == a[1..] + b;
      MatchingAppend(t, a[1..], b, needle);
    }
  }

  /** The first node found is the first listed node with the text. */
  lemma {:induction false} MatchingFirst(t: Tree, ids: seq<nat>, needle: string)
    requires Below(ids, |t|) && Matching(t, ids, needle) != []
    ensures exists i :: 0 <= i < |ids| && ids[i] == Matching(t, ids, needle)[0] &&
              HasText(t[ids[i]], needle) &&
              forall j :: 0 <= j < i ==> !HasText(t[ids[j]], needle)
  {
    if !HasText(t[ids[0]], needle) {
      MatchingFirst(t, ids[1..], needle);
      var i :| 0 <= i < |ids[1..]| && ids[1..][i] == Matching(t, ids[1..], needle)[0] &&
               HasText(t[ids[1..][i]], needle) &&
               forall j :: 0 <= j < i ==> !HasText(t[ids[1..][j]], needle);
      assert ids[i + 1] == Matching(t, ids, needle)[0];
      assert forall j :: 0 <= j < i + 1 ==> !HasText(t[ids[j]], needle) by {
        forall j | 0 <= j < i + 1 ensures !HasText(t[ids[j]], needle) {
          if j > 0 { assert ids[j] == ids[1..][j - 1]; }
        }
      }
    }
  }

  /** `findAccessibilityNodeInfosByText`: the nodes of the window, in pre-order, whose
      text contains `needle`. */
  function NodesWithText(t: Tree, needle: string): (r: seq<nat>)
    requires Valid(t)
    ensures Below(r, |t|)
    ensures forall x :: x in r <==> x in PreOrder(t, Root) && HasText(t[x], needle)
  {
    Matching(t, PreOrder(t, Root), needle)
  }

  lemma {:induction false} TextsContainsMember(t: Tree, ids: seq<nat>, x: nat)
    requires Below(ids, |t|)
    requires x in ids && x < |t|
    ensures Contains(Texts(t, ids), Own(t[x]))
  {
    if ids[0] == x {
      ContainsSelf(Own(t[x]));
      ContainsInAppend(Own(t[x]), Texts(t, ids[1..]), Own(t[x]));
    } else {
      TextsContainsMember(t, ids[1..], x);
      ContainsInAppend(Own(t[ids[0]]), Texts(t, ids[1..]), Own(t[x]));
    }
  }

  /** When some node's text contains a phrase, so does the concatenated text. */
  lemma NodeTextInAllText(t: Tree, needle: string)
    requires Valid(t)
    requires NodesWithText(t, needle) != []
    ensures Contains(AllText(t, Root), needle)
  {
    var x := NodesWithText(t, needle)[0];
    assert x in NodesWithText(t, needle);
    TextsContainsMember(t, PreOrder(t, Root), x);
    AllTextIsPreOrderTexts(t, Root);
    ContainsTransitive(AllText(t, Root), Own(t[x]), needle);
  }

  /** A window whose phrase "支付成功" is split over two sibling nodes. */
  function SplitPhraseTree(): Tree {
    [Node(None, None, [Some(1), Some(2)]),
     Node(Some("支付"), Some(0), []),
     Node(Some("成功"), Some(0), [])]
  }

  lemma SplitPhraseTreeValid()
    ensures Valid(SplitPhraseTree())
  {
    var t := SplitPhraseTree();
    assert NodeValid(t, 0);
    assert NodeValid(t, 1);
    assert NodeValid(t, 2);
  }

  lemma SplitPhraseTreeChildren()
    ensures Valid(SplitPhraseTree())
    ensures ChildrenOrder(SplitPhraseTree(), 0, 2) == [1, 2]
  {
    var t := SplitPhraseTree();
    SplitPhraseTreeValid();
    assert PreOrder(t, 1) == [1];
    assert PreOrder(t, 2) == [2];
    assert ChildrenOrder(t, 0, 1) == [1];
  }

  lemma SplitPhraseTreeOrder()
    ensures Valid(SplitPhraseTree())
    ensures PreOrder(SplitPhraseTree(), Root) == [0, 1, 2]
  {
    var t := SplitPhraseTree();
    SplitPhraseTreeChildren();
    assert PreOrder(t, Root) == [0] + ChildrenOrder(t, 0, 2);
  }

  lemma SplitPhraseTreeShape()
    ensures Valid(SplitPhraseTree())
    ensures PreOrder(SplitPhraseTree(), Root) == [0, 1, 2]
    ensures AllText(SplitPhraseTree(), Root) == "支付成功"
  {
    var t := SplitPhraseTree();
    SplitPhraseTreeOrder();
    assert AllText(t, 1) == "支付";
    assert AllText(t, 2) == "成功";
    assert ChildrenText(t, 0, 1) == "支付";
    assert ChildrenText(t, 0, 2) == "支付成功";
  }

  /** The converse fails: a phrase split over two nodes is in the concatenated text but in
      no single node, so the per-node search and a search of the whole text differ. */
  lemma SplitPhraseFoundOnlyInAllText()
    ensures Valid(SplitPhraseTree())
    ensures NodesWithText(SplitPhraseTree(), "支付成功") == []
    ensures Contains(AllText(SplitPhraseTree(), Root), "支付成功")
  {
    var t := SplitPhraseTree();
    SplitPhraseTreeShape();
    NotContainsLonger("支付", "支付成功");
    NotContainsLonger("成功", "支付成功");
    assert !HasText(t[0], "支付成功") && !HasText(t[1], "支付成功") && !HasText(t[2], "支付成功");
    assert Matching(t, [2], "支付成功") == [];
    assert Matching(t, [1, 2], "支付成功") == [];
    assert Matching(t, [0, 1, 2], "支付成功") == [];
    ContainsSelf("支付成功");
  }
}
