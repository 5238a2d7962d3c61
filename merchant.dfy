/** The merchant-name heuristic of the detection service (`extractMerchantName`): for each
    label in a fixed order, for each node whose text contains it (in traversal order), the
    first other child of that node's parent that has text is the merchant; failing all of
    them, a fixed sentinel. */
module MerchantExtraction {
  import opened Base
  import opened AccessibilityTree

  /** The labels tried, in order: merchant, payee, seller, store. */
  const MerchantLabels: seq<string> := ["商户:", "收款方:", "商家:", "店铺:"]

  /** The name returned when no label yields a sibling with text: "unknown merchant". */
  const UnknownMerchant: string := "未知商户"

  /** Child slot `k` of `p` holds a node other than `node` that carries text. */
  predicate IsSiblingWithText(t: Tree, p: nat, node: nat, k: nat)
    requires Valid(t) && p < |t| && k < |t[p].children|
  {
    var c := ChildAt(t, p, k);
    c.Some? && c.value != node && t[c.value].text.Some?
  }

  /** The text of the first sibling with text among the child slots of `p` from `k` on. */
  function SiblingTextFrom(t: Tree, p: nat, node: nat, k: nat): (r: Option<string>)
    requires Valid(t) && p < |t| && k <= |t[p].children|
    ensures r.None? <==> forall j :: k <= j < |t[p].children| ==> !IsSiblingWithText(t, p, node, j)
    ensures r.Some? ==>
              (exists j :: k <= j < |t[p].children| && IsSiblingWithText(t, p, node, j) &&
                 t[ChildAt(t, p, j).value].text == Some(r.value) &&
                 (forall i :: k <= i < j ==> !IsSiblingWithText(t, p, node, i)))
    decreases |t[p].children| - k
  {
    if k == |t[p].children| then None
    else if IsSiblingWithText(t, p, node, k) then t[ChildAt(t, p, k).value].text
    else SiblingTextFrom(t, p, node, k + 1)
  }

  /** What one matched node yields: nothing when it has no parent, otherwise the first
      sibling with text. */
  function SiblingText(t: Tree, node: nat): Option<string>
    requires Valid(t) && node < |t|
  {
    assert NodeValid(t, node);
    match t[node].parent
    case None => None
    case Some(p) => SiblingTextFrom(t, p, node, 0)
  }

  /** What each of the matched `nodes` yields, in order. */
  function NodeYields(t: Tree, nodes: seq<nat>): (ys: seq<Option<string>>)
    requires Valid(t) && Below(nodes, |t|)
    ensures |ys| == |nodes| && forall j :: 0 <= j < |nodes| ==> ys[j] == SiblingText(t, nodes[j])
  {
    seq(|nodes|, j requires 0 <= j < |nodes| => SiblingText(t, nodes[j]))
  }

  /** What the label `marker` yields over the whole window: the first matched node that
      yields a name. */
  function LabelYield(t: Tree, marker: string): Option<string>
    requires Valid(t)
  {
    FirstSome(NodeYields(t, NodesWithText(t, marker)), 0)
  }

  /** What each label yields, in label order. */
  function LabelYields(t: Tree): (ys: seq<Option<string>>)
    requires Valid(t)
    ensures |ys| == |MerchantLabels|
    ensures forall j :: 0 <= j < |MerchantLabels| ==> ys[j] == LabelYield(t, MerchantLabels[j])
  {
    seq(|MerchantLabels|, j requires 0 <= j < |MerchantLabels| => LabelYield(t, MerchantLabels[j]))
  }

  /** The merchant name the heuristic settles on: what the first label that yields a name
      yields, or the sentinel. */
  function MerchantName(t: Tree): string
    requires Valid(t)
  {
    FirstSome(LabelYields(t), 0).GetOr(UnknownMerchant)
  }

  /** The innermost loop of `extractMerchantName`: skip a matched node without a parent,
      otherwise scan the parent's children for the first other child with text. */
  method ScanSiblings(t: Tree, node: nat) returns (r: Option<string>)
    requires Valid(t) && node < |t|
    ensures r == SiblingText(t, node)
  {
    assert NodeValid(t, node);
    if t[node].parent.None? {
      return None;
    }
    var parent := t[node].parent.value;
    var ci := 0;
    while ci < |t[parent].children|
      invariant ci <= |t[parent].children|
      invariant SiblingText(t, node) == SiblingTextFrom(t, parent, node, ci)
    {
      var child := ChildAt(t, parent, ci);
      if child.Some? && child.value != node && t[child.value].text.Some? {
        return t[child.value].text;
      }
      ci := ci + 1;
    }
    return None;
  }

  /** The middle loop of `extractMerchantName`: the matched nodes in traversal order, the
      first one that yields a sibling text wins. */
  method ScanNodes(t: Tree, nodes: seq<nat>) returns (r: Option<string>)
    requires Valid(t) && Below(nodes, |t|)
    ensures r == FirstSome(NodeYields(t, nodes), 0)
  {
    ghost var nodeYields := NodeYields(t, nodes);
    var ni := 0;
    while ni < |nodes|
      invariant ni <= |nodes|
      invariant FirstSome(nodeYields, 0) == FirstSome(nodeYields, ni)
    {
      var found := ScanSiblings(t, nodes[ni]);
      FirstSomeStep(nodeYields, ni);
      if found.Some? {
        return found;
      }
      ni := ni + 1;
    }
    return None;
  }

  /** `extractMerchantName`: labels in order, matched nodes in traversal order, and the
      first sibling text found is returned at once. */
  method ExtractMerchantName(t: Tree) returns (name: string)
    requires Valid(t)
    ensures name == MerchantName(t)
  {
    ghost var labelYields := LabelYields(t);
    var li := 0;
    while li < |MerchantLabels|
      invariant li <= |MerchantLabels|
      invariant FirstSome(labelYields, 0) == FirstSome(labelYields, li)
    {
      var found := ScanNodes(t, NodesWithText(t, MerchantLabels[li]));
      FirstSomeStep(labelYields, li);
      if found.Some? {
        return found.value;
      }
      li := li + 1;
    }
    name := UnknownMerchant;
  }

  /** The sentinel comes back in particular when no node's text contains any label. */
  lemma NoLabelGivesUnknown(t: Tree)
    requires Valid(t)
    requires forall j :: 0 <= j < |MerchantLabels| ==> NodesWithText(t, MerchantLabels[j]) == []
    ensures MerchantName(t) == UnknownMerchant
  {
    forall j | 0 <= j < |MerchantLabels| ensures LabelYields(t)[j].None? {
      assert NodeYields(t, NodesWithText(t, MerchantLabels[j])) == [];
    }
    FirstSomeSpec(LabelYields(t), 0);
  }

  /** `c` is a child of `x`'s parent `p` other than `x`, and its text is `name`. */
  predicate SiblingNamed(t: Tree, x: int, p: int, c: int, name: string) {
    && 0 <= x < |t| && 0 <= p < |t| && 0 <= c < |t|
    && t[x].parent == Some(p) && Some(c) in t[p].children && c != x
    && t[c].text == Some(name)
  }

  lemma SiblingTextSound(t: Tree, x: nat, name: string)
    requires Valid(t) && x < |t| && SiblingText(t, x) == Some(name)
    ensures exists p, c :: SiblingNamed(t, x, p, c, name)
  {
    assert NodeValid(t, x);
    var p := t[x].parent.value;
    var k :| 0 <= k < |t[p].children| && IsSiblingWithText(t, p, x, k) &&
             t[ChildAt(t, p, k).value].text == Some(name);
    var c := ChildAt(t, p, k).value;
    assert t[p].children[k] == Some(c);
    assert SiblingNamed(t, x, p, c, name);
  }

  /** A name other than the fallback is the text of a sibling of a labelled node: some
      label is contained in the text of a node `x` with parent `p`, and the name is the text
      of a different child `c` of `p`. */
  lemma NameIsLabelledSibling(t: Tree)
    requires Valid(t)
    requires FirstSome(LabelYields(t), 0).Some?
    ensures exists li, x, p, c :: 0 <= li < |MerchantLabels| && 0 <= x < |t| &&
              HasText(t[x], MerchantLabels[li]) && SiblingNamed(t, x, p, c, MerchantName(t))
  {
    var name := MerchantName(t);
    var ys := LabelYields(t);
    FirstSomeSpec(ys, 0);
    var li :| 0 <= li < |MerchantLabels| && ys[li] == Some(name);
    var nodes := NodesWithText(t, MerchantLabels[li]);
    FirstSomeSpec(NodeYields(t, nodes), 0);
    var j :| 0 <= j < |nodes| && NodeYields(t, nodes)[j] == Some(name);
    var x := nodes[j];
    assert x in nodes;
    SiblingTextSound(t, x, name);
    var p, c :| SiblingNamed(t, x, p, c, name);
    assert HasText(t[x], MerchantLabels[li]);
  }

  /** Labels are tried in order: when "商户:" yields a name, later labels are not consulted. */
  lemma FirstLabelWins(t: Tree)
    requires Valid(t)
    requires LabelYield(t, MerchantLabels[0]).Some?
    ensures MerchantName(t) == LabelYield(t, MerchantLabels[0]).value
  {
    assert LabelYields(t)[0].Some?;
  }

  /** A label beside a node whose text is present but empty. */
  function EmptyNeighbourTree(): Tree {
    [Node(None, None, [Some(1), Some(2)]),
     Node(Some("商户:"), Some(0), []),
     Node(Some(""), Some(0), [])]
  }

  lemma EmptyNeighbourTreeValid()
    ensures Valid(EmptyNeighbourTree())
  {
    var t := EmptyNeighbourTree();
    assert NodeValid(t, 0);
    assert NodeValid(t, 1);
    assert NodeValid(t, 2);
  }

  /** Only a missing text disqualifies a sibling: an empty one is taken, and the merchant
      name comes out empty rather than the sentinel. */
  lemma EmptyNeighbourTextIsTaken()
    ensures Valid(EmptyNeighbourTree())
    ensures MerchantName(EmptyNeighbourTree()) == ""
  {
    var t := EmptyNeighbourTree();
    EmptyNeighbourTreeValid();
    assert PreOrder(t, 1) == [1];
    assert PreOrder(t, 2) == [2];
    assert ChildrenOrder(t, 0, 2) == [1, 2];
    var marker := MerchantLabels[0];
    ContainsSelf(marker);
    NotContainsLonger("", marker);
    assert Matching(t, [0, 1, 2], marker) == [1];
    assert !IsSiblingWithText(t, 0, 1, 0);
    assert SiblingText(t, 1) == Some("");
    assert NodeYields(t, [1]) == [Some("")];
    FirstLabelWins(t);
  }
}
