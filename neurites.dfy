/** The tube-selection walk of `Neuron.create_mesh` (morphapi/morphology/morphology.py):
    a neurite is a tree of sections, NeuroM's `iter_sections` visits it in preorder, and
    for each visited section every leaf child is drawn as one tube and every
    non-leaf child contributes one tube per grandchild. */
module Neurites {
  import opened Geometry

  /** A NeuroM section: its polyline and its child sections. */
  datatype Section = Section(points: seq<Point>, children: seq<Section>)

  predicate IsLeaf(s: Section) {
    |s.children| == 0
  }

  /** Concatenation of a sequence of sequences, in order. */
  function Flat<T>(xss: seq<seq<T>>): (r: seq<T>)
    decreases |xss|
  {
    if |xss| == 0 then [] else Flat(xss[..|xss| - 1]) + xss[|xss| - 1]
  }

  lemma {:induction false} FlatMember<T>(xss: seq<seq<T>>, x: T)
    ensures x in Flat(xss) <==> exists i :: 0 <= i < |xss| && x in xss[i]
    decreases |xss|
  {
    if |xss| > 0 {
      var front := xss[..|xss| - 1];
      FlatMember(front, x);
      if x in Flat(front) {
        var i :| 0 <= i < |front| && x in front[i];
        assert x in xss[i];
      }
      if exists i :: 0 <= i < |xss| && x in xss[i] {
        var i :| 0 <= i < |xss| && x in xss[i];
        if i < |xss| - 1 {
          assert x in front[i];
        }
      }
    }
  }

  lemma {:induction false} FlatLength<T>(xss: seq<seq<T>>, i: nat)
    requires i < |xss|
    ensures |xss[i]| <= |Flat(xss)|
    decreases |xss|
  {
    if i < |xss| - 1 {
      FlatLength(xss[..|xss| - 1], i);
    }
  }

  lemma FlatStep<T>(xss: seq<seq<T>>, i: nat)
    requires i < |xss|
    ensures Flat(xss[..i + 1]) == Flat(xss[..i]) + xss[i]
  {
    assert xss[..i + 1][..i] == xss[..i];
  }

  /** `iter_sections`: the section, then each child's subtree in order. */
  function Preorder(s: Section): (r: seq<Section>)
    ensures |r| >= 1 && r[0] == s
    decreases s
  {
    [s] + Flat(seq(|s.children|, i requires 0 <= i < |s.children| => Preorder(s.children[i])))
  }

  /** What one visited section contributes: a leaf child itself, a non-leaf child its
      children. */
  function ChildDraws(c: Section): seq<Section> {
    if IsLeaf(c) then [c] else c.children
  }

  function SectionDraws(p: Section): seq<Section> {
    Flat(seq(|p.children|, j requires 0 <= j < |p.children| => ChildDraws(p.children[j])))
  }

  /** The sections drawn as tubes for one neurite, in drawing order. */
  function Drawn(root: Section): seq<Section> {
    var order := Preorder(root);
    Flat(seq(|order|, i requires 0 <= i < |order| => SectionDraws(order[i])))
  }

  /** The rule in words: `x` is drawn from `p` when it is a leaf child of `p` or a child
      of one of `p`'s children. */
  predicate DrawnFrom(p: Section, x: Section) {
    exists j :: 0 <= j < |p.children| && ((p.children[j] == x && IsLeaf(x)) || x in p.children[j].children)
  }

  lemma SectionDrawsRule(p: Section, x: Section)
    ensures x in SectionDraws(p) <==> DrawnFrom(p, x)
  {
    var xss := seq(|p.children|, j requires 0 <= j < |p.children| => ChildDraws(p.children[j]));
    FlatMember(xss, x);
    if DrawnFrom(p, x) {
      var j :| 0 <= j < |p.children| && ((p.children[j] == x && IsLeaf(x)) || x in p.children[j].children);
      assert x in xss[j];
    }
  }

  /** A section is drawn exactly when some visited section draws it by the rule: a leaf
      child from its parent, any grandchild from its grandparent. */
  lemma DrawnRule(root: Section, x: Section)
    ensures x in Drawn(root) <==> exists p :: p in Preorder(root) && DrawnFrom(p, x)
  {
    var order := Preorder(root);
    var xss := seq(|order|, i requires 0 <= i < |order| => SectionDraws(order[i]));
    FlatMember(xss, x);
    if x in Drawn(root) {
      var i :| 0 <= i < |xss| && x in xss[i];
      SectionDrawsRule(order[i], x);
    }
    if exists p :: p in Preorder(root) && DrawnFrom(p, x) {
      var p :| p in order && DrawnFrom(p, x);
      var i :| 0 <= i < |order| && order[i] == p;
      SectionDrawsRule(p, x);
      assert x in xss[i];
    }
  }

  /** The number of sections in a subtree. */
  function Size(s: Section): nat {
    |Preorder(s)|
  }

  /** A child's subtree is smaller than its parent's. */
  lemma ChildSmaller(p: Section, j: nat)
    requires j < |p.children|
    ensures Size(p.children[j]) < Size(p)
  {
    var xss := seq(|p.children|, i requires 0 <= i < |p.children| => Preorder(p.children[i]));
    FlatLength(xss, j);
  }

  /** A visited section's subtree is no larger than the whole tree. */
  lemma {:induction false} PreorderSmaller(s: Section, p: Section)
    requires p in Preorder(s)
    ensures Size(p) <= Size(s)
    decreases s
  {
    if p != s {
      var xss := seq(|s.children|, i requires 0 <= i < |s.children| => Preorder(s.children[i]));
      assert p in Flat(xss);
      FlatMember(xss, p);
      var i :| 0 <= i < |xss| && p in xss[i];
      PreorderSmaller(s.children[i], p);
      ChildSmaller(s, i);
    }
  }

  /** The root section of a neurite is never drawn as a tube. */
  lemma RootNeverDrawn(root: Section)
    ensures root !in Drawn(root)
  {
    DrawnRule(root, root);
    if root in Drawn(root) {
      var p :| p in Preorder(root) && DrawnFrom(p, root);
      PreorderSmaller(root, p);
      var j :| 0 <= j < |p.children| && ((p.children[j] == root && IsLeaf(root)) || root in p.children[j].children);
      ChildSmaller(p, j);
      if root in p.children[j].children {
        var k :| 0 <= k < |p.children[j].children| && p.children[j].children[k] == root;
        ChildSmaller(p.children[j], k);
      }
    }
  }

  lemma FlatOne<T>(xss: seq<seq<T>>)
    requires |xss| == 1
    ensures Flat(xss) == xss[0]
  {
    assert xss[..0] == [];
  }

  lemma PreorderLeaf(s: Section)
    requires IsLeaf(s)
    ensures Preorder(s) == [s]
  {
  }

  lemma OnlyChild(s: Section)
    requires |s.children| == 1
    ensures Preorder(s) == [s] + Preorder(s.children[0])
    ensures SectionDraws(s) == ChildDraws(s.children[0])
  {
    FlatOne(seq(1, i requires 0 <= i < 1 => Preorder(s.children[i])));
    FlatOne(seq(1, j requires 0 <= j < 1 => ChildDraws(s.children[j])));
  }

  /** The walk on a three-section chain: the middle section is never drawn and the
      tip is drawn twice, once as its grandparent's grandchild and once as its
      parent's leaf child. */
  lemma ChainDrawsTipTwice(a: seq<Point>, b: seq<Point>, c: seq<Point>)
    ensures var tip := Section(c, []);
            var mid := Section(b, [tip]);
            Drawn(Section(a, [mid])) == [tip, tip]
  {
    var tip := Section(c, []);
    var mid := Section(b, [tip]);
    var root := Section(a, [mid]);
    PreorderLeaf(tip);
    OnlyChild(mid);
    OnlyChild(root);
    var order := Preorder(root);
    assert order == [root, mid, tip];
    var d0, d1, d2 := SectionDraws(root), SectionDraws(mid), SectionDraws(tip);
    assert d0 == [tip] by { assert !IsLeaf(mid); }
    assert d1 == [tip] by { assert IsLeaf(tip); }
    assert d2 == [] by { assert |tip.children| == 0; }
    var xss := seq(|order|, i requires 0 <= i < |order| => SectionDraws(order[i]));
    assert xss == [d0, d1, d2];
    FlatThree(xss);
  }

  lemma FlatThree<T>(xss: seq<seq<T>>)
    requires |xss| == 3
    ensures Flat(xss) == xss[0] + xss[1] + xss[2]
  {
    FlatStep(xss, 0);
    FlatStep(xss, 1);
    FlatStep(xss, 2);
    assert xss[..0] == [];
    assert xss[..3] == xss;
  }

  // ------------------------------------------------------------------- tubes

  /** `Tube(coords, r=neurite_radius)` for a drawn section, its polyline permuted when
      `invert_dims` is set. */
  function TubeOf(s: Section, invert: bool, radius: real): Mesh {
    Mesh([Tube(OrientedAll(s.points, invert), radius)])
  }

  function Tubes(ds: seq<Section>, invert: bool, radius: real): (r: seq<Mesh>)
    ensures |r| == |ds|
    ensures forall i :: 0 <= i < |ds| ==> r[i] == TubeOf(ds[i], invert, radius)
  {
    seq(|ds|, i requires 0 <= i < |ds| => TubeOf(ds[i], invert, radius))
  }

  lemma TubesAppend(a: seq<Section>, b: seq<Section>, invert: bool, radius: real)
    ensures Tubes(a + b, invert, radius) == Tubes(a, invert, radius) + Tubes(b, invert, radius)
  {
  }

  /** The sections drawn for all neurites of one type, neurite by neurite. */
  function DrawnAll(neurites: seq<Section>): seq<Section> {
    Flat(seq(|neurites|, i requires 0 <= i < |neurites| => Drawn(neurites[i])))
  }

  /** The grandchild loop of one non-leaf child. */
  method GrandchildTubes(child: Section, invert: bool, radius: real) returns (actors: seq<Mesh>)
    ensures actors == Tubes(child.children, invert, radius)
  {
    actors := [];
    var k := 0;
    while k < |child.children|
      invariant 0 <= k <= |child.children|
      invariant actors == Tubes(child.children[..k], invert, radius)
    {
      var grandchild := child.children[k];
      var coords := grandchild.points;
      if invert {
        coords := SwapAll(coords);
      }
      actors := actors + [Mesh([Tube(coords, radius)])];
      assert child.children[..k + 1] == child.children[..k] + [grandchild];
      k := k + 1;
    }
    assert child.children[..k] == child.children;
  }

  /** The child loop of one visited section. */
  method SectionTubes(section: Section, invert: bool, radius: real) returns (actors: seq<Mesh>)
    ensures actors == Tubes(SectionDraws(section), invert, radius)
  {
    var xss := seq(|section.children|, j requires 0 <= j < |section.children| => ChildDraws(section.children[j]));
    actors := [];
    var j := 0;
    while j < |section.children|
      invariant 0 <= j <= |section.children|
      invariant actors == Tubes(Flat(xss[..j]), invert, radius)
    {
      var child := section.children[j];
      var more: seq<Mesh>;
      if IsLeaf(child) {
        var coords := child.points;
        if invert {
          coords := SwapAll(coords);
        }
        more := [Mesh([Tube(coords, radius)])];
        assert more == Tubes([child], invert, radius);
      } else {
        more := GrandchildTubes(child, invert, radius);
      }
      FlatStep(xss, j);
      TubesAppend(Flat(xss[..j]), xss[j], invert, radius);
      actors := actors + more;
      j := j + 1;
    }
    assert xss[..j] == xss;
  }

  /** The section loop for one neurite. */
  method NeuriteTubes(root: Section, invert: bool, radius: real) returns (actors: seq<Mesh>)
    ensures actors == Tubes(Drawn(root), invert, radius)
  {
    var order := Preorder(root);
    var xss := seq(|order|, i requires 0 <= i < |order| => SectionDraws(order[i]));
    actors := [];
    var s := 0;
    while s < |order|
      invariant 0 <= s <= |order|
      invariant actors == Tubes(Flat(xss[..s]), invert, radius)
    {
      var more := SectionTubes(order[s], invert, radius);
      FlatStep(xss, s);
      TubesAppend(Flat(xss[..s]), xss[s], invert, radius);
      actors := actors + more;
      s := s + 1;
    }
    assert xss[..s] == xss;
  }

  /** The loops of `create_mesh` for one neurite type: every neurite, every section in
      preorder, every tube of that section, appended to one list. */
  method NeuriteTypeTubes(neurites: seq<Section>, invert: bool, radius: real) returns (actors: seq<Mesh>)
    ensures actors == Tubes(DrawnAll(neurites), invert, radius)
  {
    var yss := seq(|neurites|, i requires 0 <= i < |neurites| => Drawn(neurites[i]));
    actors := [];
    var n := 0;
    while n < |neurites|
      invariant 0 <= n <= |neurites|
      invariant actors == Tubes(Flat(yss[..n]), invert, radius)
    {
      var more := NeuriteTubes(neurites[n], invert, radius);
      FlatStep(yss, n);
      TubesAppend(Flat(yss[..n]), yss[n], invert, radius);
      actors := actors + more;
      n := n + 1;
    }
    assert yss[..n] == yss;
  }
}
