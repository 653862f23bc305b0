/**
 * The model viewer's colouring: a fixed ten-colour palette assigned
 * round-robin to the meshes of a loaded model in traversal order, and the
 * "change colour" control that steps every mesh to the next palette colour.
 *
 * The palette is the viewer's read-only `colors` field; the operations take
 * it as a parameter and the viewer passes `Palette`.
 *
 * A model is abstracted to its nodes in depth-first traversal order; a node
 * is either a group (no geometry) or a mesh with a material. A material is
 * either the viewer's standard material with a 24-bit colour or whatever
 * material the loader attached.
 */
module ViewerMaterials {

  /** The viewer's palette, as 24-bit RGB values. */
  const Palette: seq<int> := [
    0xFF0000, 0x00FF00, 0x0000FF, 0xFFFF00,
    0xFF00FF, 0x00FFFF, 0xFF8800, 0x88FF00,
    0x0088FF, 0x8800FF
  ]

  /** No colour appears twice. */
  predicate Distinct(colors: seq<int>) {
    forall a, b :: 0 <= a < b < |colors| ==> colors[a] != colors[b]
  }

  lemma PaletteFacts()
    ensures |Palette| == 10 && Distinct(Palette)
  {
  }

  datatype Material = Standard(color: int) | Authored

  datatype Node = Group | Mesh(material: Material)

  /** The number of meshes among `nodes`: a mesh's rank is the count of meshes before it. */
  function MeshCount(nodes: seq<Node>): nat {
    if |nodes| == 0 then 0 else (if nodes[0].Mesh? then 1 else 0) + MeshCount(nodes[1..])
  }

  /** The traversal of `applyClothingMaterials` from a running colour index on. */
  function ApplyFrom(colors: seq<int>, nodes: seq<Node>, colorIndex: nat): (r: seq<Node>)
    requires |colors| > 0
    ensures |r| == |nodes|
    ensures forall i :: 0 <= i < |nodes| ==>
              r[i] == (if nodes[i].Mesh? then Mesh(Standard(colors[(colorIndex + MeshCount(nodes[..i])) % |colors|])) else nodes[i])
  {
    if |nodes| == 0 then []
    else
      var head := if nodes[0].Mesh? then Mesh(Standard(colors[colorIndex % |colors|])) else nodes[0];
      var next := if nodes[0].Mesh? then colorIndex + 1 else colorIndex;
      var rest := ApplyFrom(colors, nodes[1..], next);
      assert forall i :: 1 <= i < |nodes| ==> nodes[..i][1..] == nodes[1..][..i - 1];
      [head] + rest
  }

  /**
   * `applyClothingMaterials`: the mesh of rank k gets a standard material of
   * colour `colors[k mod |colors|]`; groups are untouched.
   */
  function ApplyClothingMaterials(colors: seq<int>, nodes: seq<Node>): (r: seq<Node>)
    requires |colors| > 0
    ensures |r| == |nodes|
    ensures forall i :: 0 <= i < |nodes| && !nodes[i].Mesh? ==> r[i] == nodes[i]
    ensures forall i :: 0 <= i < |nodes| && nodes[i].Mesh? ==>
              r[i] == Mesh(Standard(colors[MeshCount(nodes[..i]) % |colors|]))
  {
    ApplyFrom(colors, nodes, 0)
  }

  /** `Array.prototype.indexOf`: the first position of `c` in `s`, or -1. */
  function IndexOf(s: seq<int>, c: int): (r: int)
    ensures -1 <= r < |s|
    ensures r == -1 <==> c !in s
    ensures r >= 0 ==> s[r] == c && forall j :: 0 <= j < r ==> s[j] != c
  {
    if |s| == 0 then -1
    else if s[0] == c then 0
    else
      var k := IndexOf(s[1..], c);
      assert c in s <==> c in s[1..];
      if k == -1 then -1 else k + 1
  }

  /** In a sequence without repeats, the first position of the i-th element is i. */
  lemma {:induction false} IndexOfDistinct(s: seq<int>, i: nat)
    requires i < |s| && Distinct(s)
    ensures IndexOf(s, s[i]) == i
  {
    if i > 0 {
      assert s[1..][i - 1] == s[i];
      IndexOfDistinct(s[1..], i - 1);
    }
  }

  /** The colour `changeColor` gives a mesh now coloured `c`. */
  function NextColor(colors: seq<int>, c: int): (r: int)
    requires |colors| > 0
    ensures r in colors
    ensures c !in colors ==> r == colors[0]
  {
    colors[(IndexOf(colors, c) + 1) % |colors|]
  }

  /** A palette colour steps to the palette colour after it, wrapping from the last to the first. */
  lemma NextColorOfPalette(colors: seq<int>, i: nat)
    requires i < |colors| && Distinct(colors)
    ensures NextColor(colors, colors[i]) == colors[Succ(i, |colors|)]
  {
    IndexOfDistinct(colors, i);
    var m := |colors|;
    var j := (i + 1) % m;
    assert NextColor(colors, colors[i]) == colors[j];
    if i + 1 < m {
      SmallMod(i + 1, m);
    } else {
      SelfMod(m);
    }
  }

  lemma SmallMod(x: int, m: int)
    requires 0 <= x < m
    ensures x % m == x
  {
  }

  lemma SelfMod(m: int)
    requires m > 0
    ensures m % m == 0
  {
  }

  /** Only meshes with the viewer's standard material change colour. */
  function RecolorNode(colors: seq<int>, n: Node): Node
    requires |colors| > 0
  {
    match n
    case Mesh(Standard(c)) => Mesh(Standard(NextColor(colors, c)))
    case _ => n
  }

  /** One `changeColor` pass over a model's nodes. */
  function Recolor(colors: seq<int>, nodes: seq<Node>): (r: seq<Node>)
    requires |colors| > 0
    ensures |r| == |nodes|
    ensures forall i :: 0 <= i < |nodes| && !(nodes[i].Mesh? && nodes[i].material.Standard?) ==> r[i] == nodes[i]
    ensures forall i :: 0 <= i < |nodes| && nodes[i].Mesh? && nodes[i].material.Standard? ==>
              r[i] == Mesh(Standard(NextColor(colors, nodes[i].material.color)))
    ensures forall i :: 0 <= i < |nodes| && nodes[i].Mesh? && nodes[i].material.Standard? ==>
              r[i].Mesh? && r[i].material.Standard? && r[i].material.color in colors
    ensures forall i :: 0 <= i < |nodes| && nodes[i].Mesh? && nodes[i].material.Standard? && nodes[i].material.color !in colors ==>
              r[i] == Mesh(Standard(colors[0]))
  {
    seq(|nodes|, i requires 0 <= i < |nodes| => RecolorNode(colors, nodes[i]))
  }

  /** `n` successive `changeColor` passes. */
  function RecolorTimes(colors: seq<int>, n: nat, nodes: seq<Node>): seq<Node>
    requires |colors| > 0
  {
    if n == 0 then nodes else Recolor(colors, RecolorTimes(colors, n - 1, nodes))
  }

  /** `n` colour steps from one colour. */
  function ColorSteps(colors: seq<int>, n: nat, c: int): int
    requires |colors| > 0
  {
    if n == 0 then c else NextColor(colors, ColorSteps(colors, n - 1, c))
  }

  /** The palette position after `i`, wrapping from the last to the first. */
  function Succ(i: nat, m: nat): nat {
    if i + 1 == m then 0 else i + 1
  }

  /** The position reached from `i` after `n` steps round a palette of `m` colours. */
  function StepIndex(i: nat, n: nat, m: nat): nat {
    if n == 0 then i else Succ(StepIndex(i, n - 1, m), m)
  }

  /** Within one lap, `n` steps from `i` land on `i + n`, taken modulo `m`. */
  lemma {:induction false} StepIndexWithinLap(i: nat, n: nat, m: nat)
    requires i < m && n <= m
    ensures StepIndex(i, n, m) == if i + n < m then i + n else i + n - m
  {
    if n > 0 {
      StepIndexWithinLap(i, n - 1, m);
    }
  }

  /** `n` colour steps from a palette colour move `n` places round the palette. */
  lemma {:induction false} NextColorSteps(colors: seq<int>, n: nat, i: nat)
    requires i < |colors| && Distinct(colors)
    ensures StepIndex(i, n, |colors|) < |colors|
    ensures ColorSteps(colors, n, colors[i]) == colors[StepIndex(i, n, |colors|)]
  {
    if n > 0 {
      NextColorSteps(colors, n - 1, i);
      var k := StepIndex(i, n - 1, |colors|);
      NextColorOfPalette(colors, k);
    }
  }

  lemma {:induction false} RecolorTimesPointwise(colors: seq<int>, n: nat, nodes: seq<Node>)
    requires |colors| > 0
    ensures |RecolorTimes(colors, n, nodes)| == |nodes|
    ensures forall i :: 0 <= i < |nodes| && nodes[i].Mesh? && nodes[i].material.Standard? ==>
              RecolorTimes(colors, n, nodes)[i] == Mesh(Standard(ColorSteps(colors, n, nodes[i].material.color)))
    ensures forall i :: 0 <= i < |nodes| && !(nodes[i].Mesh? && nodes[i].material.Standard?) ==>
              RecolorTimes(colors, n, nodes)[i] == nodes[i]
  {
    if n > 0 {
      RecolorTimesPointwise(colors, n - 1, nodes);
    }
  }

  /** As many `changeColor` passes as there are palette colours bring palette-coloured meshes back. */
  lemma FullCycleIdentity(colors: seq<int>, nodes: seq<Node>)
    requires |colors| > 0 && Distinct(colors)
    requires forall i :: 0 <= i < |nodes| && nodes[i].Mesh? && nodes[i].material.Standard? ==>
               nodes[i].material.color in colors
    ensures RecolorTimes(colors, |colors|, nodes) == nodes
  {
    RecolorTimesPointwise(colors, |colors|, nodes);
    forall i | 0 <= i < |nodes| && nodes[i].Mesh? && nodes[i].material.Standard?
      ensures RecolorTimes(colors, |colors|, nodes)[i] == nodes[i]
    {
      var k := IndexOf(colors, nodes[i].material.color);
      NextColorSteps(colors, |colors|, k);
      StepIndexWithinLap(k, |colors|, |colors|);
    }
  }

  /** Ten `changeColor` passes restore every palette-coloured model, in particular a freshly coloured one. */
  lemma TenRecolorsIdentity(nodes: seq<Node>)
    ensures RecolorTimes(Palette, 10, ApplyClothingMaterials(Palette, nodes)) == ApplyClothingMaterials(Palette, nodes)
  {
    PaletteFacts();
    FullCycleIdentity(Palette, ApplyClothingMaterials(Palette, nodes));
  }
}
