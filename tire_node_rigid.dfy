/** Mesh preprocessing of the rigid co-simulation tire node
    (ChVehicleCosimTireNodeRigid::InitializeTire): for every vertex, the list of
    triangles that use it, and a representative area averaged over that list. */
module TireNodeRigid {
  import opened Common

  /** A mesh triangle: the indices of its three corner vertices. */
  datatype Face = Face(v1: int, v2: int, v3: int)

  /** An IEEE double as far as this model needs it: a number, or the NaN that
      `0.0 / 0` produces for a vertex no triangle uses. */
  datatype Double = Finite(value: real) | NaN

  predicate FaceInRange(f: Face, n: int) {
    0 <= f.v1 < n && 0 <= f.v2 < n && 0 <= f.v3 < n
  }

  /** Every corner of every triangle names one of the `n` vertices. */
  predicate CornersInRange(faces: seq<Face>, n: int) {
    forall ie :: 0 <= ie < |faces| ==> FaceInRange(faces[ie], n)
  }

  /** How many corners of `f` are vertex `v`. */
  function CornerCount(f: Face, v: int): nat {
    (if f.v1 == v then 1 else 0) + (if f.v2 == v then 1 else 0) + (if f.v3 == v then 1 else 0)
  }

  /** What triangle `ie` pushes onto vertex `v`'s list: `ie` once per corner that is `v`. */
  function Pushed(f: Face, ie: int, v: int): (s: seq<int>)
    ensures |s| == CornerCount(f, v)
    ensures forall k :: 0 <= k < |s| ==> s[k] == ie
  {
    (if f.v1 == v then [ie] else []) + (if f.v2 == v then [ie] else []) + (if f.v3 == v then [ie] else [])
  }

  /** Reference definition of vertex `v`'s adjacency list: the triangles visited
      in ascending index order, each contributing its pushes for `v`. */
  function Adjacent(faces: seq<Face>, v: int): (r: seq<int>)
    ensures |r| == Occurrences(faces, v)
    decreases |faces|
  {
    if faces == [] then []
    else Adjacent(faces[..|faces| - 1], v) + Pushed(faces[|faces| - 1], |faces| - 1, v)
  }

  /** The adjacency lists of vertices 0 .. n-1. */
  function AdjacencyTable(faces: seq<Face>, n: nat): (t: seq<seq<int>>)
    ensures |t| == n
  {
    seq(n, v => Adjacent(faces, v))
  }

  /** Occurrences of `ie` in vertex `v`'s list: one per corner of triangle `ie`
      that is `v`, and none for any index that is not a triangle. */
  lemma {:induction false} AdjacentMultiplicity(faces: seq<Face>, v: int, ie: int)
    ensures multiset(Adjacent(faces, v))[ie] == if 0 <= ie < |faces| then CornerCount(faces[ie], v) else 0
    decreases |faces|
  {
    if faces != [] {
      var n := |faces| - 1;
      var pre := faces[..n];
      AdjacentMultiplicity(pre, v, ie);
      PushedMultiplicity(faces[n], n, v, ie);
      assert Adjacent(faces, v) == Adjacent(pre, v) + Pushed(faces[n], n, v);
      if 0 <= ie < n { assert pre[ie] == faces[ie]; }
    }
  }

  lemma PushedMultiplicity(f: Face, n: int, v: int, ie: int)
    ensures multiset(Pushed(f, n, v))[ie] == if ie == n then CornerCount(f, v) else 0
  {
    var a := if f.v1 == v then [n] else [];
    var b := if f.v2 == v then [n] else [];
    var c := if f.v3 == v then [n] else [];
    assert Pushed(f, n, v) == a + b + c;
    assert multiset(a + b + c) == multiset(a) + multiset(b) + multiset(c);
  }

  /** Triangle `ie` is in vertex `v`'s list exactly when one of its corners is `v`. */
  lemma AdjacentMembership(faces: seq<Face>, v: int, ie: int)
    ensures ie in Adjacent(faces, v) <==>
      0 <= ie < |faces| && (faces[ie].v1 == v || faces[ie].v2 == v || faces[ie].v3 == v)
  {
    AdjacentMultiplicity(faces, v, ie);
    assert ie in Adjacent(faces, v) <==> ie in multiset(Adjacent(faces, v));
  }

  /** Every list is non-decreasing and holds only triangle indices. */
  lemma {:induction false} AdjacentSorted(faces: seq<Face>, v: int)
    ensures forall i :: 0 <= i < |Adjacent(faces, v)| ==> 0 <= Adjacent(faces, v)[i] < |faces|
    ensures forall i, j :: 0 <= i <= j < |Adjacent(faces, v)| ==> Adjacent(faces, v)[i] <= Adjacent(faces, v)[j]
    decreases |faces|
  {
    if faces != [] {
      var n := |faces| - 1;
      AdjacentSorted(faces[..n], v);
      var a := Adjacent(faces[..n], v);
      var s := Pushed(faces[n], n, v);
      assert Adjacent(faces, v) == a + s;
    }
  }

  /** Number of corners of all triangles that are vertex `v`. */
  function Occurrences(faces: seq<Face>, v: int): nat
    decreases |faces|
  {
    if faces == [] then 0 else Occurrences(faces[..|faces| - 1], v) + CornerCount(faces[|faces| - 1], v)
  }

  /** Number of corners of all triangles that lie in 0 .. k-1. */
  function CornersBelow(faces: seq<Face>, k: int): nat
    decreases |faces|
  {
    if faces == [] then 0
    else
      var f := faces[|faces| - 1];
      CornersBelow(faces[..|faces| - 1], k)
        + (if 0 <= f.v1 < k then 1 else 0) + (if 0 <= f.v2 < k then 1 else 0) + (if 0 <= f.v3 < k then 1 else 0)
  }

  function SumLengths(lists: seq<seq<int>>): nat
    decreases |lists|
  {
    if lists == [] then 0 else SumLengths(lists[..|lists| - 1]) + |lists[|lists| - 1]|
  }

  lemma {:induction false} CornersBelowStep(faces: seq<Face>, k: int)
    requires k >= 1
    ensures CornersBelow(faces, k) == CornersBelow(faces, k - 1) + Occurrences(faces, k - 1)
    decreases |faces|
  {
    if faces != [] { CornersBelowStep(faces[..|faces| - 1], k); }
  }

  lemma {:induction false} AllCornersBelow(faces: seq<Face>, n: int)
    requires CornersInRange(faces, n)
    ensures CornersBelow(faces, n) == 3 * |faces|
    decreases |faces|
  {
    if faces != [] {
      var pre := faces[..|faces| - 1];
      assert CornersInRange(pre, n) by {
        forall ie | 0 <= ie < |pre| ensures FaceInRange(pre[ie], n) { assert pre[ie] == faces[ie]; }
      }
      AllCornersBelow(pre, n);
      assert FaceInRange(faces[|faces| - 1], n);
    }
  }

  lemma {:induction false} TableLengths(faces: seq<Face>, k: nat)
    ensures SumLengths(AdjacencyTable(faces, k)) == CornersBelow(faces, k)
    decreases k
  {
    if k == 0 {
      assert AdjacencyTable(faces, 0) == [];
      NoCornersBelowZero(faces);
    } else {
      assert AdjacencyTable(faces, k)[..k - 1] == AdjacencyTable(faces, k - 1);
      TableLengths(faces, k - 1);
      CornersBelowStep(faces, k);
    }
  }

  /** Base case of TableLengths: no corner index lies below 0 in the counted range [0, 0). */
  lemma {:induction false} NoCornersBelowZero(faces: seq<Face>)
    ensures CornersBelow(faces, 0) == 0
    decreases |faces|
  {
    if faces != [] { NoCornersBelowZero(faces[..|faces| - 1]); }
  }

  /** The lists of all vertices together hold three entries per triangle. */
  lemma AdjacencyTotal(faces: seq<Face>, n: nat)
    requires CornersInRange(faces, n)
    ensures SumLengths(AdjacencyTable(faces, n)) == 3 * |faces|
  {
    TableLengths(faces, n);
    AllCornersBelow(faces, n);
  }

  predicate NonNegativeAreas(list: seq<int>, triArea: seq<real>)
    requires forall k :: 0 <= k < |list| ==> 0 <= list[k] < |triArea|
  {
    forall k :: 0 <= k < |list| ==> triArea[list[k]] >= 0.0
  }

  /** Sum of the areas of the listed triangles, accumulated left to right. */
  function AreaSum(list: seq<int>, triArea: seq<real>): (r: real)
    requires forall k :: 0 <= k < |list| ==> 0 <= list[k] < |triArea|
    ensures NonNegativeAreas(list, triArea) ==> r >= 0.0
    decreases |list|
  {
    if list == [] then 0.0 else AreaSum(list[..|list| - 1], triArea) + triArea[list[|list| - 1]]
  }

  /** `area / list.size()`: NaN for an empty list, whose sum is 0. */
  function MeanArea(list: seq<int>, triArea: seq<real>): (r: Double)
    requires forall k :: 0 <= k < |list| ==> 0 <= list[k] < |triArea|
    ensures r == NaN <==> list == []
    ensures r.Finite? ==> r.value * |list| as real == AreaSum(list, triArea)
  {
    if |list| == 0 then NaN else Finite(AreaSum(list, triArea) / |list| as real)
  }

  lemma {:induction false} AreaSumBounds(list: seq<int>, triArea: seq<real>, lo: real, hi: real)
    requires forall k :: 0 <= k < |list| ==> 0 <= list[k] < |triArea|
    requires forall i :: 0 <= i < |triArea| ==> lo <= triArea[i] <= hi
    ensures |list| as real * lo <= AreaSum(list, triArea) <= |list| as real * hi
    decreases |list|
  {
    if list != [] {
      AreaSumBounds(list[..|list| - 1], triArea, lo, hi);
      assert (|list| - 1) as real * lo + lo == |list| as real * lo;
      assert (|list| - 1) as real * hi + hi == |list| as real * hi;
    }
  }

  /** A vertex's representative area lies between the smallest and the largest
      triangle area whenever some triangle uses the vertex. */
  lemma MeanAreaBounds(list: seq<int>, triArea: seq<real>, lo: real, hi: real)
    requires forall k :: 0 <= k < |list| ==> 0 <= list[k] < |triArea|
    requires forall i :: 0 <= i < |triArea| ==> lo <= triArea[i] <= hi
    requires list != []
    ensures MeanArea(list, triArea).Finite?
    ensures lo <= MeanArea(list, triArea).value <= hi
  {
    AreaSumBounds(list, triArea, lo, hi);
    QuotientBounds(AreaSum(list, triArea), |list| as real, lo, hi);
  }

  lemma QuotientBounds(s: real, n: real, lo: real, hi: real)
    requires n > 0.0 && n * lo <= s <= n * hi
    ensures lo <= s / n <= hi
  {
    var m := s / n;
    assert (m - lo) * n == s - n * lo;
    assert (hi - m) * n == n * hi - s;
  }

  /** The representative area of a vertex is NaN exactly when no triangle uses it. */
  lemma NaNIffUnused(faces: seq<Face>, triArea: seq<real>, v: int)
    requires |triArea| == |faces|
    ensures forall k :: 0 <= k < |Adjacent(faces, v)| ==> 0 <= Adjacent(faces, v)[k] < |triArea|
    ensures MeanArea(Adjacent(faces, v), triArea) == NaN <==>
      forall ie :: 0 <= ie < |faces| ==> CornerCount(faces[ie], v) == 0
  {
    AdjacentSorted(faces, v);
    var a := Adjacent(faces, v);
    if a != [] {
      AdjacentMultiplicity(faces, v, a[0]);
      assert a[0] in multiset(a);
    } else {
      forall ie | 0 <= ie < |faces| ensures CornerCount(faces[ie], v) == 0 {
        AdjacentMultiplicity(faces, v, ie);
      }
    }
  }

  /** `std::vector::resize(n)`: keeps the first entries, pads with empty lists. */
  function Resize(lists: seq<seq<int>>, n: nat): (r: seq<seq<int>>)
    ensures |r| == n
    ensures forall v :: 0 <= v < n ==> r[v] == if v < |lists| then lists[v] else []
  {
    if n <= |lists| then lists[..n] else lists + seq(n - |lists|, _ => [])
  }

  /** Triangle `ie`'s area from its corner positions; `area` stands for half the
      length of the cross product of two edges. */
  function TriangleAreas(verts: seq<Vec3>, faces: seq<Face>, area: (Vec3, Vec3, Vec3) -> real): (r: seq<real>)
    requires CornersInRange(faces, |verts|)
    ensures |r| == |faces|
  {
    seq(|faces|, ie requires 0 <= ie < |faces| =>
      area(verts[faces[ie].v1], verts[faces[ie].v2], verts[faces[ie].v3]))
  }

  /** One step of Adjacent: the prefix extended by triangle `ie`. */
  lemma AdjacentStep(faces: seq<Face>, ie: int, v: int)
    requires 0 <= ie < |faces|
    ensures Adjacent(faces[..ie + 1], v) == Adjacent(faces[..ie], v) + Pushed(faces[ie], ie, v)
  {
    assert faces[..ie + 1][..ie] == faces[..ie];
  }

  /** The three pushes of triangle `ie` onto the lists of its corners. */
  function PushCorners(adj: seq<seq<int>>, f: Face, ie: int): (r: seq<seq<int>>)
    requires FaceInRange(f, |adj|)
    ensures |r| == |adj|
    ensures forall v :: 0 <= v < |adj| ==> r[v] == adj[v] + Pushed(f, ie, v)
  {
    var a1 := adj[f.v1 := adj[f.v1] + [ie]];
    var a2 := a1[f.v2 := a1[f.v2] + [ie]];
    a2[f.v3 := a2[f.v3] + [ie]]
  }

  /** Visiting triangle `ie` keeps every list equal to its start plus the
      reference list of the triangles visited so far. */
  lemma PushStep(table: seq<seq<int>>, before: seq<seq<int>>, faces: seq<Face>, ie: int)
    requires |before| == |table| && 0 <= ie < |faces| && FaceInRange(faces[ie], |before|)
    requires forall v :: 0 <= v < |before| ==> before[v] == table[v] + Adjacent(faces[..ie], v)
    ensures forall v :: 0 <= v < |before| ==>
      PushCorners(before, faces[ie], ie)[v] == table[v] + Adjacent(faces[..ie + 1], v)
  {
    var after := PushCorners(before, faces[ie], ie);
    forall v | 0 <= v < |before|
      ensures after[v] == table[v] + Adjacent(faces[..ie + 1], v)
    {
      assert after[v] == before[v] + Pushed(faces[ie], ie, v);
      AdjacentStep(faces, ie, v);
    }
  }

  /** First preprocessing pass: computes every triangle's area and appends each
      triangle index to the lists of its three corners, starting from `table`. */
  method PreprocessAdjacency(table: seq<seq<int>>, verts: seq<Vec3>, faces: seq<Face>,
                             area: (Vec3, Vec3, Vec3) -> real)
    returns (adj: seq<seq<int>>, triArea: seq<real>)
    requires |table| == |verts|
    requires CornersInRange(faces, |verts|)
    ensures |adj| == |verts|
    ensures forall v :: 0 <= v < |verts| ==> adj[v] == table[v] + Adjacent(faces, v)
    ensures triArea == TriangleAreas(verts, faces, area)
  {
    adj := table;
    triArea := seq(|faces|, _ => 0.0);
    var ie := 0;
    while ie < |faces|
      invariant 0 <= ie <= |faces|
      invariant |adj| == |verts| && |triArea| == |faces|
      invariant forall v :: 0 <= v < |verts| ==> adj[v] == table[v] + Adjacent(faces[..ie], v)
      invariant forall j :: 0 <= j < ie ==>
        triArea[j] == area(verts[faces[j].v1], verts[faces[j].v2], verts[faces[j].v3])
    {
      var iv1, iv2, iv3 := faces[ie].v1, faces[ie].v2, faces[ie].v3;
      triArea := triArea[ie := area(verts[iv1], verts[iv2], verts[iv3])];
      ghost var before := adj;
      adj := adj[iv1 := adj[iv1] + [ie]];
      adj := adj[iv2 := adj[iv2] + [ie]];
      adj := adj[iv3 := adj[iv3] + [ie]];
      assert adj == PushCorners(before, faces[ie], ie);
      PushStep(table, before, faces, ie);
      ie := ie + 1;
    }
    assert faces[..|faces|] == faces;
    assert triArea == TriangleAreas(verts, faces, area);
  }

  /** Second preprocessing pass: each vertex's mean adjacent-triangle area. */
  method PreprocessVertexArea(adj: seq<seq<int>>, triArea: seq<real>) returns (vertexArea: seq<Double>)
    requires forall v, k :: 0 <= v < |adj| && 0 <= k < |adj[v]| ==> 0 <= adj[v][k] < |triArea|
    ensures |vertexArea| == |adj|
    ensures forall v :: 0 <= v < |adj| ==> vertexArea[v] == MeanArea(adj[v], triArea)
  {
    vertexArea := seq(|adj|, _ => Finite(0.0));
    var iv := 0;
    while iv < |adj|
      invariant 0 <= iv <= |adj| && |vertexArea| == |adj|
      invariant forall v :: 0 <= v < iv ==> vertexArea[v] == MeanArea(adj[v], triArea)
    {
      var list := adj[iv];
      var sum := 0.0;
      var k := 0;
      while k < |list|
        invariant 0 <= k <= |list|
        invariant sum == AreaSum(list[..k], triArea)
      {
        assert list[..k + 1][..k] == list[..k];
        sum := sum + triArea[list[k]];
        k := k + 1;
      }
      assert list[..|list|] == list;
      // The C++ loop divides by the list size even when the list is empty: 0.0 / 0 is NaN.
      vertexArea := vertexArea[iv := if |list| == 0 then NaN else Finite(sum / |list| as real)];
      iv := iv + 1;
    }
  }

  /** The per-vertex areas the preprocessing produces from a table and the triangle areas. */
  function VertexAreas(adj: seq<seq<int>>, triArea: seq<real>): (r: seq<Double>)
    requires forall v, k :: 0 <= v < |adj| && 0 <= k < |adj[v]| ==> 0 <= adj[v][k] < |triArea|
    ensures |r| == |adj|
  {
    seq(|adj|, v requires 0 <= v < |adj| => MeanArea(adj[v], triArea))
  }

  /** The adjacency table InitializeTire leaves when the lists start out as `stale`. */
  function ResultTable(stale: seq<seq<int>>, faces: seq<Face>, n: nat): (t: seq<seq<int>>)
    ensures |t| == n
  {
    seq(n, v requires 0 <= v < n => Resize(stale, n)[v] + Adjacent(faces, v))
  }

  /** On a node whose lists start empty, the result is exactly the reference table. */
  lemma FreshNodeTable(faces: seq<Face>, n: nat)
    ensures ResultTable([], faces, n) == AdjacencyTable(faces, n)
  {
    forall v | 0 <= v < n ensures ResultTable([], faces, n)[v] == AdjacencyTable(faces, n)[v] {
      assert Resize([], n)[v] == [];
    }
  }

  /** Entries of the resulting table name triangles when the stale entries do. */
  lemma ResultTableBounds(stale: seq<seq<int>>, faces: seq<Face>, n: nat)
    requires forall v, k :: 0 <= v < |stale| && v < n && 0 <= k < |stale[v]| ==> 0 <= stale[v][k] < |faces|
    ensures forall v, k :: 0 <= v < n && 0 <= k < |ResultTable(stale, faces, n)[v]| ==>
      0 <= ResultTable(stale, faces, n)[v][k] < |faces|
  {
    forall v, k | 0 <= v < n && 0 <= k < |ResultTable(stale, faces, n)[v]|
      ensures 0 <= ResultTable(stale, faces, n)[v][k] < |faces|
    {
      var r := Resize(stale, n)[v];
      AdjacentSorted(faces, v);
      assert ResultTable(stale, faces, n)[v] == r + Adjacent(faces, v);
      if k >= |r| {
        assert ResultTable(stale, faces, n)[v][k] == Adjacent(faces, v)[k - |r|];
      }
    }
  }

  class TireNode {
    var adjElements: seq<seq<int>>
    var vertexArea: seq<Double>

    constructor ()
      ensures adjElements == [] && vertexArea == []
    {
      adjElements := [];
      vertexArea := [];
    }

    /** The mesh preprocessing of InitializeTire. The lists left from an earlier
        call are kept by the resize, so their entries must still name triangles. */
    method InitializeTire(verts: seq<Vec3>, faces: seq<Face>, area: (Vec3, Vec3, Vec3) -> real)
      requires CornersInRange(faces, |verts|)
      requires forall v, k :: 0 <= v < |adjElements| && v < |verts| && 0 <= k < |adjElements[v]| ==>
        0 <= adjElements[v][k] < |faces|
      modifies this
      ensures adjElements == ResultTable(old(adjElements), faces, |verts|)
      ensures old(adjElements) == [] ==> adjElements == AdjacencyTable(faces, |verts|)
      ensures forall v, k :: 0 <= v < |adjElements| && 0 <= k < |adjElements[v]| ==>
        0 <= adjElements[v][k] < |faces|
      ensures vertexArea == VertexAreas(adjElements, TriangleAreas(verts, faces, area))
    {
      var table := Resize(adjElements, |verts|);
      var triArea;
      ghost var stale := adjElements;
      adjElements, triArea := PreprocessAdjacency(table, verts, faces, area);
      assert adjElements == ResultTable(stale, faces, |verts|);
      ResultTableBounds(stale, faces, |verts|);
      if stale == [] { FreshNodeTable(faces, |verts|); }
      vertexArea := PreprocessVertexArea(adjElements, triArea);
    }
  }
}
