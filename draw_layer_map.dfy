/**
 * Named draw layers mapped to evenly spaced depths (MonoDreams/Draw/DrawLayerMap.cs). The layer
 * names are the members of an enum in ascending value order; lookups ignore ASCII case, so the
 * dictionary is keyed by the folded name.
 */
module DrawLayers {
  import opened Wrappers
  import opened Strings

  /** Depth of member i of n: 1.0 for the first, 0.0 for the last, 0.5 for a single member. */
  function MemberDepth(n: nat, i: nat): real
    requires i < n
  {
    if n == 1 then 0.5 else (n - 1 - i) as real / (n - 1) as real
  }

  /** Distance between neighbouring depths; 1 when there are fewer than two members. */
  function StepFor(n: nat): real {
    if n <= 1 then 1.0 else 1.0 / (n - 1) as real
  }

  /** The dictionary after the first k assignments `layers[name] = depth`. */
  function LayerDepths(names: seq<string>, k: nat): map<string, real>
    requires k <= |names|
  {
    if k == 0 then map[]
    else LayerDepths(names, k - 1)[Fold(names[k - 1]) := MemberDepth(|names|, k - 1)]
  }

  /** Enum member names that stay distinct when case is ignored. */
  predicate DistinctIgnoringCase(names: seq<string>) {
    forall i, j :: 0 <= i < j < |names| ==> Fold(names[i]) != Fold(names[j])
  }

  /** Depths lie in [0, 1], the first member is in front (1.0) and the last at the back (0.0). */
  lemma MemberDepthRange(n: nat, i: nat)
    requires i < n
    ensures 0.0 <= MemberDepth(n, i) <= 1.0
    ensures n > 1 && i == 0 ==> MemberDepth(n, i) == 1.0
    ensures n > 1 && i == n - 1 ==> MemberDepth(n, i) == 0.0
    ensures n == 1 ==> MemberDepth(n, i) == 0.5
  {
    if n > 1 {
      assert (n - 1 - i) as real <= (n - 1) as real;
    }
  }

  /** Later members are strictly further back, spaced exactly one step apart. */
  lemma MemberDepthSpacing(n: nat, i: nat)
    requires i + 1 < n
    ensures MemberDepth(n, i) - MemberDepth(n, i + 1) == StepFor(n)
    ensures MemberDepth(n, i + 1) < MemberDepth(n, i)
  {
    assert (n - 1 - i) as real == (n - 1 - (i + 1)) as real + 1.0;
  }

  /**
   * Every member is in the dictionary; when names are distinct ignoring case, member i maps to its
   * own depth, whatever case the lookup uses.
   */
  lemma {:induction false} LayerDepthsLookup(names: seq<string>, k: nat, i: nat)
    requires k <= |names| && i < k
    requires DistinctIgnoringCase(names)
    ensures Fold(names[i]) in LayerDepths(names, k)
    ensures LayerDepths(names, k)[Fold(names[i])] == MemberDepth(|names|, i)
  {
    if i < k - 1 {
      LayerDepthsLookup(names, k - 1, i);
    }
  }

  /** Only member names (in any case) are keys. */
  lemma {:induction false} LayerDepthsKeys(names: seq<string>, k: nat, key: string)
    requires k <= |names|
    ensures key in LayerDepths(names, k) <==> exists i :: 0 <= i < k && Fold(names[i]) == key
  {
    if k > 0 {
      LayerDepthsKeys(names, k - 1, key);
    }
  }

  /** Every depth in the dictionary is some member's depth, so it lies in [0, 1]. */
  lemma {:induction false} LayerDepthsValues(names: seq<string>, k: nat, key: string)
    requires k <= |names| && key in LayerDepths(names, k)
    ensures exists i :: 0 <= i < k && LayerDepths(names, k)[key] == MemberDepth(|names|, i)
    ensures 0.0 <= LayerDepths(names, k)[key] <= 1.0
  {
    if key == Fold(names[k - 1]) {
      MemberDepthRange(|names|, k - 1);
    } else {
      LayerDepthsValues(names, k - 1, key);
    }
  }

  class DrawLayerMap {
    /** Depth per folded layer name. */
    const layers: map<string, real>
    const step: real
    var ySortedDepths: set<real>

    /** FromEnum: one layer per enum member, spaced evenly from 1.0 down to 0.0. */
    constructor FromEnum(names: seq<string>)
      ensures layers == LayerDepths(names, |names|)
      ensures step == StepFor(|names|)
      ensures ySortedDepths == {}
    {
      var length := |names|;
      var built: map<string, real> := map[];
      var i := 0;
      while i < length
        invariant 0 <= i <= length
        invariant built == LayerDepths(names, i)
      {
        var depth := if length == 1 then 0.5 else (length - 1 - i) as real / (length - 1) as real;
        built := built[Fold(names[i]) := depth];
        i := i + 1;
      }
      layers := built;
      step := if length <= 1 then 1.0 else 1.0 / (length - 1) as real;
      ySortedDepths := {};
    }

    /** GetDepth(layerName): the dictionary indexer, which throws KeyNotFoundException for an unknown name. */
    function GetDepth(layerName: string): (d: Outcome<real>)
      ensures d.Thrown? <==> !TryGetDepth(layerName).0
      ensures d.Returned? ==> d.value == TryGetDepth(layerName).1
    {
      if Fold(layerName) in layers then Returned(layers[Fold(layerName)]) else Thrown
    }

    /** GetDepth(layerName, subLayerOffset): the layer's depth shifted by the offset; throws like GetDepth. */
    function GetDepthWithOffset(layerName: string, subLayerOffset: real): (d: Outcome<real>)
      ensures d.Thrown? <==> GetDepth(layerName).Thrown?
      ensures d.Returned? ==> d.value - subLayerOffset == GetDepth(layerName).value
    {
      if Fold(layerName) in layers then Returned(layers[Fold(layerName)] + subLayerOffset) else Thrown
    }

    /** TryGetDepth: (false, 0) for an unknown name; the name's case does not matter. */
    function TryGetDepth(layerName: string): (r: (bool, real))
      ensures r.0 <==> Fold(layerName) in layers
      ensures r.0 ==> r.1 == layers[Fold(layerName)]
      ensures !r.0 ==> r.1 == 0.0
    {
      if Fold(layerName) in layers then (true, layers[Fold(layerName)]) else (false, 0.0)
    }

    /**
     * WithYSort: marks the layer's depth as Y-sorted. The indexer throws KeyNotFoundException for a
     * name that is not a layer (`thrown`), and then nothing is marked.
     */
    method WithYSort(layerName: string) returns (thrown: bool)
      modifies this
      ensures thrown <==> GetDepth(layerName).Thrown?
      ensures thrown ==> ySortedDepths == old(ySortedDepths)
      ensures !thrown ==> ySortedDepths == old(ySortedDepths) + {GetDepth(layerName).value}
    {
      if Fold(layerName) !in layers {
        return true;
      }
      ySortedDepths := ySortedDepths + {layers[Fold(layerName)]};
      thrown := false;
    }

    /**
     * TryGetYSortRange: for a Y-sorted depth, the layer's band inset by a margin of 0.001 on each
     * side; (false, 0, 0) otherwise.
     */
    function TryGetYSortRange(depth: real): (r: (bool, real, real))
      reads this
      ensures r.0 <==> depth in ySortedDepths
      ensures r.0 ==> r.1 == depth - step / 2.0 + 0.001 && r.2 == depth + step / 2.0 - 0.001
      ensures !r.0 ==> r.1 == 0.0 && r.2 == 0.0
    {
      if depth in ySortedDepths then
        var halfStep := step / 2.0;
        (true, depth - halfStep + 0.001, depth + halfStep - 0.001)
      else (false, 0.0, 0.0)
    }
  }

  /**
   * With at least two layers the Y-sort band of a layer ends below where the band of the layer in front
   * of it begins, so neighbouring bands never overlap.
   */
  lemma YSortRangesDisjoint(names: seq<string>, i: nat, step: real)
    requires i + 1 < |names|
    requires step == StepFor(|names|)
    ensures var hi := MemberDepth(|names|, i + 1) + step / 2.0 - 0.001;
            var lo := MemberDepth(|names|, i) - step / 2.0 + 0.001;
            hi < lo
  {
    MemberDepthSpacing(|names|, i);
  }
}
