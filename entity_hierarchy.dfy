/**
 * The parent/child lookup rebuilt every frame from ChildOf components
 * (MonoDreams/State/EntityHierarchy.cs). Entities are ids; which ones are alive and which carry
 * a ChildOf component (naming their parent) are parameters standing for the ECS world.
 */
module Hierarchy {
  import opened Wrappers

  /** The two dictionaries: children per parent (in insertion order) and parent per child. */
  datatype Maps = Maps(children: map<nat, seq<nat>>, parents: map<nat, nat>)

  /** An entity that Rebuild records: alive, with a ChildOf whose parent is alive. */
  predicate Recorded(e: nat, alive: set<nat>, childOf: map<nat, nat>) {
    e in alive && e in childOf && childOf[e] in alive
  }

  /** One iteration of Rebuild's loop. */
  function RebuildStep(m: Maps, e: nat, alive: set<nat>, childOf: map<nat, nat>): Maps {
    if !Recorded(e, alive, childOf) then m
    else
      var parent := childOf[e];
      var siblings := if parent in m.children then m.children[parent] else [];
      Maps(m.children[parent := siblings + [e]], m.parents[e := parent])
  }

  /** The dictionaries after the loop has visited entities[..k], starting from cleared ones. */
  function RebuildPrefix(entities: seq<nat>, alive: set<nat>, childOf: map<nat, nat>, k: nat): Maps
    requires k <= |entities|
  {
    if k == 0 then Maps(map[], map[])
    else RebuildStep(RebuildPrefix(entities, alive, childOf, k - 1), entities[k - 1], alive, childOf)
  }

  /**
   * The two dictionaries agree: every recorded parent lists the child, every listed child has that
   * parent, a recorded parent is the one ChildOf names, and no parent has an empty list.
   */
  predicate Consistent(m: Maps, childOf: map<nat, nat>) {
    (forall c :: c in m.parents ==>
      c in childOf && m.parents[c] == childOf[c] && m.parents[c] in m.children && c in m.children[m.parents[c]]) &&
    (forall p :: p in m.children ==>
      |m.children[p]| > 0 && forall x :: x in m.children[p] ==> x in m.parents && m.parents[x] == p)
  }

  lemma RebuildStepConsistent(m: Maps, e: nat, alive: set<nat>, childOf: map<nat, nat>)
    requires Consistent(m, childOf)
    ensures Consistent(RebuildStep(m, e, alive, childOf), childOf)
  {
    if Recorded(e, alive, childOf) {
      var parent := childOf[e];
      var siblings := if parent in m.children then m.children[parent] else [];
      var m' := RebuildStep(m, e, alive, childOf);
      forall p | p in m'.children
        ensures forall x :: x in m'.children[p] ==> x in m'.parents && m'.parents[x] == p
      {
        if p == parent {
          forall x | x in m'.children[p] ensures x in m'.parents && m'.parents[x] == p {
            if x != e {
              assert x in siblings;
            }
          }
        }
      }
    }
  }

  /** Rebuild always leaves the two dictionaries consistent with each other. */
  lemma {:induction false} RebuildConsistent(entities: seq<nat>, alive: set<nat>, childOf: map<nat, nat>, k: nat)
    requires k <= |entities|
    ensures Consistent(RebuildPrefix(entities, alive, childOf, k), childOf)
  {
    if k > 0 {
      RebuildConsistent(entities, alive, childOf, k - 1);
      RebuildStepConsistent(RebuildPrefix(entities, alive, childOf, k - 1), entities[k - 1], alive, childOf);
    }
  }

  /** Exactly the recorded entities of the visited prefix get a parent. */
  lemma {:induction false} RebuildRecords(entities: seq<nat>, alive: set<nat>, childOf: map<nat, nat>, k: nat, c: nat)
    requires k <= |entities|
    ensures c in RebuildPrefix(entities, alive, childOf, k).parents <==>
            Recorded(c, alive, childOf) && exists i :: 0 <= i < k && entities[i] == c
  {
    if k > 0 {
      RebuildRecords(entities, alive, childOf, k - 1, c);
      if Recorded(c, alive, childOf) && entities[k - 1] == c {
        assert c in RebuildPrefix(entities, alive, childOf, k).parents;
      }
    }
  }

  class EntityHierarchy {
    var childrenMap: map<nat, seq<nat>>
    var parentMap: map<nat, nat>

    function Current(): Maps
      reads this
    {
      Maps(childrenMap, parentMap)
    }

    constructor()
      ensures childrenMap == map[] && parentMap == map[]
    {
      childrenMap := map[];
      parentMap := map[];
    }

    /** GetChildren: the recorded children, or an empty list. */
    function GetChildren(parent: nat): (r: seq<nat>)
      reads this
      ensures parent !in childrenMap ==> r == []
      ensures parent in childrenMap ==> r == childrenMap[parent]
    {
      if parent in childrenMap then childrenMap[parent] else []
    }

    /** GetParent: the recorded parent, or null. */
    function GetParent(child: nat): (r: Option<nat>)
      reads this
      ensures r.Some? <==> child in parentMap
      ensures r.Some? ==> r.value == parentMap[child]
    {
      if child in parentMap then Some(parentMap[child]) else None
    }

    /** HasChildren: whether the children list is non-empty. */
    predicate HasChildren(parent: nat)
      reads this
    {
      parent in childrenMap && |childrenMap[parent]| > 0
    }

    /** GetRoots: the alive entities of the sequence that have no recorded parent, in order. */
    function GetRoots(entities: seq<nat>, alive: set<nat>): (r: seq<nat>)
      reads this
      ensures forall x :: x in r ==> x in entities && x in alive && x !in parentMap
      ensures forall i :: 0 <= i < |entities| && entities[i] in alive && entities[i] !in parentMap ==> entities[i] in r
      ensures |r| <= |entities|
    {
      if entities == [] then []
      else
        var rest := GetRoots(entities[1..], alive);
        assert forall i :: 0 < i < |entities| ==> entities[i] == entities[1..][i - 1];
        if entities[0] in alive && entities[0] !in parentMap then [entities[0]] + rest else rest
    }

    /** Rebuild: clears both dictionaries, then records every alive child of an alive parent. */
    method Rebuild(entities: seq<nat>, alive: set<nat>, childOf: map<nat, nat>)
      modifies this
      ensures Current() == RebuildPrefix(entities, alive, childOf, |entities|)
    {
      childrenMap := map[];
      parentMap := map[];
      for i := 0 to |entities|
        invariant Current() == RebuildPrefix(entities, alive, childOf, i)
      {
        var entity := entities[i];
        if !(entity in alive) || !(entity in childOf) {
          continue;
        }
        var parent := childOf[entity];
        if !(parent in alive) {
          continue;
        }
        parentMap := parentMap[entity := parent];
        var children := if parent in childrenMap then childrenMap[parent] else [];
        childrenMap := childrenMap[parent := children + [entity]];
      }
    }
  }

  /**
   * After Rebuild, GetParent and GetChildren describe the same relation, HasChildren is exactly a
   * non-empty GetChildren, and only recorded entities of the rebuilt sequence have a parent.
   */
  lemma AfterRebuild(h: EntityHierarchy, entities: seq<nat>, alive: set<nat>, childOf: map<nat, nat>, c: nat, p: nat)
    requires h.Current() == RebuildPrefix(entities, alive, childOf, |entities|)
    ensures h.GetParent(c) == Some(p) <==> c in h.GetChildren(p)
    ensures h.HasChildren(p) <==> |h.GetChildren(p)| > 0
    ensures h.GetParent(c).Some? <==> Recorded(c, alive, childOf) && c in entities
    ensures h.GetParent(c).Some? ==> h.GetParent(c).value == childOf[c]
  {
    RebuildConsistent(entities, alive, childOf, |entities|);
    RebuildRecords(entities, alive, childOf, |entities|, c);
  }

  /** r is a subsequence of s: its elements occur in s in the same order. */
  predicate Subsequence(r: seq<nat>, s: seq<nat>)
    decreases |s|
  {
    r == [] || (s != [] && ((r[0] == s[0] && Subsequence(r[1..], s[1..])) || Subsequence(r, s[1..])))
  }

  /** GetRoots keeps the order of the given entities, as LINQ's Where does. */
  lemma {:induction false} GetRootsInOrder(h: EntityHierarchy, entities: seq<nat>, alive: set<nat>)
    ensures Subsequence(h.GetRoots(entities, alive), entities)
  {
    if entities != [] {
      GetRootsInOrder(h, entities[1..], alive);
    }
  }
}
