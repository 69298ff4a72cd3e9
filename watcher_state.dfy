/**
 * The inspector's set of watched leaf paths (MonoDreams.Examples/Inspector/WatcherState.cs). A
 * prefix of the inspector tree stands for the list of leaf paths under it; the queries on a
 * prefix are functions of the checked set and that list.
 */
module WatcherStates {
  import opened Wrappers

  /** The distinct paths of a list. */
  function ElementsOf(paths: seq<string>): set<string> {
    set p | p in paths
  }

  /** The set after toggling one leaf: removed if present, added otherwise. */
  function Toggled(checkedPaths: set<string>, leafPath: string): set<string> {
    if leafPath in checkedPaths then checkedPaths - {leafPath} else checkedPaths + {leafPath}
  }

  /** allLeafPaths.Any(p => checked.Contains(p)) */
  function AnyChecked(checkedPaths: set<string>, paths: seq<string>): (r: bool)
    ensures r <==> exists i :: 0 <= i < |paths| && paths[i] in checkedPaths
  {
    if paths == [] then false
    else paths[0] in checkedPaths || AnyChecked(checkedPaths, paths[1..])
  }

  /** allLeafPaths.Count(p => checked.Contains(p)): duplicates in the list count again. */
  function CountChecked(checkedPaths: set<string>, paths: seq<string>): (n: nat)
    ensures n <= |paths|
    ensures n == 0 <==> forall i :: 0 <= i < |paths| ==> paths[i] !in checkedPaths
    ensures n == |paths| <==> forall i :: 0 <= i < |paths| ==> paths[i] in checkedPaths
  {
    if paths == [] then 0
    else
      var rest := CountChecked(checkedPaths, paths[1..]);
      assert forall i :: 0 < i < |paths| ==> paths[i] == paths[1..][i - 1];
      rest + (if paths[0] in checkedPaths then 1 else 0)
  }

  /**
   * GetPrefixState: Some(true) when every listed leaf is checked, Some(false) when none is (or
   * the list is empty), None when only some are.
   */
  function GetPrefixState(checkedPaths: set<string>, prefix: string, allLeafPaths: seq<string>): (r: Option<bool>)
    ensures r == Some(true) <==> |allLeafPaths| > 0 && forall i :: 0 <= i < |allLeafPaths| ==> allLeafPaths[i] in checkedPaths
    ensures r == Some(false) <==> forall i :: 0 <= i < |allLeafPaths| ==> allLeafPaths[i] !in checkedPaths
    ensures r.None? <==> (exists i :: 0 <= i < |allLeafPaths| && allLeafPaths[i] in checkedPaths) &&
                         (exists j :: 0 <= j < |allLeafPaths| && allLeafPaths[j] !in checkedPaths)
  {
    if |allLeafPaths| == 0 then Some(false)
    else
      var checkedCount := CountChecked(checkedPaths, allLeafPaths);
      if checkedCount == 0 then Some(false)
      else if checkedCount == |allLeafPaths| then Some(true)
      else None
  }

  /** HasAnyCheckedUnder: some listed leaf is checked; the prefix itself is not consulted. */
  function HasAnyCheckedUnder(checkedPaths: set<string>, prefix: string, leafPaths: seq<string>): (r: bool)
    ensures r <==> GetPrefixState(checkedPaths, prefix, leafPaths) != Some(false)
  {
    AnyChecked(checkedPaths, leafPaths)
  }

  /** TogglePrefix on the set: all listed leaves off if any was on, else all on. */
  function PrefixToggled(checkedPaths: set<string>, allLeafPaths: seq<string>): set<string> {
    if AnyChecked(checkedPaths, allLeafPaths) then checkedPaths - ElementsOf(allLeafPaths)
    else checkedPaths + ElementsOf(allLeafPaths)
  }

  class WatcherState {
    var checkedPaths: set<string>

    constructor()
      ensures checkedPaths == {}
    {
      checkedPaths := {};
    }

    predicate IsChecked(leafPath: string)
      reads this
    {
      leafPath in checkedPaths
    }

    predicate HasAnyChecked()
      reads this
    {
      |checkedPaths| > 0
    }

    method ToggleLeaf(leafPath: string)
      modifies this
      ensures checkedPaths == Toggled(old(checkedPaths), leafPath)
      ensures IsChecked(leafPath) <==> !old(IsChecked(leafPath))
    {
      if leafPath in checkedPaths {
        checkedPaths := checkedPaths - {leafPath};
      } else {
        checkedPaths := checkedPaths + {leafPath};
      }
    }

    method TogglePrefix(prefix: string, allLeafPaths: seq<string>)
      modifies this
      ensures checkedPaths == PrefixToggled(old(checkedPaths), allLeafPaths)
    {
      var anyChecked := AnyChecked(checkedPaths, allLeafPaths);
      ghost var before := checkedPaths;
      if anyChecked {
        for i := 0 to |allLeafPaths|
          invariant checkedPaths == before - ElementsOf(allLeafPaths[..i])
        {
          assert ElementsOf(allLeafPaths[..i + 1]) == ElementsOf(allLeafPaths[..i]) + {allLeafPaths[i]} by {
            assert allLeafPaths[..i + 1] == allLeafPaths[..i] + [allLeafPaths[i]];
          }
          checkedPaths := checkedPaths - {allLeafPaths[i]};
        }
      } else {
        for i := 0 to |allLeafPaths|
          invariant checkedPaths == before + ElementsOf(allLeafPaths[..i])
        {
          assert ElementsOf(allLeafPaths[..i + 1]) == ElementsOf(allLeafPaths[..i]) + {allLeafPaths[i]} by {
            assert allLeafPaths[..i + 1] == allLeafPaths[..i] + [allLeafPaths[i]];
          }
          checkedPaths := checkedPaths + {allLeafPaths[i]};
        }
      }
      assert allLeafPaths[..|allLeafPaths|] == allLeafPaths;
    }

    method Clear()
      modifies this
      ensures checkedPaths == {}
      ensures !HasAnyChecked()
    {
      checkedPaths := {};
    }
  }

  /** Toggling a leaf twice restores the set. */
  lemma ToggleLeafTwice(checkedPaths: set<string>, leafPath: string)
    ensures Toggled(Toggled(checkedPaths, leafPath), leafPath) == checkedPaths
  {
  }

  /** Toggling a leaf changes no other leaf. */
  lemma ToggleLeafLocal(checkedPaths: set<string>, leafPath: string, other: string)
    requires other != leafPath
    ensures other in Toggled(checkedPaths, leafPath) <==> other in checkedPaths
  {
  }

  /** TogglePrefix leaves every path outside the list as it was. */
  lemma TogglePrefixLocal(checkedPaths: set<string>, allLeafPaths: seq<string>, other: string)
    requires other !in allLeafPaths
    ensures other in PrefixToggled(checkedPaths, allLeafPaths) <==> other in checkedPaths
  {
  }

  /**
   * After TogglePrefix a non-empty prefix is never in the intermediate state: it is fully
   * unchecked if some leaf was checked before, and fully checked otherwise.
   */
  lemma TogglePrefixSettles(checkedPaths: set<string>, prefix: string, allLeafPaths: seq<string>)
    requires |allLeafPaths| > 0
    ensures GetPrefixState(PrefixToggled(checkedPaths, allLeafPaths), prefix, allLeafPaths) ==
            if AnyChecked(checkedPaths, allLeafPaths) then Some(false) else Some(true)
  {
    var after := PrefixToggled(checkedPaths, allLeafPaths);
    if AnyChecked(checkedPaths, allLeafPaths) {
      forall i | 0 <= i < |allLeafPaths| ensures allLeafPaths[i] !in after {
        assert allLeafPaths[i] in ElementsOf(allLeafPaths);
      }
    } else {
      forall i | 0 <= i < |allLeafPaths| ensures allLeafPaths[i] in after {
        assert allLeafPaths[i] in ElementsOf(allLeafPaths);
      }
    }
  }

  /** Toggling a prefix twice from a fully unchecked state restores the set when the list is non-empty. */
  lemma TogglePrefixTwiceFromNone(checkedPaths: set<string>, allLeafPaths: seq<string>)
    requires |allLeafPaths| > 0
    requires !AnyChecked(checkedPaths, allLeafPaths)
    ensures PrefixToggled(PrefixToggled(checkedPaths, allLeafPaths), allLeafPaths) == checkedPaths
  {
    var once := PrefixToggled(checkedPaths, allLeafPaths);
    assert allLeafPaths[0] in ElementsOf(allLeafPaths);
    assert AnyChecked(once, allLeafPaths);
    forall p | p in ElementsOf(allLeafPaths) ensures p !in checkedPaths {
      var i :| 0 <= i < |allLeafPaths| && allLeafPaths[i] == p;
    }
  }
}
