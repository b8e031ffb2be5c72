/** The selection handlers of the multi-pair selector (src/components/MultiPairSelector.tsx):
    toggling one pair in or out of the selection and selecting or clearing all pairs. The
    selection they produce is the list the multi-pair rotation walks. */
module PairSelector {
  import Lists
  import PocketOption
  import MultiPairAnalysis

  /** `pairs.map(p => p.name)`: one name per pair, in order, and a name is listed iff some
      pair carries it. */
  function Names(pairs: seq<PocketOption.OtcMarket>): (names: seq<string>)
    ensures |names| == |pairs|
    ensures forall i :: 0 <= i < |pairs| ==> names[i] == pairs[i].name
    ensures forall n :: n in names <==> exists p :: p in pairs && p.name == n
  {
    var names := seq(|pairs|, i requires 0 <= i < |pairs| => pairs[i].name);
    assert forall n :: n in names ==> exists p :: p in pairs && p.name == n by {
      forall n | n in names ensures exists p :: p in pairs && p.name == n {
        var i :| 0 <= i < |names| && names[i] == n;
        assert pairs[i] in pairs;
      }
    }
    assert forall p :: p in pairs ==> p.name in names by {
      forall p | p in pairs ensures p.name in names {
        var i :| 0 <= i < |pairs| && pairs[i] == p;
        assert names[i] == p.name;
      }
    }
    names
  }

  /** handleTogglePair: a selected pair is removed, every occurrence of it, and the others
      keep their order and multiplicity; an unselected pair is appended at the end. */
  function TogglePair(selectedPairs: seq<string>, pairName: string): (r: seq<string>)
    ensures pairName !in selectedPairs ==> r == selectedPairs + [pairName]
    ensures pairName in selectedPairs ==> pairName !in r && Lists.IsSubsequence(r, selectedPairs)
    ensures pairName in selectedPairs ==>
      forall other :: other != pairName ==> Lists.Count(r, other) == Lists.Count(selectedPairs, other)
  {
    Lists.RemoveAllSpec(selectedPairs, pairName);
    Lists.Toggle(selectedPairs, pairName)
  }

  /** Toggling an unselected pair twice gives the selection back. */
  lemma TogglePairTwice(selectedPairs: seq<string>, pairName: string)
    requires pairName !in selectedPairs
    ensures TogglePair(TogglePair(selectedPairs, pairName), pairName) == selectedPairs
  {
    Lists.ToggleTwiceAbsent(selectedPairs, pairName);
  }

  /** Toggling keeps a selection free of repeats and flips the pair's membership. */
  lemma TogglePairKeepsDistinct(selectedPairs: seq<string>, pairName: string)
    requires Lists.NoDuplicates(selectedPairs)
    ensures Lists.NoDuplicates(TogglePair(selectedPairs, pairName))
    ensures pairName in TogglePair(selectedPairs, pairName) <==> pairName !in selectedPairs
  {
    Lists.ToggleKeepsNoDuplicates(selectedPairs, pairName);
  }

  /** Selecting all from the fallback catalogue gives 28 distinct names, so the rotation
      reaches every one of them within any 28 consecutive rotations. */
  lemma SelectAllDefaultCoverage(i: nat, m: nat, j: nat)
    requires i < 28 && j < 28
    ensures var names := Names(PocketOption.DefaultOtcPairs());
      |names| == 28 && Lists.NoDuplicates(names) &&
      exists k :: m < k <= m + 28 && MultiPairAnalysis.RotateTimes(names, names[i], k) == names[j]
  {
    PocketOption.DefaultOtcPairsSpec();
    var names := Names(PocketOption.DefaultOtcPairs());
    MultiPairAnalysis.RotationCoverage(names, i, m, j);
  }

  /** The selector's state: its own select-all flag and the selection it reports through
      `onSelectionChange`, held here as a field the handlers replace. */
  class Selector {
    var selectAll: bool
    var selectedPairs: seq<string>

    constructor (initial: seq<string>)
      ensures !selectAll && selectedPairs == initial
    {
      selectAll := false;
      selectedPairs := initial;
    }

    /** handleSelectAll: with the flag off every catalogue name is selected in catalogue
        order, with it on the selection is cleared; either way the flag flips. */
    method HandleSelectAll(pairs: seq<PocketOption.OtcMarket>)
      modifies this
      ensures old(selectAll) ==> selectedPairs == []
      ensures !old(selectAll) ==> selectedPairs == Names(pairs)
      ensures selectAll == !old(selectAll)
    {
      if selectAll {
        selectedPairs := [];
      } else {
        selectedPairs := Names(pairs);
      }
      selectAll := !selectAll;
    }

    method HandleTogglePair(pairName: string)
      modifies this
      ensures selectedPairs == TogglePair(old(selectedPairs), pairName)
      ensures selectAll == old(selectAll)
    {
      selectedPairs := TogglePair(selectedPairs, pairName);
    }
  }
}
