// The custom report: the parent picks which of the five charts the report
// shows. The selection is a list of chart keys; toggling a key removes it
// when it is selected and appends it otherwise, and the charts render in
// their fixed order, each exactly when its key is selected.
module CustomReport {
  import opened Lists

  /** The keys of `chartOptions`, in their order. */
  const ChartKeys: seq<string> := ["trend", "taskType", "bestPeriod", "completionSpeed", "courseTime"]

  /** The initial selection: every chart, in `chartOptions` order. */
  function InitialSelection(): (r: seq<string>)
    ensures |r| == 5 && Distinct(r)
    ensures forall k :: k in r <==> k in ChartKeys
  {
    ChartKeys
  }

  function Other(key: string): string -> bool
  {
    (k: string) => k != key
  }

  /** `handleToggle(key)` applied to the previous selection. */
  function Toggle(prev: seq<string>, key: string): seq<string>
  {
    if key in prev then Filter(prev, Other(key)) else prev + [key]
  }

  /** Toggling a selected key removes every copy of it and keeps every other key. */
  lemma ToggleSelected(prev: seq<string>, key: string)
    requires key in prev
    ensures key !in Toggle(prev, key)
    ensures forall k :: k != key ==> (k in Toggle(prev, key) <==> k in prev)
    ensures |Toggle(prev, key)| < |prev|
  {
    var i :| 0 <= i < |prev| && prev[i] == key;
    FilterCount(prev, Other(key), key);
    assert multiset(prev)[key] > 0;
    FilterComplementCount(prev, key);
  }

  /** Without `key`, the filtered list is the list less the copies of `key`. */
  lemma {:induction false} FilterComplementCount(s: seq<string>, key: string)
    ensures |Filter(s, Other(key))| == |s| - multiset(s)[key]
  {
    if |s| > 0 {
      FilterComplementCount(s[1..], key);
      assert s == [s[0]] + s[1..];
      assert multiset(s)[key] == multiset(s[1..])[key] + (if s[0] == key then 1 else 0);
      if s[0] == key {
        assert Filter(s, Other(key)) == Filter(s[1..], Other(key));
      } else {
        assert Filter(s, Other(key)) == [s[0]] + Filter(s[1..], Other(key));
      }
    }
  }

  /** Toggling an unselected key appends it. */
  lemma ToggleUnselected(prev: seq<string>, key: string)
    requires key !in prev
    ensures Toggle(prev, key) == prev + [key]
    ensures key in Toggle(prev, key)
  {
  }

  /** Toggling the same key twice restores which keys are selected. */
  lemma ToggleTwice(prev: seq<string>, key: string)
    ensures forall k :: k in Toggle(Toggle(prev, key), key) <==> k in prev
  {
    if key in prev {
      ToggleSelected(prev, key);
    } else {
      ToggleSelected(prev + [key], key);
    }
  }

  /** …but not always the order: "trend" toggled off and on again moves to the end. */
  lemma ToggleTwiceMovesKey()
    ensures Toggle(Toggle(["trend", "taskType"], "trend"), "trend") == ["taskType", "trend"]
  {
    assert Toggle(["trend", "taskType"], "trend") == ["taskType"] by {
      assert ["trend", "taskType"][1..] == ["taskType"];
      assert ["taskType"][1..] == [];
    }
  }

  /** A selection without repeats stays without repeats. */
  lemma ToggleKeepsDistinct(prev: seq<string>, key: string)
    requires Distinct(prev)
    ensures Distinct(Toggle(prev, key))
  {
    if key in prev {
      FilterKeepsDistinct(prev, Other(key));
    }
  }

  function IsSelected(selected: seq<string>): string -> bool
  {
    (k: string) => k in selected
  }

  /** The charts of the report, in `chartOptions` order: those whose key is selected. */
  function Rendered(selected: seq<string>): seq<string>
  {
    Filter(ChartKeys, IsSelected(selected))
  }

  /** A chart renders exactly when its key is selected, whatever the order of the selection. */
  lemma RenderedExactlySelected(selected: seq<string>)
    ensures forall k :: k in Rendered(selected) <==> k in ChartKeys && k in selected
    ensures forall i, j :: 0 <= i < j < |Rendered(selected)| ==> Rendered(selected)[i] != Rendered(selected)[j]
  {
    assert Distinct(InitialSelection());
    FilterKeepsDistinct(ChartKeys, IsSelected(selected));
  }
}
