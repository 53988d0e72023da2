/**
 * The observable contract of the `classnames` helper for the arguments the flex
 * item passes it: a string, an object literal of class names mapped to
 * conditions, and an optional extra class name.
 */
module Classnames {
  import opened Wrappers
  import opened JsValues

  /** One own property of an object literal: the class name and its condition. */
  type Entry = (string, Value)

  /** The key of the entry at position `i`. */
  function Key(entries: seq<Entry>, i: nat): string
    requires i < |entries|
  {
    entries[i].0
  }

  /** The keys of an object are pairwise distinct. */
  predicate DistinctKeys(entries: seq<Entry>) {
    forall i, j :: 0 <= i < j < |entries| ==> Key(entries, i) != Key(entries, j)
  }

  /** The keys whose values are truthy, in insertion order. */
  function TruthyKeys(entries: seq<Entry>): (r: seq<string>)
    ensures |r| <= |entries|
  {
    if entries == [] then []
    else (if Truthy(entries[0].1) then [entries[0].0] else []) + TruthyKeys(entries[1..])
  }

  /** A key is kept exactly when some entry with that key has a truthy value. */
  lemma {:induction false} TruthyKeysMembers(entries: seq<Entry>, k: string)
    ensures k in TruthyKeys(entries) <==> exists i :: 0 <= i < |entries| && entries[i].0 == k && Truthy(entries[i].1)
  {
    if entries != [] {
      TruthyKeysMembers(entries[1..], k);
      if k in TruthyKeys(entries[1..]) {
        var i :| 0 <= i < |entries[1..]| && entries[1..][i].0 == k && Truthy(entries[1..][i].1);
        assert entries[i + 1] == entries[1..][i];
      }
      if exists i :: 0 <= i < |entries| && entries[i].0 == k && Truthy(entries[i].1) {
        var i :| 0 <= i < |entries| && entries[i].0 == k && Truthy(entries[i].1);
        if i > 0 {
          assert entries[1..][i - 1] == entries[i];
        }
      }
    }
  }

  /** A string argument contributes itself when it is truthy (non-empty). */
  function StringArg(s: string): seq<string> {
    if s != "" then [s] else []
  }

  /** An optional string argument: `undefined` contributes nothing. */
  function OptionalArg(s: Option<string>): seq<string> {
    if s.Some? then StringArg(s.value) else []
  }

  /** `classNames(first, flags, extra)` as the list of classes it joins with spaces. */
  function ClassNames(first: string, flags: seq<Entry>, extra: Option<string>): (r: seq<string>)
    requires DistinctKeys(flags)
    ensures first != "" ==> |r| >= 1 && r[0] == first
    ensures extra.Some? && extra.value != "" ==> |r| >= 1 && r[|r| - 1] == extra.value
  {
    StringArg(first) + TruthyKeys(flags) + OptionalArg(extra)
  }
}
