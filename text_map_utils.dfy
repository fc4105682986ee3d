/** `TextMapUtils.toMap`: copy a carrier's entries into a map keyed by the
    lower-cased entry keys. Carrier entries are given in iteration order; a
    later entry overwrites an earlier one whose key lower-cases the same. */
module TextMapUtils {

  /** `Character.toLowerCase` on ASCII letters. */
  function LowerChar(c: char): (r: char)
  {
    if 'A' <= c <= 'Z' then (c as int - 'A' as int + 'a' as int) as char else c
  }

  /** `String.toLowerCase()`. */
  function Lower(s: string): (r: string)
    ensures |r| == |s|
    ensures forall i :: 0 <= i < |s| ==> r[i] == LowerChar(s[i])
  {
    seq(|s|, i requires 0 <= i < |s| => LowerChar(s[i]))
  }

  /** What the loop of `toMap` has built after the given entries. */
  function ToMapSpec(entries: seq<(string, string)>): map<string, string>
  {
    if entries == [] then map[]
    else
      var last := entries[|entries| - 1];
      ToMapSpec(entries[..|entries| - 1])[Lower(last.0) := last.1]
  }

  /** The source's loop: put every entry, key lower-cased, into a new map. */
  method ToMap(entries: seq<(string, string)>) returns (m: map<string, string>)
    ensures m == ToMapSpec(entries)
  {
    m := map[];
    var i := 0;
    while i < |entries|
      invariant 0 <= i <= |entries|
      invariant m == ToMapSpec(entries[..i])
    {
      assert entries[..i + 1][..i] == entries[..i];
      m := m[Lower(entries[i].0) := entries[i].1];
      i := i + 1;
    }
    assert entries[..i] == entries;
  }

  lemma LowerIdempotent(s: string)
    ensures Lower(Lower(s)) == Lower(s)
  {
  }

  /** The result has key `k` exactly when some entry's key lower-cases to `k`. */
  lemma {:induction false} ToMapKeys(entries: seq<(string, string)>, k: string)
    ensures k in ToMapSpec(entries) <==> exists i :: 0 <= i < |entries| && Lower(entries[i].0) == k
  {
    if entries != [] {
      var init := entries[..|entries| - 1];
      ToMapKeys(init, k);
      if k in ToMapSpec(init) {
        var i :| 0 <= i < |init| && Lower(init[i].0) == k;
        assert entries[i] == init[i];
      }
      if exists i :: 0 <= i < |entries| && Lower(entries[i].0) == k {
        var i :| 0 <= i < |entries| && Lower(entries[i].0) == k;
        if i < |init| {
          assert init[i] == entries[i];
        }
      }
    }
  }

  /** Values are copied unchanged, and the last entry whose key lower-cases to
      `k` is the one that wins. */
  lemma {:induction false} ToMapLastWins(entries: seq<(string, string)>, i: nat)
    requires i < |entries|
    requires forall j :: i < j < |entries| ==> Lower(entries[j].0) != Lower(entries[i].0)
    ensures Lower(entries[i].0) in ToMapSpec(entries)
    ensures ToMapSpec(entries)[Lower(entries[i].0)] == entries[i].1
  {
    var init := entries[..|entries| - 1];
    if i < |entries| - 1 {
      forall j | i < j < |init|
        ensures Lower(init[j].0) != Lower(init[i].0)
      {
        assert init[j] == entries[j];
      }
      ToMapLastWins(init, i);
      assert init[i] == entries[i];
    }
  }

  /** Every value in the result is the value of some carrier entry. */
  lemma {:induction false} ToMapValuesFromEntries(entries: seq<(string, string)>, k: string)
    requires k in ToMapSpec(entries)
    ensures exists i :: 0 <= i < |entries| && Lower(entries[i].0) == k && ToMapSpec(entries)[k] == entries[i].1
  {
    var init := entries[..|entries| - 1];
    var last := entries[|entries| - 1];
    if Lower(last.0) != k {
      ToMapValuesFromEntries(init, k);
      var i :| 0 <= i < |init| && Lower(init[i].0) == k && ToMapSpec(init)[k] == init[i].1;
      assert entries[i] == init[i];
    }
  }
}
