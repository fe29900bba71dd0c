/**
 * JSON values as the HTTP library serialises them, and the meaning of a
 * Python dict literal `{k1: v1, ..., kn: vn}`: entries are stored left to
 * right, a key seen again overwrites the earlier value in its original
 * position, so the LAST value given for a key is the one kept.
 */
module Json {
  import opened Wrappers

  /** A JSON value. */
  datatype Value =
    | Null
    | Int(i: int)
    | Str(s: string)
    | Object(members: seq<(string, Value)>)

  /** The value stored under `key`, if any. */
  function Lookup(members: seq<(string, Value)>, key: string): Option<Value>
  {
    if members == [] then None
    else if members[0].0 == key then Some(members[0].1)
    else Lookup(members[1..], key)
  }

  /** The keys of an object. */
  function Keys(members: seq<(string, Value)>): set<string>
  {
    if members == [] then {} else {members[0].0} + Keys(members[1..])
  }

  /** Every key occurs once, as in a Python dict. */
  ghost predicate DistinctKeys(members: seq<(string, Value)>)
  {
    forall i, j :: 0 <= i < j < |members| ==> members[i].0 != members[j].0
  }

  /** `d[key] = value`: overwrite in place when the key exists, otherwise append. */
  function Put(members: seq<(string, Value)>, key: string, value: Value): (r: seq<(string, Value)>)
  {
    if members == [] then [(key, value)]
    else if members[0].0 == key then [(key, value)] + members[1..]
    else [members[0]] + Put(members[1..], key, value)
  }

  /** The dict a literal with these entries (in source order) evaluates to. */
  function FromEntries(entries: seq<(string, Value)>): seq<(string, Value)>
  {
    if entries == [] then []
    else
      var last := entries[|entries| - 1];
      Put(FromEntries(entries[..|entries| - 1]), last.0, last.1)
  }

  /** The value the last entry with `key` gives; the reference meaning of a literal. */
  function LastValue(entries: seq<(string, Value)>, key: string): Option<Value>
  {
    if entries == [] then None
    else if entries[|entries| - 1].0 == key then Some(entries[|entries| - 1].1)
    else LastValue(entries[..|entries| - 1], key)
  }

  /** The last value for a key in two runs of entries: from the second run when it has the key. */
  lemma {:induction false} LastValueAppend(a: seq<(string, Value)>, b: seq<(string, Value)>, k: string)
    ensures LastValue(a + b, k) == if LastValue(b, k).Some? then LastValue(b, k) else LastValue(a, k)
    decreases |b|
  {
    if b == [] {
      assert a + b == a;
    } else {
      assert (a + b)[..|a + b| - 1] == a + b[..|b| - 1];
      LastValueAppend(a, b[..|b| - 1], k);
    }
  }

  /** Reading a key back after `Put` gives the value put; other keys are untouched. */
  lemma {:induction false} LookupPut(members: seq<(string, Value)>, key: string, value: Value, k: string)
    ensures Lookup(Put(members, key, value), k) == if k == key then Some(value) else Lookup(members, k)
  {
    if members != [] && members[0].0 != key {
      LookupPut(members[1..], key, value, k);
      assert Put(members, key, value)[1..] == Put(members[1..], key, value);
    } else if members != [] {
      assert Put(members, key, value)[1..] == members[1..];
    }
  }

  /** `Put` adds its key to the key set and nothing else. */
  lemma {:induction false} KeysPut(members: seq<(string, Value)>, key: string, value: Value)
    ensures Keys(Put(members, key, value)) == Keys(members) + {key}
  {
    if members != [] && members[0].0 != key {
      KeysPut(members[1..], key, value);
      assert Put(members, key, value)[1..] == Put(members[1..], key, value);
    } else if members != [] {
      assert Put(members, key, value)[1..] == members[1..];
    }
  }

  /** A key is in the key set exactly when it can be looked up. */
  lemma {:induction false} KeysLookup(members: seq<(string, Value)>, k: string)
    ensures k in Keys(members) <==> Lookup(members, k).Some?
  {
    if members != [] {
      KeysLookup(members[1..], k);
    }
  }

  /** `Put` keeps the keys distinct; it never makes a second copy of a key. */
  lemma {:induction false} PutDistinct(members: seq<(string, Value)>, key: string, value: Value)
    requires DistinctKeys(members)
    ensures DistinctKeys(Put(members, key, value))
    ensures |Put(members, key, value)| == if key in Keys(members) then |members| else |members| + 1
  {
    if members != [] && members[0].0 != key {
      var tail := Put(members[1..], key, value);
      PutDistinct(members[1..], key, value);
      KeysPut(members[1..], key, value);
      var r := Put(members, key, value);
      assert r == [members[0]] + tail;
      forall j | 0 <= j < |tail|
        ensures tail[j].0 != members[0].0
      {
        assert tail[j].0 in Keys(tail) by { MemberKey(tail, j); }
        if tail[j].0 in Keys(members[1..]) {
          KeyIndex(members[1..], tail[j].0);
        }
      }
    } else if members != [] {
      KeysNotAfterFirst(members);
    }
  }

  /** A literal keeps, for every key, the value of the last entry with that key. */
  lemma {:induction false} LookupFromEntries(entries: seq<(string, Value)>, k: string)
    ensures Lookup(FromEntries(entries), k) == LastValue(entries, k)
  {
    if entries != [] {
      var last := entries[|entries| - 1];
      LookupFromEntries(entries[..|entries| - 1], k);
      LookupPut(FromEntries(entries[..|entries| - 1]), last.0, last.1, k);
    }
  }

  /** The evaluated literal has distinct keys, and exactly the keys written in it. */
  lemma {:induction false} FromEntriesKeys(entries: seq<(string, Value)>)
    ensures DistinctKeys(FromEntries(entries))
    ensures Keys(FromEntries(entries)) == set i | 0 <= i < |entries| :: entries[i].0
  {
    if entries != [] {
      var init := entries[..|entries| - 1];
      var last := entries[|entries| - 1];
      FromEntriesKeys(init);
      PutDistinct(FromEntries(init), last.0, last.1);
      KeysPut(FromEntries(init), last.0, last.1);
      var all := set i | 0 <= i < |entries| :: entries[i].0;
      var before := set i | 0 <= i < |init| :: init[i].0;
      assert all == before + {last.0} by {
        forall k | k in all ensures k in before + {last.0} {
          var i :| 0 <= i < |entries| && entries[i].0 == k;
          if i < |init| { assert init[i].0 == k; }
        }
        forall k | k in before ensures k in all {
          var i :| 0 <= i < |init| && init[i].0 == k;
          assert entries[i].0 == k;
        }
        assert entries[|entries| - 1].0 in all;
      }
    }
  }

  lemma {:induction false} MemberKey(members: seq<(string, Value)>, j: nat)
    requires j < |members|
    ensures members[j].0 in Keys(members)
  {
    if j > 0 {
      MemberKey(members[1..], j - 1);
    }
  }

  lemma {:induction false} KeyIndex(members: seq<(string, Value)>, k: string)
    requires k in Keys(members)
    ensures exists j :: 0 <= j < |members| && members[j].0 == k
  {
    if members[0].0 != k {
      KeyIndex(members[1..], k);
      var j :| 0 <= j < |members[1..]| && members[1..][j].0 == k;
      assert members[j + 1].0 == k;
    }
  }

  lemma KeysNotAfterFirst(members: seq<(string, Value)>)
    requires members != [] && DistinctKeys(members)
    ensures members[0].0 !in Keys(members[1..])
  {
    if members[0].0 in Keys(members[1..]) {
      KeyIndex(members[1..], members[0].0);
      assert false;
    }
  }
}
