/**
 * The query builder: a dictionary from parameter names to values, kept in
 * insertion order, rendered as `?k=v&k=v` with no percent-encoding.
 */
module QueryStrings {
  import opened Wrappers
  import opened Text
  import opened Errors

  /** The dictionary's entries in enumeration (insertion) order. */
  type Entries = seq<(string, string)>

  function Keys(entries: Entries): (keys: seq<string>)
    ensures |keys| == |entries|
  {
    if |entries| == 0 then [] else [entries[0].0] + Keys(entries[1..])
  }

  /** The key at each position is the key of the entry at that position. */
  lemma {:induction false} KeysIndex(entries: Entries)
    ensures forall i :: 0 <= i < |entries| ==> Keys(entries)[i] == entries[i].0
  {
    if |entries| > 0 {
      var rest := entries[1..];
      KeysIndex(rest);
      assert Keys(entries) == [entries[0].0] + Keys(rest);
      forall i | 0 <= i < |entries| ensures Keys(entries)[i] == entries[i].0 {
        if i > 0 {
          assert rest[i - 1] == entries[i];
        }
      }
    }
  }

  /** A dictionary never holds a key twice. */
  predicate DistinctKeys(entries: Entries)
  {
    forall i, j :: 0 <= i < j < |entries| ==> entries[i].0 != entries[j].0
  }

  /** `dict.TryGetValue(key, out value)`. */
  function Lookup(entries: Entries, key: string): (r: Option<string>)
    ensures r.None? <==> key !in Keys(entries)
  {
    if |entries| == 0 then None
    else if entries[0].0 == key then Some(entries[0].1)
    else Lookup(entries[1..], key)
  }

  /**
   * `dict[key] = value`: a present key keeps its position and takes the new
   * value (last write wins); a new key is enumerated after all others.
   */
  function Upsert(entries: Entries, key: string, value: string): (r: Entries)
    ensures |r| == if key in Keys(entries) then |entries| else |entries| + 1
  {
    if |entries| == 0 then [(key, value)]
    else if entries[0].0 == key then [(key, value)] + entries[1..]
    else [entries[0]] + Upsert(entries[1..], key, value)
  }

  /** After an upsert, the key maps to the new value and every other key to what it mapped to before. */
  lemma {:induction false} UpsertLookup(entries: Entries, key: string, value: string, k: string)
    ensures Lookup(Upsert(entries, key, value), k) == if k == key then Some(value) else Lookup(entries, k)
  {
    if |entries| > 0 && entries[0].0 != key {
      var rest := entries[1..];
      UpsertLookup(rest, key, value, k);
      assert Upsert(entries, key, value)[1..] == Upsert(rest, key, value);
    }
  }

  /** Upserting keeps the order of the keys, adding a new key last. */
  lemma UpsertKeyOrder(entries: Entries, key: string, value: string)
    ensures Keys(Upsert(entries, key, value)) == if key in Keys(entries) then Keys(entries) else Keys(entries) + [key]
  {
    if key in Keys(entries) {
      UpsertPresentKeys(entries, key, value);
    } else {
      UpsertAbsent(entries, key, value);
      KeysAppend(entries, (key, value));
    }
  }

  /** Upserting a key already present leaves the keys as they were. */
  lemma {:induction false} UpsertPresentKeys(entries: Entries, key: string, value: string)
    requires key in Keys(entries)
    ensures Keys(Upsert(entries, key, value)) == Keys(entries)
  {
    var r := Upsert(entries, key, value);
    var rest := entries[1..];
    assert Keys(entries) == [entries[0].0] + Keys(rest);
    if entries[0].0 == key {
      assert r[1..] == rest;
      assert Keys(r) == [key] + Keys(rest);
    } else {
      UpsertPresentKeys(rest, key, value);
      assert r[1..] == Upsert(rest, key, value);
      assert Keys(r) == [entries[0].0] + Keys(Upsert(rest, key, value));
    }
  }

  /** The keys of an extended dictionary: the old keys, then the new one. */
  lemma {:induction false} KeysAppend(entries: Entries, entry: (string, string))
    ensures Keys(entries + [entry]) == Keys(entries) + [entry.0]
  {
    if |entries| > 0 {
      var e := entries + [entry];
      assert e[1..] == entries[1..] + [entry];
      KeysAppend(entries[1..], entry);
      assert Keys(e) == [entries[0].0] + Keys(entries[1..] + [entry]);
      assert Keys(entries) == [entries[0].0] + Keys(entries[1..]);
    }
  }

  /** The keys of two dictionaries' entries written one after the other. */
  lemma {:induction false} KeysConcat(a: Entries, b: Entries)
    ensures Keys(a + b) == Keys(a) + Keys(b)
  {
    if |a| > 0 {
      assert (a + b)[1..] == a[1..] + b;
      KeysConcat(a[1..], b);
      assert Keys(a + b) == [a[0].0] + Keys(a[1..] + b);
      assert Keys(a) == [a[0].0] + Keys(a[1..]);
      assert [a[0].0] + (Keys(a[1..]) + Keys(b)) == [a[0].0] + Keys(a[1..]) + Keys(b);
    } else {
      assert a + b == b;
    }
  }

  /** Looking a key up in two lists of entries written one after the other: the first list wins. */
  lemma {:induction false} LookupConcat(a: Entries, b: Entries, key: string)
    ensures Lookup(a + b, key) == if key in Keys(a) then Lookup(a, key) else Lookup(b, key)
  {
    if |a| > 0 {
      assert (a + b)[1..] == a[1..] + b;
      assert Keys(a) == [a[0].0] + Keys(a[1..]);
      if a[0].0 != key {
        LookupConcat(a[1..], b, key);
      }
    } else {
      assert a + b == b;
    }
  }

  /** Upserting keeps the keys distinct. */
  lemma UpsertDistinct(entries: Entries, key: string, value: string)
    requires DistinctKeys(entries)
    ensures DistinctKeys(Upsert(entries, key, value))
  {
    UpsertKeyOrder(entries, key, value);
    var r := Upsert(entries, key, value);
    var n := |entries|;
    KeysIndex(r);
    KeysIndex(entries);
    forall i, j | 0 <= i < j < |r| ensures r[i].0 != r[j].0 {
      assert Keys(r)[i] == r[i].0 && Keys(r)[j] == r[j].0;
      if j < n {
        assert Keys(r)[i] == Keys(entries)[i] == entries[i].0;
        assert Keys(r)[j] == Keys(entries)[j] == entries[j].0;
      } else {
        assert key !in Keys(entries) && Keys(r)[j] == key;
        assert Keys(r)[i] == Keys(entries)[i];
      }
    }
  }

  /** The "key=value" texts in enumeration order. */
  function Pairs(entries: Entries): seq<string>
  {
    seq(|entries|, i requires 0 <= i < |entries| => entries[i].0 + "=" + entries[i].1)
  }

  /** `ToString()`: "?" then the pairs joined by "&", emitted verbatim. */
  function Render(entries: Entries): string
  {
    "?" + Join("&", Pairs(entries))
  }

  /** An empty query string renders as "?" alone. */
  lemma RenderEmpty()
    ensures Render([]) == "?"
  {
  }

  /** Adding an entry extends the rendering by "&key=value" (no "&" after the first entry). */
  lemma RenderAppend(entries: Entries, key: string, value: string)
    ensures Render(entries + [(key, value)])
         == Render(entries) + (if |entries| == 0 then "" else "&") + key + "=" + value
  {
    var ps := Pairs(entries + [(key, value)]);
    assert ps[..|ps| - 1] == Pairs(entries);
  }

  /** A two-entry query renders as "?k1=v1&k2=v2". */
  lemma RenderTwo(k1: string, v1: string, k2: string, v2: string)
    ensures Render([(k1, v1), (k2, v2)]) == "?" + k1 + "=" + v1 + "&" + k2 + "=" + v2
  {
    RenderAppend([], k1, v1);
    assert [] + [(k1, v1)] == [(k1, v1)];
    RenderAppend([(k1, v1)], k2, v2);
    assert [(k1, v1)] + [(k2, v2)] == [(k1, v1), (k2, v2)];
  }

  /** Where an entry's "key=value" text sits in the rendering: after the leading "?". */
  lemma {:induction false} RenderEntryOffset(entries: Entries, i: nat) returns (p: nat)
    requires i < |entries|
    ensures 1 <= p && p + |entries[i].0 + "=" + entries[i].1| <= |Render(entries)|
    ensures Render(entries)[p..p + |entries[i].0 + "=" + entries[i].1|] == entries[i].0 + "=" + entries[i].1
  {
    var n := |entries|;
    var front := entries[..n - 1];
    assert entries == front + [entries[n - 1]];
    RenderAppend(front, entries[n - 1].0, entries[n - 1].1);
    var r := Render(entries);
    var part := entries[i].0 + "=" + entries[i].1;
    if i == n - 1 {
      p := |r| - |part|;
      assert r == Render(front) + (if n - 1 == 0 then "" else "&") + part;
    } else {
      p := RenderEntryOffset(front, i);
      assert r[p..p + |part|] == Render(front)[p..p + |part|];
    }
  }

  /** A rendering lists every entry: each "key=value" text appears in it. */
  lemma RenderContainsEntries(entries: Entries, i: nat)
    requires i < |entries|
    ensures Contains(Render(entries), entries[i].0 + "=" + entries[i].1)
  {
    var p := RenderEntryOffset(entries, i);
    ContainsAt(Render(entries), entries[i].0 + "=" + entries[i].1, p);
  }

  /** With distinct keys, the number of entries is the number of distinct keys. */
  lemma {:induction false} DistinctCount(entries: Entries)
    requires DistinctKeys(entries)
    ensures |set k | k in Keys(entries)| == |entries|
  {
    if |entries| > 0 {
      var first := entries[0].0;
      var rest := entries[1..];
      assert DistinctKeys(rest) by {
        forall i, j | 0 <= i < j < |rest| ensures rest[i].0 != rest[j].0 {
          assert rest[i] == entries[i + 1] && rest[j] == entries[j + 1];
        }
      }
      DistinctCount(rest);
      KeysIndex(rest);
      assert first !in Keys(rest) by {
        forall j | 0 <= j < |rest| ensures Keys(rest)[j] != first {
          assert rest[j] == entries[j + 1];
        }
      }
      var before := set k | k in Keys(rest);
      assert Keys(entries) == [first] + Keys(rest);
      assert (set k | k in Keys(entries)) == {first} + before;
      assert first !in before;
    }
  }

  class QueryString {
    var entries: Entries

    ghost predicate Valid()
      reads this
    {
      DistinctKeys(entries)
    }

    /** `new QueryString()`: no entries. */
    constructor ()
      ensures Valid() && entries == []
      ensures Count() == 0 && ToString() == "?"
    {
      entries := [];
    }

    /** `Count`: how many distinct keys have been stored; there is no removal. */
    function Count(): (n: nat)
      reads this
      requires Valid()
      ensures n == |set k | k in Keys(entries)|
    {
      DistinctCount(entries);
      |entries|
    }

    /**
     * `Add(key, value)`: a new key is stored after the others and the count
     * grows by one; a key already present throws ClientApiException and
     * leaves the entries unchanged.
     */
    method Add(key: string, value: string) returns (r: Outcome<Error>)
      requires Valid()
      modifies this
      ensures Valid()
      ensures r == if key in Keys(old(entries)) then Fail(ClientApi(DuplicateQueryKey(key))) else Pass
      ensures r.Pass? ==> entries == old(entries) + [(key, value)] && Lookup(entries, key) == Some(value)
      ensures r.Pass? ==> |entries| == |old(entries)| + 1
      ensures r.Fail? ==> entries == old(entries)
    {
      if Lookup(entries, key).Some? {
        r := Fail(ClientApi(DuplicateQueryKey(key)));
      } else {
        UpsertDistinct(entries, key, value);
        UpsertLookup(entries, key, value, key);
        assert Upsert(entries, key, value) == entries + [(key, value)] by {
          UpsertAbsent(entries, key, value);
        }
        entries := Upsert(entries, key, value);
        r := Pass;
      }
    }

    /**
     * `AddOrUpdate(key, value)`: never throws; afterwards `key` maps to
     * `value`, other keys are unchanged and the count grows only for a new key.
     */
    method AddOrUpdate(key: string, value: string)
      requires Valid()
      modifies this
      ensures Valid()
      ensures entries == Upsert(old(entries), key, value)
      ensures Lookup(entries, key) == Some(value)
      ensures forall k :: k != key ==> Lookup(entries, k) == Lookup(old(entries), k)
      ensures |entries| == if key in Keys(old(entries)) then |old(entries)| else |old(entries)| + 1
    {
      UpsertDistinct(entries, key, value);
      UpsertLookup(entries, key, value, key);
      forall k | k != key
        ensures Lookup(Upsert(old(entries), key, value), k) == Lookup(old(entries), k)
      {
        UpsertLookup(old(entries), key, value, k);
      }
      entries := Upsert(entries, key, value);
    }

    /** `ToString()`. */
    function ToString(): (s: string)
      reads this
      ensures s == Render(entries)
      ensures |entries| == 0 ==> s == "?"
    {
      Render(entries)
    }
  }

  /** Upserting an absent key appends it. */
  lemma {:induction false} UpsertAbsent(entries: Entries, key: string, value: string)
    requires key !in Keys(entries)
    ensures Upsert(entries, key, value) == entries + [(key, value)]
  {
    if |entries| > 0 {
      var rest := entries[1..];
      assert entries[0].0 != key && key !in Keys(rest) by {
        assert Keys(entries) == [entries[0].0] + Keys(rest);
      }
      UpsertAbsent(rest, key, value);
      assert Upsert(entries, key, value) == [entries[0]] + Upsert(rest, key, value);
      assert [entries[0]] + (rest + [(key, value)]) == entries + [(key, value)];
    }
  }
}
