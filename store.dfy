/**
 * One tag's slice of the world state: an ordered table of records keyed by
 * (owner, id), with the ledger's primitive operations GetState (Lookup),
 * PutState (Put), DelState (Remove) and the partial-composite-key range scan
 * over one owner (Scan).
 */
module Store {
  import opened Keys
  import opened Outcomes

  datatype Entry<V> = Entry(key: Key, value: V)

  /** The records of one tag, in key order. */
  type Table<V> = seq<Entry<V>>

  /** The table is in strictly increasing key order, as the ledger keeps it. */
  ghost predicate Sorted<V>(t: Table<V>)
  {
    forall i, j :: 0 <= i < j < |t| ==> KeyLess(t[i].key, t[j].key)
  }

  /** No key is stored twice. */
  ghost predicate UniqueKeys<V>(t: Table<V>)
  {
    forall i, j :: 0 <= i < |t| && 0 <= j < |t| && i != j ==> t[i].key != t[j].key
  }

  lemma SortedUnique<V>(t: Table<V>)
    requires Sorted(t)
    ensures UniqueKeys(t)
  {
    forall i, j | 0 <= i < |t| && 0 <= j < |t| && i != j
      ensures t[i].key != t[j].key
    {
      if i < j {
        KeyLessIrreflexive(t[i].key);
      } else {
        KeyLessIrreflexive(t[j].key);
      }
    }
  }

  /** GetState: the record stored under k, if any. */
  function Lookup<V>(t: Table<V>, k: Key): (r: Option<V>)
    ensures r.Some? ==> Entry(k, r.value) in t
  {
    if t == [] then None
    else if t[0].key == k then Some(t[0].value)
    else Lookup(t[1..], k)
  }

  /** GetState finds nothing exactly when the key is not among the table's keys. */
  lemma {:induction false} LookupNone<V>(t: Table<V>, k: Key)
    ensures Lookup(t, k).None? <==> k !in KeysOf(t)
  {
    if t != [] {
      LookupNone(t[1..], k);
      assert KeysOf(t) == [t[0].key] + KeysOf(t[1..]);
    }
  }

  /** The key of a stored entry is among the table's keys. */
  lemma KeyOfMember<V>(t: Table<V>, e: Entry<V>)
    requires e in t
    ensures e.key in KeysOf(t)
  {
    var i :| 0 <= i < |t| && t[i] == e;
    assert KeysOf(t)[i] == e.key;
  }

  /** The generic readState helper: the record under k, or NotFound. */
  function ReadState<V>(t: Table<V>, k: Key): (r: Result<V>)
    ensures r.Ok? <==> k in KeysOf(t)
    ensures r.Ok? ==> Entry(k, r.value) in t
    ensures r.Err? ==> r.error == NotFound
  {
    LookupNone(t, k);
    match Lookup(t, k)
    case None => Err(NotFound)
    case Some(v) => Ok(v)
  }

  lemma UniqueTail<V>(t: Table<V>)
    requires UniqueKeys(t) && t != []
    ensures UniqueKeys(t[1..])
  {
    forall a, b | 0 <= a < |t| - 1 && 0 <= b < |t| - 1 && a != b
      ensures t[1..][a].key != t[1..][b].key
    {
      assert t[1..][a] == t[a + 1] && t[1..][b] == t[b + 1];
    }
  }

  lemma SortedTail<V>(t: Table<V>)
    requires Sorted(t) && t != []
    ensures Sorted(t[1..])
  {
    forall i, j | 0 <= i < j < |t| - 1
      ensures KeyLess(t[1..][i].key, t[1..][j].key)
    {
      assert t[1..][i] == t[i + 1] && t[1..][j] == t[j + 1];
    }
  }

  /** A record of a table with unique keys is what GetState returns for its key. */
  lemma {:induction false} LookupMember<V>(t: Table<V>, e: Entry<V>)
    requires UniqueKeys(t) && e in t
    ensures Lookup(t, e.key) == Some(e.value)
  {
    if t[0] != e {
      var i :| 0 <= i < |t| && t[i] == e;
      assert i != 0 && t[0].key != t[i].key;
      UniqueTail(t);
      assert t[1..][i - 1] == e;
      LookupMember(t[1..], e);
    }
  }

  /** In a sorted table, a key below the first key is not stored. */
  lemma LookupBelow<V>(t: Table<V>, k: Key)
    requires Sorted(t) && t != [] && KeyLess(k, t[0].key)
    ensures Lookup(t, k).None?
  {
    var ks := KeysOf(t);
    forall i | 0 <= i < |ks|
      ensures ks[i] != k
    {
      if i > 0 {
        KeyLessTransitive(k, t[0].key, t[i].key);
      }
      KeyLessIrreflexive(k);
    }
    LookupNone(t, k);
  }

  /** PutState: store v under k, replacing what was there, keeping key order. */
  function Put<V>(t: Table<V>, k: Key, v: V): (r: Table<V>)
    ensures |r| <= |t| + 1
  {
    if t == [] then [Entry(k, v)]
    else if t[0].key == k then [Entry(k, v)] + t[1..]
    else if KeyLess(k, t[0].key) then [Entry(k, v)] + t
    else [t[0]] + Put(t[1..], k, v)
  }

  /** After PutState(k, v), GetState(k) is v and every other key reads as before. */
  lemma {:induction false} PutLookup<V>(t: Table<V>, k: Key, v: V, k': Key)
    ensures Lookup(Put(t, k, v), k') == if k' == k then Some(v) else Lookup(t, k')
  {
    if t != [] && t[0].key != k && !KeyLess(k, t[0].key) {
      PutLookup(t[1..], k, v, k');
    } else if t != [] && t[0].key == k {
      assert ([Entry(k, v)] + t[1..])[1..] == t[1..];
    } else if t != [] {
      assert ([Entry(k, v)] + t)[1..] == t;
    }
  }

  /** PutState adds no record but the one it stores. */
  lemma {:induction false} PutMember<V>(t: Table<V>, k: Key, v: V, e: Entry<V>)
    ensures e in Put(t, k, v) ==> e in t || e == Entry(k, v)
  {
    if t != [] {
      assert e in t[1..] ==> e in t;
      if t[0].key != k && !KeyLess(k, t[0].key) {
        PutMember(t[1..], k, v, e);
      }
    }
  }

  /** DelState: drop the record under k, if any. */
  function Remove<V>(t: Table<V>, k: Key): (r: Table<V>)
    ensures |r| <= |t|
  {
    if t == [] then []
    else if t[0].key == k then Remove(t[1..], k)
    else [t[0]] + Remove(t[1..], k)
  }

  /** After DelState(k), GetState(k) finds nothing and every other key reads as before. */
  lemma {:induction false} RemoveLookup<V>(t: Table<V>, k: Key, k': Key)
    ensures Lookup(Remove(t, k), k') == if k' == k then None else Lookup(t, k')
  {
    if t != [] {
      RemoveLookup(t[1..], k, k');
      if t[0].key != k {
        assert ([t[0]] + Remove(t[1..], k))[1..] == Remove(t[1..], k);
      }
    }
  }

  /** DelState keeps exactly the records under other keys. */
  lemma {:induction false} RemoveMember<V>(t: Table<V>, k: Key, e: Entry<V>)
    ensures e in Remove(t, k) <==> e in t && e.key != k
  {
    if t != [] {
      RemoveMember(t[1..], k, e);
      assert e in t <==> e == t[0] || e in t[1..];
    }
  }

  /** DelState of every key of ks, one after another. */
  function RemoveAll<V>(t: Table<V>, ks: seq<Key>): (r: Table<V>)
    decreases |ks|
  {
    if ks == [] then t else RemoveAll(Remove(t, ks[0]), ks[1..])
  }

  lemma {:induction false} RemoveAllLookup<V>(t: Table<V>, ks: seq<Key>, k: Key)
    ensures Lookup(RemoveAll(t, ks), k) == if k in ks then None else Lookup(t, k)
    decreases |ks|
  {
    if ks != [] {
      RemoveLookup(t, ks[0], k);
      RemoveAllLookup(Remove(t, ks[0]), ks[1..], k);
      assert k in ks <==> k == ks[0] || k in ks[1..];
    }
  }

  lemma {:induction false} RemoveAllMember<V>(t: Table<V>, ks: seq<Key>, e: Entry<V>)
    ensures e in RemoveAll(t, ks) <==> e in t && e.key !in ks
    decreases |ks|
  {
    if ks != [] {
      RemoveMember(t, ks[0], e);
      RemoveAllMember(Remove(t, ks[0]), ks[1..], e);
      assert e.key in ks <==> e.key == ks[0] || e.key in ks[1..];
    }
  }

  /** Deleting one more key after a run of deletions. */
  lemma {:induction false} RemoveAllSnoc<V>(t: Table<V>, ks: seq<Key>, k: Key)
    ensures RemoveAll(t, ks + [k]) == Remove(RemoveAll(t, ks), k)
    decreases |ks|
  {
    if ks == [] {
      assert ks + [k] == [k];
      assert RemoveAll(t, [k]) == RemoveAll(Remove(t, k), [k][1..]);
      assert [k][1..] == [];
    } else {
      assert (ks + [k])[0] == ks[0] && (ks + [k])[1..] == ks[1..] + [k];
      RemoveAllSnoc(Remove(t, ks[0]), ks[1..], k);
    }
  }

  /** GetStateByPartialCompositeKey(tag, [owner]): the owner's entries, in key order. */
  function Scan<V>(t: Table<V>, owner: string): (r: Table<V>)
    ensures |r| <= |t|
  {
    if t == [] then []
    else if t[0].key.owner == owner then [t[0]] + Scan(t[1..], owner)
    else Scan(t[1..], owner)
  }

  /** The scan holds exactly the entries under the owner's prefix. */
  lemma {:induction false} ScanMember<V>(t: Table<V>, owner: string, e: Entry<V>)
    ensures e in Scan(t, owner) <==> e in t && e.key.owner == owner
  {
    if t != [] {
      ScanMember(t[1..], owner, e);
      assert e in t <==> e == t[0] || e in t[1..];
    }
  }

  /** GetState on an owner's scan reads the table for that owner's keys and finds nothing for others. */
  lemma {:induction false} ScanLookup<V>(t: Table<V>, owner: string, k: Key)
    ensures Lookup(Scan(t, owner), k) == if k.owner == owner then Lookup(t, k) else None
  {
    if t != [] {
      ScanLookup(t[1..], owner, k);
      if t[0].key.owner == owner {
        assert ([t[0]] + Scan(t[1..], owner))[1..] == Scan(t[1..], owner);
      }
    }
  }

  /** Every entry of an owner's scan is filed under that owner. */
  lemma ScanOwned<V>(t: Table<V>, owner: string, i: nat)
    requires i < |Scan(t, owner)|
    ensures Scan(t, owner)[i].key.owner == owner
  {
    ScanMember(t, owner, Scan(t, owner)[i]);
  }

  /** The records of a table, in key order. */
  function Values<V>(t: Table<V>): (r: seq<V>)
    ensures |r| == |t|
    ensures forall i :: 0 <= i < |t| ==> r[i] == t[i].value
  {
    if t == [] then [] else [t[0].value] + Values(t[1..])
  }

  /** The keys of a table, in order. */
  function KeysOf<V>(t: Table<V>): (r: seq<Key>)
    ensures |r| == |t|
    ensures forall i :: 0 <= i < |t| ==> r[i] == t[i].key
  {
    if t == [] then [] else [t[0].key] + KeysOf(t[1..])
  }

  /**
   * The records of an owner's scan whose own owner field names that owner:
   * the listing loop of every "ReadXListByOwner" operation, with its
   * defensive re-check of the owner field.
   */
  function Listing<V>(s: Table<V>, owner: string, ownerOf: V -> string): (r: seq<V>)
    ensures |r| <= |s|
  {
    if s == [] then []
    else (if ownerOf(s[0].value) == owner then [s[0].value] else []) + Listing(s[1..], owner, ownerOf)
  }

  /** Every listed record names the owner and is a record of the scan. */
  lemma {:induction false} ListingMember<V>(s: Table<V>, owner: string, ownerOf: V -> string, v: V)
    ensures v in Listing(s, owner, ownerOf) ==> ownerOf(v) == owner && v in Values(s)
  {
    if s != [] {
      ListingMember(s[1..], owner, ownerOf, v);
      assert Values(s) == [s[0].value] + Values(s[1..]);
    }
  }

  lemma {:induction false} ListingAppend<V>(a: Table<V>, b: Table<V>, owner: string, ownerOf: V -> string)
    ensures Listing(a + b, owner, ownerOf) == Listing(a, owner, ownerOf) + Listing(b, owner, ownerOf)
  {
    if a != [] {
      assert (a + b)[0] == a[0] && (a + b)[1..] == a[1..] + b;
      ListingAppend(a[1..], b, owner, ownerOf);
    } else {
      assert a + b == b;
    }
  }

  /** When every record names the owner, the defensive re-check removes nothing. */
  lemma {:induction false} ListingAllOwned<V>(s: Table<V>, owner: string, ownerOf: V -> string)
    requires forall e :: e in s ==> ownerOf(e.value) == owner
    ensures Listing(s, owner, ownerOf) == Values(s)
  {
    if s != [] {
      assert s[0] in s;
      ListingAllOwned(s[1..], owner, ownerOf);
    }
  }

  lemma {:induction false} ValuesAppend<V>(a: Table<V>, b: Table<V>)
    ensures Values(a + b) == Values(a) + Values(b)
  {
    if a != [] {
      assert (a + b)[1..] == a[1..] + b;
      ValuesAppend(a[1..], b);
    } else {
      assert a + b == b;
    }
  }

  // ---------------------------------------------------------------------
  // Key order is kept by every primitive

  lemma {:induction false} PutSorted<V>(t: Table<V>, k: Key, v: V)
    requires Sorted(t)
    ensures Sorted(Put(t, k, v))
  {
    if t == [] || t[0].key == k {
    } else if KeyLess(k, t[0].key) {
      var r := Put(t, k, v);
      forall i, j | 0 <= i < j < |r|
        ensures KeyLess(r[i].key, r[j].key)
      {
        if i == 0 && j > 1 {
          KeyLessTransitive(k, t[0].key, t[j - 1].key);
        }
      }
    } else {
      KeyLessTotal(k, t[0].key);
      PutSorted(t[1..], k, v);
      var rest := Put(t[1..], k, v);
      forall j | 0 <= j < |rest|
        ensures KeyLess(t[0].key, rest[j].key)
      {
        PutMember(t[1..], k, v, rest[j]);
        if rest[j] != Entry(k, v) {
          var i :| 0 <= i < |t[1..]| && t[1..][i] == rest[j];
          assert t[i + 1] == rest[j];
        }
      }
    }
  }

  lemma {:induction false} RemoveSorted<V>(t: Table<V>, k: Key)
    requires Sorted(t)
    ensures Sorted(Remove(t, k))
  {
    if t != [] {
      RemoveSorted(t[1..], k);
      var rest := Remove(t[1..], k);
      forall j | 0 <= j < |rest|
        ensures KeyLess(t[0].key, rest[j].key)
      {
        RemoveMember(t[1..], k, rest[j]);
        var i :| 0 <= i < |t[1..]| && t[1..][i] == rest[j];
        assert t[i + 1] == rest[j];
      }
    }
  }

  lemma {:induction false} RemoveAllSorted<V>(t: Table<V>, ks: seq<Key>)
    requires Sorted(t)
    ensures Sorted(RemoveAll(t, ks))
    decreases |ks|
  {
    if ks != [] {
      RemoveSorted(t, ks[0]);
      RemoveAllSorted(Remove(t, ks[0]), ks[1..]);
    }
  }

  lemma {:induction false} ScanSorted<V>(t: Table<V>, owner: string)
    requires Sorted(t)
    ensures Sorted(Scan(t, owner))
  {
    if t != [] {
      ScanSorted(t[1..], owner);
      var rest := Scan(t[1..], owner);
      forall j | 0 <= j < |rest|
        ensures KeyLess(t[0].key, rest[j].key)
      {
        ScanMember(t[1..], owner, rest[j]);
        var i :| 0 <= i < |t[1..]| && t[1..][i] == rest[j];
        assert t[i + 1] == rest[j];
      }
    }
  }

  // ---------------------------------------------------------------------
  // How the owner scan sees the primitives

  /** Storing under one owner's key inserts into that owner's scan, in order, and no other. */
  lemma {:induction false} ScanPut<V>(t: Table<V>, k: Key, v: V, owner: string)
    requires Sorted(t)
    ensures Scan(Put(t, k, v), owner) == if k.owner == owner then Put(Scan(t, owner), k, v) else Scan(t, owner)
  {
    if t == [] {
    } else if t[0].key == k {
      assert (([Entry(k, v)] + t[1..]))[1..] == t[1..];
    } else if KeyLess(k, t[0].key) {
      assert ([Entry(k, v)] + t)[1..] == t;
      var s := Scan(t, owner);
      if k.owner == owner && s != [] {
        ScanMember(t, owner, s[0]);
        var i :| 0 <= i < |t| && t[i] == s[0];
        if i > 0 {
          KeyLessTransitive(k, t[0].key, t[i].key);
        }
        KeyLessIrreflexive(k);
      }
    } else {
      assert ([t[0]] + Put(t[1..], k, v))[1..] == Put(t[1..], k, v);
      ScanPut(t[1..], k, v, owner);
    }
  }

  /** Deleting a key deletes it from the scan of its owner, and changes no other scan. */
  lemma {:induction false} ScanRemove<V>(t: Table<V>, k: Key, owner: string)
    ensures Scan(Remove(t, k), owner) == Remove(Scan(t, owner), k)
  {
    if t != [] {
      assert ([t[0]] + Remove(t[1..], k))[1..] == Remove(t[1..], k);
      assert ([t[0]] + Scan(t[1..], owner))[1..] == Scan(t[1..], owner);
      ScanRemove(t[1..], k, owner);
    }
  }

  /** Deleting a key that is not stored changes nothing. */
  lemma {:induction false} RemoveAbsent<V>(t: Table<V>, k: Key)
    requires Lookup(t, k).None?
    ensures Remove(t, k) == t
  {
    LookupNone(t, k);
    if t != [] {
      LookupNone(t[1..], k);
      RemoveAbsent(t[1..], k);
    }
  }

  /** In a table with unique keys, deleting the first entry's key drops exactly that entry. */
  lemma RemoveFirst<V>(s: Table<V>)
    requires UniqueKeys(s) && s != []
    ensures Remove(s, s[0].key) == s[1..]
  {
    assert Lookup(s[1..], s[0].key).None? by {
      var ks := KeysOf(s[1..]);
      forall i | 0 <= i < |ks|
        ensures ks[i] != s[0].key
      {
        assert ks[i] == s[i + 1].key;
      }
      LookupNone(s[1..], s[0].key);
    }
    RemoveAbsent(s[1..], s[0].key);
  }

  /**
   * Deleting, one by one, the keys of the first n entries of an owner's
   * scan leaves exactly the rest of that scan, and every other owner's
   * scan as it was.
   */
  lemma {:induction false} ScanRemovePrefix<V>(t: Table<V>, owner: string, n: nat)
    requires Sorted(t) && n <= |Scan(t, owner)|
    ensures Scan(RemoveAll(t, KeysOf(Scan(t, owner)[..n])), owner) == Scan(t, owner)[n..]
    ensures forall o :: o != owner ==> Scan(RemoveAll(t, KeysOf(Scan(t, owner)[..n])), o) == Scan(t, o)
    decreases n
  {
    var s := Scan(t, owner);
    var ks := KeysOf(s[..n]);
    if n > 0 {
      ScanSorted(t, owner);
      SortedUnique(s);
      var t' := Remove(t, s[0].key);
      ScanRemove(t, s[0].key, owner);
      RemoveFirst(s);
      assert Scan(t', owner) == s[1..];
      RemoveSorted(t, s[0].key);
      ScanRemovePrefix(t', owner, n - 1);
      assert s[1..][..n - 1] == s[..n][1..];
      assert ks[1..] == KeysOf(s[1..][..n - 1]);
      forall o | o != owner
        ensures Scan(RemoveAll(t, ks), o) == Scan(t, o)
      {
        ScanRemove(t, s[0].key, o);
        assert Lookup(Scan(t, o), s[0].key).None? by {
          ScanOwned(t, owner, 0);
          var ks' := KeysOf(Scan(t, o));
          forall i | 0 <= i < |ks'|
            ensures ks'[i] != s[0].key
          {
            ScanOwned(t, o, i);
          }
          LookupNone(Scan(t, o), s[0].key);
        }
        RemoveAbsent(Scan(t, o), s[0].key);
      }
    }
  }

  /**
   * The iterator loop of every "ReadXListByOwner" operation: walk the
   * owner's range scan in key order and keep each record whose own owner
   * field names the owner.
   */
  method ListByOwner<V>(t: Table<V>, owner: string, ownerOf: V -> string) returns (list: seq<V>)
    ensures list == Listing(Scan(t, owner), owner, ownerOf)
    ensures forall i :: 0 <= i < |list| ==> ownerOf(list[i]) == owner
  {
    var results := Scan(t, owner);
    list := [];
    var i := 0;
    while i < |results|
      invariant 0 <= i <= |results|
      invariant list == Listing(results[..i], owner, ownerOf)
    {
      var record := results[i].value;
      if ownerOf(record) == owner {
        list := list + [record];
      }
      ListingAppend(results[..i], [results[i]], owner, ownerOf);
      assert results[..i + 1] == results[..i] + [results[i]];
      i := i + 1;
    }
    assert results[..|results|] == results;
    forall i | 0 <= i < |list|
      ensures ownerOf(list[i]) == owner
    {
      ListingMember(results, owner, ownerOf, list[i]);
    }
  }
}
