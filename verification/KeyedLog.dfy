/** Logs of (client, bytes) entries and their projections to one client. */
module KeyedLog {
  import opened Wire
  import opened SocketKey

  type Entry = (Key, bytes)

  /** The entries of client k, in log order. */
  function Of(log: seq<Entry>, k: Key): seq<bytes> {
    if log == [] then [] else (if log[0].0 == k then [log[0].1] else []) + Of(log[1..], k)
  }

  /** The bytes of client k's entries, concatenated. */
  function Payloads(log: seq<Entry>, k: Key): bytes {
    Flatten(Of(log, k))
  }

  function Tag(k: Key, parts: seq<bytes>): (log: seq<Entry>)
    ensures |log| == |parts|
  {
    if parts == [] then [] else [(k, parts[0])] + Tag(k, parts[1..])
  }

  lemma {:induction false} OfAppend(a: seq<Entry>, b: seq<Entry>, k: Key)
    ensures Of(a + b, k) == Of(a, k) + Of(b, k)
  {
    if a == [] {
      assert a + b == b;
    } else {
      OfAppend(a[1..], b, k);
      assert (a + b)[1..] == a[1..] + b && (a + b)[0] == a[0];
      SumOfThree(if a[0].0 == k then [a[0].1] else [], Of(a[1..], k), Of(b, k));
    }
  }

  lemma PayloadsAppend(a: seq<Entry>, b: seq<Entry>, k: Key)
    ensures Payloads(a + b, k) == Payloads(a, k) + Payloads(b, k)
  {
    OfAppend(a, b, k);
    FlattenAppend(Of(a, k), Of(b, k));
  }

  lemma PayloadsSingle(e: Entry, k: Key)
    ensures Payloads([e], k) == if e.0 == k then e.1 else []
  {
    assert [e][1..] == [];
    if e.0 == k {
      assert Of([e], k) == [e.1];
      assert Flatten([e.1]) == e.1;
    }
  }

  lemma {:induction false} OfTag(k: Key, parts: seq<bytes>, k': Key)
    ensures Of(Tag(k, parts), k') == if k == k' then parts else []
  {
    if parts != [] {
      OfTag(k, parts[1..], k');
    }
  }

  lemma {:induction false} TagMore(k: Key, parts: seq<bytes>, part: bytes)
    ensures Tag(k, parts + [part]) == Tag(k, parts) + [(k, part)]
  {
    if parts == [] {
      assert parts + [part] == [part] && [part][1..] == [];
    } else {
      TagMore(k, parts[1..], part);
      assert (parts + [part])[1..] == parts[1..] + [part];
    }
  }

  lemma OfPrefix(a: seq<Entry>, b: seq<Entry>, k: Key)
    requires a <= b
    ensures Of(a, k) <= Of(b, k)
  {
    assert b == a + b[|a|..];
    OfAppend(a, b[|a|..], k);
  }

  lemma {:induction false} OfCount(log: seq<Entry>, k: Key, x: bytes)
    ensures multiset(Of(log, k))[x] == multiset(log)[(k, x)]
  {
    if log != [] {
      OfCount(log[1..], k, x);
      assert log == [log[0]] + log[1..];
    }
  }

  /** The order of a log does not matter to how often a client's entries occur in it. */
  lemma OfSubset(a: seq<Entry>, b: seq<Entry>, k: Key)
    requires multiset(a) <= multiset(b)
    ensures multiset(Of(a, k)) <= multiset(Of(b, k))
  {
    forall x: bytes ensures multiset(Of(a, k))[x] <= multiset(Of(b, k))[x] {
      OfCount(a, k, x);
      OfCount(b, k, x);
    }
  }

  lemma SubsetLength<T>(a: seq<T>, b: seq<T>)
    requires multiset(a) <= multiset(b)
    ensures |a| <= |b|
  {
    assert multiset(b) == multiset(a) + (multiset(b) - multiset(a));
    assert |multiset(a)| == |a| && |multiset(b)| == |b|;
  }

  lemma SubsetMember<T>(a: seq<T>, b: seq<T>, i: nat) returns (j: nat)
    requires multiset(a) <= multiset(b) && i < |a|
    ensures j < |b| && b[j] == a[i]
  {
    assert a[i] in multiset(a);
    assert a[i] in multiset(b);
    j :| 0 <= j < |b| && b[j] == a[i];
  }

  lemma PrefixSubset<T>(a: seq<T>, b: seq<T>)
    requires a <= b
    ensures multiset(a) <= multiset(b)
  {
    assert b == a + b[|a|..];
  }
}
