/** The connection table: 256 locked maps, a client in the one its descriptor selects. */
module SocketTable {
  import opened Wire
  import opened Wrappers
  import opened SocketKey

  const SOCKET_CHANNEL_NUM: nat := 256

  /** CSocketInfoManager::__Hash, for the non-negative descriptors accept returns. */
  function Hash(k: Key): (h: nat)
    requires k.socket >= 0
    ensures h < SOCKET_CHANNEL_NUM
  {
    k.socket % SOCKET_CHANNEL_NUM
  }

  // ---- Shards as values ------------------------------------------------------------------------

  type Shards<T> = seq<map<Key, T>>

  /** Each shard holds only clients that hash to it. */
  ghost predicate Placed<T>(shards: Shards<T>) {
    && |shards| == SOCKET_CHANNEL_NUM
    && forall i, k | 0 <= i < |shards| && k in shards[i] :: k.socket >= 0 && Hash(k) == i
  }

  function Merge<T>(shards: Shards<T>): map<Key, T> {
    if shards == [] then map[] else Merge(shards[..|shards| - 1]) + shards[|shards| - 1]
  }

  lemma {:induction false} MergeKeys<T>(shards: Shards<T>, k: Key)
    ensures k in Merge(shards) <==> exists i | 0 <= i < |shards| :: k in shards[i]
  {
    if shards != [] {
      MergeKeys(shards[..|shards| - 1], k);
    }
  }

  lemma {:induction false} MergeValue<T>(shards: Shards<T>, k: Key, i: nat)
    requires i < |shards| && k in shards[i]
    requires forall j | 0 <= j < |shards| && j != i :: k !in shards[j]
    ensures k in Merge(shards) && Merge(shards)[k] == shards[i][k]
  {
    var n := |shards| - 1;
    if i == n {
      MergeKeys(shards[..n], k);
    } else {
      MergeValue(shards[..n], k, i);
    }
  }

  /** Looking a client up in its own shard is looking it up in the whole. */
  lemma LookupIsMerge<T>(shards: Shards<T>, k: Key)
    requires Placed(shards) && k.socket >= 0
    ensures k in Merge(shards) <==> k in shards[Hash(k)]
    ensures k in Merge(shards) ==> Merge(shards)[k] == shards[Hash(k)][k]
  {
    MergeKeys(shards, k);
    if k in shards[Hash(k)] {
      MergeValue(shards, k, Hash(k));
    }
  }

  lemma OnlyPlacedKeys<T>(shards: Shards<T>, k: Key)
    requires Placed(shards) && k in Merge(shards)
    ensures k.socket >= 0
  {
    MergeKeys(shards, k);
  }

  /** Changing one shard at one client changes the whole at that client. */
  lemma UpdateIsMerge<T>(before: Shards<T>, after: Shards<T>, k: Key, whole: map<Key, T>)
    requires Placed(before) && Placed(after) && k.socket >= 0
    requires forall k' | k' != k && k'.socket >= 0 ::
      (k' in after[Hash(k')] <==> k' in before[Hash(k')]) && (k' in after[Hash(k')] ==> after[Hash(k')][k'] == before[Hash(k')][k'])
    requires k in whole <==> k in after[Hash(k)]
    requires k in whole ==> whole[k] == after[Hash(k)][k]
    requires whole - {k} == Merge(before) - {k}
    ensures Merge(after) == whole
  {
    forall k' ensures k' in Merge(after) <==> k' in whole
              ensures k' in Merge(after) ==> Merge(after)[k'] == whole[k']
    {
      if k'.socket >= 0 {
        LookupIsMerge(before, k');
        LookupIsMerge(after, k');
        if k' != k {
          assert k' in whole <==> k' in whole - {k};
          assert k' in Merge(before) <==> k' in Merge(before) - {k};
          assert k' in whole ==> whole[k'] == (whole - {k})[k'] == (Merge(before) - {k})[k'];
        }
      } else {
        if k' in Merge(after) {
          OnlyPlacedKeys(after, k');
        }
        if k' in whole {
          assert k' in whole - {k};
          OnlyPlacedKeys(before, k');
        }
      }
    }
  }

  // ---- The table as objects --------------------------------------------------------------------

  class SocketInfoChannel<T> {
    var connections: map<Key, T>

    constructor ()
      ensures connections == map[]
    {
      connections := map[];
    }

    method Add(k: Key, c: T)
      modifies this
      ensures connections == old(connections)[k := c]
    {
      connections := connections[k := c];
    }

    method Get(k: Key) returns (r: Option<T>)
      ensures r == if k in connections then Some(connections[k]) else None
    {
      r := if k in connections then Some(connections[k]) else None;
    }

    method Remove(k: Key)
      modifies this
      ensures connections == old(connections) - {k}
    {
      connections := connections - {k};
    }
  }

  class SocketInfoManager<T> {
    const channels: seq<SocketInfoChannel<T>>

    constructor ()
      ensures Valid() && View() == map[]
      ensures forall c | c in channels :: fresh(c)
    {
      var cs: seq<SocketInfoChannel<T>> := [];
      while |cs| < SOCKET_CHANNEL_NUM
        invariant |cs| <= SOCKET_CHANNEL_NUM
        invariant forall i | 0 <= i < |cs| :: fresh(cs[i]) && cs[i].connections == map[]
        invariant forall i, j | 0 <= i < j < |cs| :: cs[i] != cs[j]
      {
        var c := new SocketInfoChannel();
        cs := cs + [c];
      }
      channels := cs;
      new;
      EmptyMerge(Contents());
    }

    ghost function Contents(): Shards<T>
      reads channels
    {
      seq(|channels|, i requires 0 <= i < |channels| reads channels => channels[i].connections)
    }

    ghost predicate Valid()
      reads channels
    {
      && Placed(Contents())
      && forall i, j | 0 <= i < j < |channels| :: channels[i] != channels[j]
    }

    /** The table as a single map. */
    ghost function View(): map<Key, T>
      reads channels
    {
      Merge(Contents())
    }

    /** A client is only ever in the channel that its descriptor modulo 256 selects. */
    lemma InOwnChannel(k: Key, i: nat)
      requires Valid() && i < |channels| && k in channels[i].connections
      ensures |channels| == 256 && k.socket >= 0 && k.socket % 256 == i
    {
      assert k in Contents()[i];
    }

    method Add(k: Key, c: T)
      requires Valid() && k.socket >= 0
      modifies channels
      ensures Valid() && View() == old(View())[k := c]
      ensures |channels| == 256
      ensures channels[k.socket % 256].connections == old(channels[k.socket % 256].connections)[k := c]
      ensures forall i | 0 <= i < 256 && i != k.socket % 256 :: channels[i].connections == old(channels[i].connections)
    {
      ghost var before := Contents();
      channels[Hash(k)].Add(k, c);
      assert Contents() == before[Hash(k) := before[Hash(k)][k := c]];
      UpdateIsMerge(before, Contents(), k, Merge(before)[k := c]);
    }

    method Get(k: Key) returns (r: Option<T>)
      requires Valid() && k.socket >= 0
      ensures r == if k in View() then Some(View()[k]) else None
      ensures |channels| == 256
      ensures var own := channels[k.socket % 256].connections; r == if k in own then Some(own[k]) else None
    {
      r := channels[Hash(k)].Get(k);
      LookupIsMerge(Contents(), k);
    }

    method Remove(k: Key)
      requires Valid() && k.socket >= 0
      modifies channels
      ensures Valid() && View() == old(View()) - {k}
      ensures |channels| == 256
      ensures channels[k.socket % 256].connections == old(channels[k.socket % 256].connections) - {k}
      ensures forall i | 0 <= i < 256 && i != k.socket % 256 :: channels[i].connections == old(channels[i].connections)
    {
      ghost var before := Contents();
      channels[Hash(k)].Remove(k);
      assert Contents() == before[Hash(k) := before[Hash(k)] - {k}];
      UpdateIsMerge(before, Contents(), k, Merge(before) - {k});
    }
  }

  lemma {:induction false} EmptyMerge<T>(shards: Shards<T>)
    requires forall i | 0 <= i < |shards| :: shards[i] == map[]
    ensures Merge(shards) == map[]
  {
    if shards != [] {
      EmptyMerge(shards[..|shards| - 1]);
    }
  }
}
