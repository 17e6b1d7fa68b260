/** The part of Redis the agent uses: documents, sorted sets and plain keys. */
module Redis {
  import opened Prelude
  import opened JobStates

  /** A sorted set: member to score. */
  type Index = map<Id, int>

  /** The sorted-set keys: the pending index, one index per user, one per schedule. */
  datatype ZKey = PendingJobs | UserJobs(uid: string) | ScheduleJobs(schedule: string)

  type Zsets = map<ZKey, Index>

  datatype Store = Store(docs: map<Id, JobState>, zsets: Zsets, keys: set<string>)

  function ZsetIn(zs: Zsets, k: ZKey): Index {
    if k in zs then zs[k] else map[]
  }

  function Zset(s: Store, k: ZKey): Index {
    ZsetIn(s.zsets, k)
  }

  function ZAdd(zs: Zsets, k: ZKey, id: Id, score: int): Zsets {
    zs[k := ZsetIn(zs, k)[id := score]]
  }

  function ZRemove(zs: Zsets, k: ZKey, ids: set<Id>): Zsets {
    zs[k := ZsetIn(zs, k) - ids]
  }

  // ---------- ranking by descending score, then descending member ----------

  predicate Above(z: Index, a: Id, b: Id)
    requires a in z && b in z
  {
    z[a] > z[b] || (z[a] == z[b] && LexLeq(b, a))
  }

  predicate IsTop(z: Index, m: Id) {
    m in z && forall x <- z :: Above(z, m, x)
  }

  lemma TopUnique(z: Index, m: Id, n: Id)
    requires IsTop(z, m) && IsTop(z, n)
    ensures m == n
  {
    LexAntisymmetric(m, n);
  }

  lemma {:induction false} TopExists(z: Index)
    requires z != map[]
    ensures exists m :: IsTop(z, m)
    decreases |z|
  {
    var a :| a in z;
    var rest := z - {a};
    LexTotal(a, a);
    if rest == map[] {
      assert z == map[a := z[a]] by { assert z.Keys == rest.Keys + {a}; }
      assert IsTop(z, a);
    } else {
      TopExists(rest);
      var b :| IsTop(rest, b);
      LexTotal(a, b);
      forall x <- z ensures x == a || x in rest {}
      if Above(z, a, b) {
        forall x <- rest ensures Above(z, a, x) {
          if z[x] == z[a] { LexTransitive(x, b, a); }
        }
        assert IsTop(z, a);
      } else {
        assert IsTop(z, b);
      }
    }
  }

  function Top(z: Index): (m: Id)
    requires z != map[]
    ensures IsTop(z, m)
  {
    TopExists(z);
    assert forall a, b | IsTop(z, a) && IsTop(z, b) :: a == b by {
      forall a, b | IsTop(z, a) && IsTop(z, b) ensures a == b { TopUnique(z, a, b); }
    }
    var m :| m in z && IsTop(z, m);
    m
  }

  /** The whole sorted set, highest rank first. */
  function Ranking(z: Index): seq<Id>
    decreases |z|
  {
    if z == map[] then [] else [Top(z)] + Ranking(z - {Top(z)})
  }

  lemma {:induction false} RankingMembers(z: Index)
    ensures |Ranking(z)| == |z|
    ensures forall id :: id in Ranking(z) <==> id in z
    decreases |z|
  {
    if z != map[] {
      RankingMembers(z - {Top(z)});
    }
  }

  lemma {:induction false} RankingDistinct(z: Index)
    ensures forall i, j | 0 <= i < j < |Ranking(z)| :: Ranking(z)[i] != Ranking(z)[j]
    decreases |z|
  {
    if z != map[] {
      var rest := z - {Top(z)};
      RankingDistinct(rest);
      RankingMembers(rest);
      var r := Ranking(z);
      forall i, j | 0 <= i < j < |r| ensures r[i] != r[j] {
        assert r[j] == Ranking(rest)[j - 1] && r[j] in rest;
      }
    }
  }

  ghost predicate Descending(z: Index, r: seq<Id>) {
    && (forall id <- r :: id in z)
    && (forall i, j | 0 <= i < j < |r| :: Above(z, r[i], r[j]))
  }

  lemma DescendingCons(z: Index, m: Id, tail: seq<Id>)
    requires IsTop(z, m) && Descending(z - {m}, tail)
    ensures Descending(z, [m] + tail)
  {
    var r := [m] + tail;
    assert forall id <- tail :: id in z - {m};
    assert forall id <- r :: id in z;
    forall i, j | 0 <= i < j < |r| ensures Above(z, r[i], r[j]) {
      assert r[j] == tail[j - 1] && r[j] in tail && r[j] in z - {m};
      if i > 0 {
        assert r[i] == tail[i - 1] && r[i] in tail && r[i] in z - {m};
        assert Above(z - {m}, tail[i - 1], tail[j - 1]);
      }
    }
  }

  /** Earlier in the ranking means a higher score, or an equal one and a greater member. */
  lemma {:induction false} RankingDescends(z: Index)
    ensures Descending(z, Ranking(z))
    decreases |z|
  {
    if z != map[] {
      RankingDescends(z - {Top(z)});
      DescendingCons(z, Top(z), Ranking(z - {Top(z)}));
    }
  }

  /** How many ranks `ZREVRANGE key 0 limit-1` covers in a set of n members. A stop below zero
      counts from the end, so a limit of zero covers the whole set. */
  function Span(limit: int, n: nat): (k: nat)
    ensures k <= n
  {
    if limit >= 1 then (if limit <= n then limit else n)
    else if n + limit >= 0 then n + limit else 0
  }

  function RevRange(z: Index, limit: int): seq<Id> {
    RankingMembers(z);
    Ranking(z)[..Span(limit, |z|)]
  }

  /** What `ZREVRANGE key 0 limit-1` returns: that many members, none twice, the highest first, and none
      left out that ranks above one returned. */
  lemma RevRangeIsTheTop(z: Index, limit: int)
    ensures var r := RevRange(z, limit);
      && (limit >= 1 ==> |r| == if limit <= |z| then limit else |z|)
      && (limit < 1 ==> |r| == if |z| + limit >= 0 then |z| + limit else 0)
      && (forall i, j | 0 <= i < j < |r| :: r[i] != r[j])
      && Descending(z, r)
      && (forall x, id | x in r && id in z && id !in r :: Above(z, x, id))
  {
    RankingMembers(z);
    RankingDistinct(z);
    RankingDescends(z);
    var r, all := RevRange(z, limit), Ranking(z);
    assert all == r + all[|r|..];
    forall x, id | x in r && id in z && id !in r ensures Above(z, x, id) {
      assert id in all;
      var i :| 0 <= i < |r| && all[i] == x;
      var j :| 0 <= j < |all| && all[j] == id;
      assert j >= |r|;
    }
  }

  class ClientRedis {
    var docs: map<Id, JobState>
    var zsets: map<ZKey, Index>
    var keys: set<string>

    function View(): Store
      reads this
    {
      Store(docs, zsets, keys)
    }

    constructor ()
      ensures View() == Store(map[], map[], {})
    {
      docs, zsets, keys := map[], map[], {};
    }

    method SetDocument(id: Id, state: JobState)
      modifies this
      ensures View() == old(View()).(docs := old(docs)[id := state])
    {
      docs := docs[id := state];
    }

    method DeleteDocument(id: Id)
      modifies this
      ensures View() == old(View()).(docs := old(docs) - {id})
    {
      docs := docs - {id};
    }

    /** SET NX: false, and no change, when the key is held. */
    method SetIfAbsent(key: string) returns (stored: bool)
      modifies this
      ensures stored == (key !in old(keys))
      ensures View() == old(View()).(keys := old(keys) + {key})
    {
      stored := key !in keys;
      keys := keys + {key};
    }

    method DeleteKey(key: string)
      modifies this
      ensures View() == old(View()).(keys := old(keys) - {key})
    {
      keys := keys - {key};
    }

    method ZsetAdd(k: ZKey, id: Id, score: int)
      modifies this
      ensures View() == old(View()).(zsets := ZAdd(old(zsets), k, id, score))
    {
      var z := if k in zsets then zsets[k] else map[];
      zsets := zsets[k := z[id := score]];
    }

    method ZsetRemove(k: ZKey, ids: set<Id>)
      modifies this
      ensures View() == old(View()).(zsets := ZRemove(old(zsets), k, ids))
    {
      var z := if k in zsets then zsets[k] else map[];
      zsets := zsets[k := z - ids];
    }

    method ZsetRevRange(k: ZKey, limit: int) returns (ids: seq<Id>)
      ensures ids == RevRange(Zset(View(), k), limit)
    {
      ids := RevRange(if k in zsets then zsets[k] else map[], limit);
    }
  }
}
