/** When the collected cache moves can be carried out and taken back (storage.rs). */
module CachePlan {
  import opened Files
  import opened Layout
  import opened SnapshotStep

  /** Moves that are possible one by one: sources at home and distinct, targets free. */
  predicate Ready(f: Tree, caches: seq<CacheMove>) {
    (forall i | 0 <= i < |caches| :: CacheHome(f, caches[i])) &&
    (forall i, j | 0 <= i < j < |caches| :: caches[i].from != caches[j].from)
  }

  predicate DistinctTo(caches: seq<CacheMove>) {
    forall i, j | 0 <= i < j < |caches| :: caches[i].to != caches[j].to
  }

  /** The tree after the first `n` turns of the cache loop of `Storage::activate`. */
  function After(f: Tree, caches: seq<CacheMove>, n: nat): Tree
    requires n <= |caches|
  {
    if n == 0 then f
    else Moved(After(f, caches, n - 1), Cache(caches[n - 1].from), Cache(caches[n - 1].to))
  }

  /** Turn `i` of that loop is accepted. */
  predicate Turns(f: Tree, caches: seq<CacheMove>, i: nat)
    requires i < |caches|
  {
    Movable(After(f, caches, i), Cache(caches[i].from), Cache(caches[i].to), caches[i].id)
  }

  /** The reversed loop of `Storage::restore` goes through from tree `g`. */
  predicate Reverts(g: Tree, caches: seq<CacheMove>)
    decreases |caches|
  {
    caches == [] ||
    var c, rest := caches[|caches| - 1], caches[..|caches| - 1];
    if Cache(c.to) in g then
      Movable(g, Cache(c.to), Cache(c.from), c.id) && Reverts(Moved(g, Cache(c.to), Cache(c.from)), rest)
    else
      Holds(g, Cache(c.from), c.id) && Reverts(g, rest)
  }

  /** Of the first `k` moves, those below `n` have been made. */
  predicate Partly(g: Tree, caches: seq<CacheMove>, n: nat, k: nat)
    requires k <= |caches|
  {
    forall i | 0 <= i < k ::
      if i < n then Cache(caches[i].from) !in g && Holds(g, Cache(caches[i].to), caches[i].id)
      else Holds(g, Cache(caches[i].from), caches[i].id)
  }

  /** While no target has come twice, the moves made are made and the others wait. */
  lemma {:induction false} AfterIsPartly(f: Tree, caches: seq<CacheMove>, n: nat)
    requires Ready(f, caches) && n <= |caches| && DistinctTo(caches[..n])
    ensures Partly(After(f, caches, n), caches, n, |caches|)
    ensures forall k: string | Cache(k) in After(f, caches, n) ::
              Cache(k) in f || exists i | 0 <= i < n :: k == caches[i].to
  {
    if n > 0 {
      assert caches[..n][..n - 1] == caches[..n - 1];
      assert forall i | 0 <= i < n :: caches[..n][i] == caches[i];
      AfterIsPartly(f, caches, n - 1);
      var g, c := After(f, caches, n - 1), caches[n - 1];
      assert forall i | 0 <= i < |caches| :: CacheHome(f, caches[i]);
      assert Holds(g, Cache(c.from), c.id);
    }
  }

  /** A turn is accepted exactly if its target has not come before. */
  lemma TurnsIff(f: Tree, caches: seq<CacheMove>, i: nat)
    requires Ready(f, caches) && i < |caches| && DistinctTo(caches[..i])
    ensures Turns(f, caches, i) <==> forall j | 0 <= j < i :: caches[j].to != caches[i].to
    ensures DistinctTo(caches[..i + 1]) <==> forall j | 0 <= j < i :: caches[j].to != caches[i].to
  {
    AfterIsPartly(f, caches, i);
    var g := After(f, caches, i);
    assert CacheHome(f, caches[i]) && Holds(g, Cache(caches[i].from), caches[i].id);
    assert forall j | 0 <= j < i :: caches[..i][j] == caches[j];
    assert forall j | 0 <= j <= i :: caches[..i + 1][j] == caches[j];
  }

  /** With distinct targets the reversal goes through from wherever the moves stopped. */
  lemma {:induction false} RevertsFrom(g: Tree, caches: seq<CacheMove>, n: nat, k: nat)
    requires n <= k <= |caches| && Partly(g, caches, n, k)
    requires forall i | n <= i < k :: Cache(caches[i].to) !in g
    requires forall i, j | 0 <= i < k && 0 <= j < k :: caches[i].from != caches[j].to
    requires forall i, j | 0 <= i < j < k :: caches[i].from != caches[j].from && caches[i].to != caches[j].to
    ensures Reverts(g, caches[..k])
    decreases k
  {
    if k > 0 {
      var c := caches[k - 1];
      assert caches[..k][..k - 1] == caches[..k - 1] && caches[..k][k - 1] == c;
      if k - 1 < n {
        RevertsFrom(Moved(g, Cache(c.to), Cache(c.from)), caches, k - 1, k - 1);
      } else {
        RevertsFrom(g, caches, n, k - 1);
      }
    }
  }

  /** Where a target is taken by another move, the reversal never gets past it. */
  lemma {:induction false} StuckFrom(g: Tree, caches: seq<CacheMove>, n: nat, k: nat)
    requires n < k <= |caches| && Cache(caches[n].to) in g
    requires forall i | n <= i < k :: Cache(caches[i].from) in g
    ensures !Reverts(g, caches[..k])
    decreases k
  {
    assert caches[..k][..k - 1] == caches[..k - 1] && caches[..k][k - 1] == caches[k - 1];
    if n < k - 1 {
      StuckFrom(g, caches, n, k - 1);
    }
  }

  /** Activation goes through if and only if no two moves share a target. If none do, it can
      be taken back from wherever it stopped; if some do, it stops at the first move whose
      target is taken, and from there it can never be taken back. */
  lemma GoesThroughIff(f: Tree, caches: seq<CacheMove>)
    requires Ready(f, caches)
    ensures (forall i | 0 <= i < |caches| :: Turns(f, caches, i)) <==> DistinctTo(caches)
    ensures DistinctTo(caches) ==> forall n: nat | n <= |caches| :: Reverts(After(f, caches, n), caches)
    ensures !DistinctTo(caches) ==> exists n: nat | n < |caches| :: StopsForGood(f, caches, n)
  {
    assert caches[..|caches|] == caches;
    if DistinctTo(caches) {
      forall i | 0 <= i < |caches|
        ensures Turns(f, caches, i)
      {
        TurnsIff(f, caches, i);
      }
      forall n: nat | n <= |caches|
        ensures Reverts(After(f, caches, n), caches)
      {
        RevertsEverywhere(f, caches, n);
      }
    } else {
      var n := FirstRepeated(caches, |caches|);
      StopsAt(f, caches, n);
    }
  }

  predicate StopsForGood(f: Tree, caches: seq<CacheMove>, n: nat)
    requires n < |caches|
  {
    (forall i | 0 <= i < n :: Turns(f, caches, i)) && !Turns(f, caches, n) && !Reverts(After(f, caches, n), caches)
  }

  lemma RevertsEverywhere(f: Tree, caches: seq<CacheMove>, n: nat)
    requires Ready(f, caches) && DistinctTo(caches) && n <= |caches|
    ensures Reverts(After(f, caches, n), caches)
  {
    AfterIsPartly(f, caches, n);
    assert forall i | 0 <= i < |caches| :: CacheHome(f, caches[i]);
    assert caches[..|caches|] == caches;
    RevertsFrom(After(f, caches, n), caches, n, |caches|);
  }

  lemma {:induction false} FirstRepeated(caches: seq<CacheMove>, k: nat) returns (n: nat)
    requires k <= |caches| && !DistinctTo(caches[..k])
    ensures n < k && DistinctTo(caches[..n]) && exists j | 0 <= j < n :: caches[j].to == caches[n].to
  {
    assert forall i | 0 <= i < k :: caches[..k][i] == caches[i];
    assert forall i | 0 <= i < k - 1 :: caches[..k - 1][i] == caches[i];
    if DistinctTo(caches[..k - 1]) {
      n := k - 1;
    } else {
      n := FirstRepeated(caches, k - 1);
    }
  }

  lemma StopsAt(f: Tree, caches: seq<CacheMove>, n: nat)
    requires Ready(f, caches) && n < |caches| && DistinctTo(caches[..n])
    requires exists j | 0 <= j < n :: caches[j].to == caches[n].to
    ensures StopsForGood(f, caches, n)
  {
    forall i | 0 <= i < n
      ensures Turns(f, caches, i)
    {
      assert forall j | 0 <= j < i :: caches[..i][j] == caches[..n][j];
      assert caches[..n][i] == caches[i];
      TurnsIff(f, caches, i);
    }
    TurnsIff(f, caches, n);
    AfterIsPartly(f, caches, n);
    var j :| 0 <= j < n && caches[j].to == caches[n].to;
    assert caches[..|caches|] == caches;
    StuckFrom(After(f, caches, n), caches, n, |caches|);
  }

  /** Two existing caches planned for one key: the loop that collects them, which refuses only
      a bad move, accepts them, and whatever it hands on stops for good. */
  lemma SharedTargetLocksOutRecovery(a: string, b: string, to: string, f: Tree, caches: seq<CacheMove>)
    requires CacheKey(a) && CacheKey(b) && CacheKey(to) && a != b && a != to && b != to
    requires Cache(a) in f && f[Cache(a)].Directory? && Cache(b) in f && f[Cache(b)].Directory? && Cache(to) !in f
    requires Collection([(a, to), (b, to)], f, caches)
    ensures !BadMove(f, (a, to)) && !BadMove(f, (b, to))
    ensures exists n: nat | n < |caches| :: StopsForGood(f, caches, n)
  {
    var keys := [(a, to), (b, to)];
    assert keys[0] in keys && keys[1] in keys;
    SharedTargetIsCollected(keys, keys[0], keys[1], f, caches);
    CollectionIsReady(keys, f, caches);
    GoesThroughIff(f, caches);
  }

  lemma SharedTargetIsCollected(keys: seq<(string, string)>, x: (string, string), y: (string, string), f: Tree,
                                caches: seq<CacheMove>)
    requires x in keys && y in keys && x.0 != y.0 && Cache(x.0) in f && Cache(y.0) in f
    requires forall k | k in keys :: k.1 == x.1
    requires Collection(keys, f, caches)
    ensures !DistinctTo(caches)
  {
    var c :| c in caches && c.from == x.0;
    var d :| d in caches && d.from == y.0;
    assert Collected(keys, f, c) && Collected(keys, f, d);
    var i :| 0 <= i < |caches| && caches[i] == c;
    var j :| 0 <= j < |caches| && caches[j] == d;
    assert i < j ==> caches[i].to == caches[j].to;
    assert j < i ==> caches[j].to == caches[i].to;
  }

  lemma CollectionIsReady(keys: seq<(string, string)>, f: Tree, caches: seq<CacheMove>)
    requires Collection(keys, f, caches)
    ensures Ready(f, caches)
  {
    forall i | 0 <= i < |caches|
      ensures CacheHome(f, caches[i])
    {
      assert Collected(keys, f, caches[i]);
    }
  }
}
