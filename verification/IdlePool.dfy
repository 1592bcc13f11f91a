/** The pool of idle connections of transport/transport.go. */
module IdlePool {
  import opened Basics

  // ----- one bucket, as a sequence with the most recently put connection last -----

  /** `getIdleConn` on a bucket: pop from the end until a connection is not broken. */
  function Pop<C(==)>(bucket: seq<C>, broken: set<C>): (Option<C>, seq<C>) {
    if bucket == [] then (None, [])
    else
      var last, rest := bucket[|bucket| - 1], bucket[..|bucket| - 1];
      if last in broken then Pop(rest, broken) else (Some(last), rest)
  }

  /** The connection popped is the last one that is not broken; exactly the broken ones above it are dropped. */
  lemma {:induction false} PopTakesLastLive<C>(bucket: seq<C>, broken: set<C>)
    ensures var (got, rest) := Pop(bucket, broken);
            match got
            case None => rest == [] && forall c :: c in bucket ==> c in broken
            case Some(c) =>
              && |rest| < |bucket| && rest == bucket[..|rest|] && bucket[|rest|] == c && c !in broken
              && forall i :: |rest| < i < |bucket| ==> bucket[i] in broken
    decreases |bucket|
  {
    if bucket != [] && bucket[|bucket| - 1] in broken {
      PopTakesLastLive(bucket[..|bucket| - 1], broken);
    }
  }

  function Live<C(==)>(bucket: seq<C>, broken: set<C>): seq<C> {
    if bucket == [] then []
    else Live(bucket[..|bucket| - 1], broken) + (if bucket[|bucket| - 1] in broken then [] else [bucket[|bucket| - 1]])
  }

  function Reverse<C>(s: seq<C>): seq<C> {
    if s == [] then [] else [s[|s| - 1]] + Reverse(s[..|s| - 1])
  }

  /** What repeated calls of getIdleConn return before they return nil. */
  function Drain<C(==)>(bucket: seq<C>, broken: set<C>): seq<C>
    decreases |bucket|
  {
    PopTakesLastLive(bucket, broken);
    var (got, rest) := Pop(bucket, broken);
    if got.None? then [] else [got.value] + Drain(rest, broken)
  }

  /** Last in, first out: the connections that are not broken come back in the reverse order of their puts. */
  lemma {:induction false} PoolIsLifo<C>(bucket: seq<C>, broken: set<C>)
    ensures Drain(bucket, broken) == Reverse(Live(bucket, broken))
    decreases |bucket|
  {
    if bucket != [] {
      var rest := bucket[..|bucket| - 1];
      PoolIsLifo(rest, broken);
      if bucket[|bucket| - 1] in broken {
        assert Live(bucket, broken) == Live(rest, broken);
        assert Drain(bucket, broken) == Drain(rest, broken);
      } else {
        assert Live(bucket, broken)[..|Live(rest, broken)|] == Live(rest, broken);
      }
    }
  }

  // ----- the objects -----

  class PersistConn {
    const cacheKey: string
    var broken: bool

    constructor (cacheKey: string)
      ensures this.cacheKey == cacheKey && !broken
    {
      this.cacheKey := cacheKey;
      broken := false;
    }

    method Close()
      modifies this
      ensures broken
    {
      broken := true;
    }
  }

  type Pool = map<string, seq<PersistConn>>

  const DEFAULT_MAX_IDLE_CONNS_PER_HOST := 2

  function Bucket(pool: Option<Pool>, key: string): seq<PersistConn> {
    if pool.Some? && key in pool.value then pool.value[key] else []
  }

  /** The pool with another bucket for key; an empty one is not kept. */
  function WithBucket(pool: Pool, key: string, bucket: seq<PersistConn>): Pool {
    if bucket == [] then pool - {key} else pool[key := bucket]
  }

  ghost predicate Sound(pool: Pool, max: int) {
    forall k :: k in pool ==> 1 <= |pool[k]| <= max && forall c :: c in pool[k] ==> c.cacheKey == k
  }

  lemma OtherBucket(pool: Pool, key: string, bucket: seq<PersistConn>, max: int)
    requires Sound(pool, max) && bucket <= Bucket(Some(pool), key)
    ensures var other := WithBucket(pool, key, bucket); Sound(other, max) && Bucket(Some(other), key) == bucket
  {
    assert forall c :: c in bucket ==> c in Bucket(Some(pool), key);
  }

  /** Taking the last connection out of a pool that has lost some of a bucket is losing one more. */
  lemma PopOne(pool: Pool, key: string, bucket: seq<PersistConn>, max: int)
    requires Sound(pool, max) && bucket != [] && bucket <= Bucket(Some(pool), key)
    ensures var rest := bucket[..|bucket| - 1];
            WithBucket(WithBucket(pool, key, bucket), key, rest) == WithBucket(pool, key, rest)
  {
  }

  ghost function Broken(bucket: seq<PersistConn>): set<PersistConn>
    reads bucket
  {
    set c | c in bucket && c.broken
  }

  class Transport {
    const disableKeepAlives: bool
    const maxIdleConnsPerHost: int
    /** None is Go's nil map. */
    var idleConn: Option<Pool>

    function Max(): int {
      if maxIdleConnsPerHost == 0 then DEFAULT_MAX_IDLE_CONNS_PER_HOST else maxIdleConnsPerHost
    }

    /** Every key that is present has between 1 and Max connections, all of them for that key. */
    ghost predicate Valid()
      reads this
    {
      idleConn.Some? ==> Sound(idleConn.value, Max())
    }

    ghost function Idle(): set<PersistConn>
      reads this
    {
      if idleConn.None? then {}
      else set k, i | k in idleConn.value && 0 <= i < |idleConn.value[k]| :: idleConn.value[k][i]
    }

    constructor (disableKeepAlives: bool, maxIdleConnsPerHost: int)
      ensures Valid() && idleConn == None
      ensures this.disableKeepAlives == disableKeepAlives && this.maxIdleConnsPerHost == maxIdleConnsPerHost
    {
      this.disableKeepAlives, this.maxIdleConnsPerHost := disableKeepAlives, maxIdleConnsPerHost;
      idleConn := None;
    }

    /** Storing into the nil map, which the first getIdleConn replaces, would panic. */
    method PutIdleConn(pc: PersistConn) returns (ok: bool)
      requires Valid()
      requires idleConn.None? ==> disableKeepAlives || maxIdleConnsPerHost < 0 || pc.broken
      modifies this, pc
      ensures Valid()
      ensures ok <==> !disableKeepAlives && maxIdleConnsPerHost >= 0 && old(!pc.broken)
                      && |Bucket(old(idleConn), pc.cacheKey)| <
                         (if maxIdleConnsPerHost == 0 then 2 else maxIdleConnsPerHost)
      ensures ok ==> !pc.broken && idleConn.Some? && old(idleConn).Some?
                     && idleConn.value == old(idleConn).value[pc.cacheKey := Bucket(old(idleConn), pc.cacheKey) + [pc]]
      ensures !ok ==> pc.broken && idleConn == old(idleConn)
    {
      if disableKeepAlives || maxIdleConnsPerHost < 0 {
        pc.Close();
        return false;
      }
      if pc.broken {
        return false;
      }
      var bucket := Bucket(idleConn, pc.cacheKey);
      if |bucket| >= Max() {
        pc.Close();
        return false;
      }
      idleConn := Some(idleConn.value[pc.cacheKey := bucket + [pc]]);
      return true;
    }

    method GetIdleConn(key: string) returns (pconn: PersistConn?)
      requires Valid()
      modifies this
      ensures Valid() && idleConn.Some?
      ensures var (got, rest) := Pop(Bucket(old(idleConn), key), old(Broken(Bucket(idleConn, key))));
              && (pconn == null <==> got == None) && (pconn != null ==> got == Some(pconn))
              && idleConn.value == WithBucket(if old(idleConn).Some? then old(idleConn).value else map[], key, rest)
    {
      if idleConn.None? {
        idleConn := Some(map[]);
      }
      ghost var start := idleConn.value;
      ghost var all := Bucket(idleConn, key);
      ghost var broken := Broken(all);
      ghost var left := all;
      assert start == WithBucket(start, key, all);
      while true
        invariant left <= all && idleConn == Some(WithBucket(start, key, left))
        invariant Pop(all, broken) == Pop(left, broken)
        decreases |left|
      {
        OtherBucket(start, key, left, Max());
        if key !in idleConn.value {
          return null;
        }
        var pconns := idleConn.value[key];
        var last := pconns[|pconns| - 1];
        assert last in all;
        PopOne(start, key, left, Max());
        left := left[..|left| - 1];
        OtherBucket(start, key, left, Max());
        if |pconns| == 1 {
          idleConn := Some(idleConn.value - {key});
        } else {
          idleConn := Some(idleConn.value[key := pconns[..|pconns| - 1]]);
        }
        if !last.broken {
          return last;
        }
      }
      return null;
    }

    /** Closes every idle connection, in the arbitrary order of Go's map iteration. */
    method CloseIdleConnections()
      requires Valid()
      modifies this, Idle()
      ensures Valid() && (old(idleConn).None? ==> idleConn == None) && (old(idleConn).Some? ==> idleConn == Some(map[]))
      ensures forall c :: c in old(Idle()) ==> c.broken
    {
      if idleConn.None? {
        return;
      }
      var pool := idleConn.value;
      var keys := pool.Keys;
      while keys != {}
        invariant keys <= pool.Keys && idleConn == Some(pool) && Valid()
        invariant forall k, i :: k in pool.Keys - keys && 0 <= i < |pool[k]| ==> pool[k][i].broken
        decreases keys
      {
        var key :| key in keys;
        var i := 0;
        while i < |pool[key]|
          invariant 0 <= i <= |pool[key]| && idleConn == Some(pool) && Valid()
          invariant forall j :: 0 <= j < i ==> pool[key][j].broken
          invariant forall k, j :: k in pool.Keys - keys && 0 <= j < |pool[k]| ==> pool[k][j].broken
        {
          assert pool[key][i] in Idle();
          pool[key][i].Close();
          i := i + 1;
        }
        keys := keys - {key};
      }
      idleConn := Some(map[]);
    }
  }
}
