/** `connLRU` and `removeIdleConnLocked` of nonhttproundtripper.go. */
module ConnLRU {
  import opened Basics

  // ----- the list of connections, newest first, as a history of operations -----

  datatype Op<C> = Add(conn: C) | Remove(conn: C) | RemoveOldest

  function Without<C(==)>(s: seq<C>, c: C): seq<C> {
    if s == [] then [] else if s[0] == c then s[1..] else [s[0]] + Without(s[1..], c)
  }

  /** add panics on a connection that is in the list, removeOldest on an empty list. */
  predicate Legal<C(==)>(s: seq<C>, op: Op<C>) {
    match op
    case Add(c) => c !in s
    case Remove(_) => true
    case RemoveOldest => s != []
  }

  function Step<C(==)>(s: seq<C>, op: Op<C>): seq<C>
    requires Legal(s, op)
  {
    match op
    case Add(c) => [c] + s
    case Remove(c) => Without(s, c)
    case RemoveOldest => s[..|s| - 1]
  }

  predicate Distinct<C(==)>(s: seq<C>) { forall i, j :: 0 <= i < j < |s| ==> s[i] != s[j] }

  lemma {:induction false} WithoutFirst<C>(s: seq<C>, c: C, k: nat)
    requires k < |s| && s[k] == c && c !in s[..k]
    ensures Without(s, c) == s[..k] + s[k + 1..]
    decreases k
  {
    if k > 0 {
      assert s[0] in s[..k];
      assert forall x :: x in s[1..][..k - 1] ==> x in s[..k];
      WithoutFirst(s[1..], c, k - 1);
    }
  }

  /** Removing c leaves what is in front of it and what is behind it, in order, and no other c. */
  lemma WithoutSplits<C>(s: seq<C>, c: C, k: nat)
    requires Distinct(s) && k < |s| && s[k] == c
    ensures Without(s, c) == s[..k] + s[k + 1..] && c !in Without(s, c) && Distinct(Without(s, c))
  {
    WithoutFirst(s, c, k);
    var r := s[..k] + s[k + 1..];
    assert forall i :: 0 <= i < |r| ==> r[i] == s[if i < k then i else i + 1];
  }

  lemma {:induction false} WithoutAbsent<C>(s: seq<C>, c: C)
    requires c !in s
    ensures Without(s, c) == s
  {
    if s != [] {
      WithoutAbsent(s[1..], c);
    }
  }

  /** The last time c was added in a history, counting from 1; 0 for never. */
  function AddedAt<C(==)>(ops: seq<Op<C>>, c: C): nat {
    if ops == [] then 0
    else if ops[|ops| - 1] == Add(c) then |ops|
    else AddedAt(ops[..|ops| - 1], c)
  }

  lemma {:induction false} AddedAtBound<C>(ops: seq<Op<C>>, c: C)
    ensures AddedAt(ops, c) <= |ops|
  {
    if ops != [] {
      AddedAtBound(ops[..|ops| - 1], c);
    }
  }

  predicate LegalHistory<C(==)>(ops: seq<Op<C>>)
    decreases |ops|, 0
  {
    ops == [] || (LegalHistory(ops[..|ops| - 1]) && Legal(After(ops[..|ops| - 1]), ops[|ops| - 1]))
  }

  /** The list after a history that starts from the empty list. */
  function After<C(==)>(ops: seq<Op<C>>): seq<C>
    requires LegalHistory(ops)
    decreases |ops|, 1
  {
    if ops == [] then [] else Step(After(ops[..|ops| - 1]), ops[|ops| - 1])
  }

  /** Strictly falling times of addition: newest first. */
  predicate NewestFirst<C(==)>(ops: seq<Op<C>>, s: seq<C>) {
    && (forall i, j :: 0 <= i < j < |s| ==> AddedAt(ops, s[i]) > AddedAt(ops, s[j]))
    && (forall i :: 0 <= i < |s| ==> AddedAt(ops, s[i]) > 0)
  }

  /** Dropping an element keeps the order of the others. */
  lemma StillNewestFirst<C>(ops: seq<Op<C>>, s: seq<C>, k: nat)
    requires NewestFirst(ops, s) && k < |s|
    ensures NewestFirst(ops, s[..k] + s[k + 1..])
  {
    var r := s[..k] + s[k + 1..];
    assert forall i :: 0 <= i < |r| ==> r[i] == s[if i < k then i else i + 1];
  }

  lemma AfterAdd<C>(ops: seq<Op<C>>, s: seq<C>, c: C)
    requires ops != [] && ops[|ops| - 1] == Op.Add(c) && c !in s && Distinct(s) && NewestFirst(ops[..|ops| - 1], s)
    ensures Distinct([c] + s) && NewestFirst(ops, [c] + s)
  {
    var t := [c] + s;
    forall i | 0 < i < |t| ensures t[i] in s && AddedAt(ops, t[i]) == AddedAt(ops[..|ops| - 1], s[i - 1]) < |ops| {
      AddedAtBound(ops[..|ops| - 1], s[i - 1]);
    }
    assert AddedAt(ops, t[0]) == |ops|;
  }

  lemma AfterRemove<C>(ops: seq<Op<C>>, s: seq<C>, c: C)
    requires Distinct(s) && NewestFirst(ops, s)
    ensures Distinct(Without(s, c)) && NewestFirst(ops, Without(s, c))
  {
    if c in s {
      var k :| 0 <= k < |s| && s[k] == c;
      WithoutSplits(s, c, k);
      StillNewestFirst(ops, s, k);
    } else {
      WithoutAbsent(s, c);
    }
  }

  lemma SameTimes<C>(ops: seq<Op<C>>, s: seq<C>)
    requires ops != [] && !ops[|ops| - 1].Add? && NewestFirst(ops[..|ops| - 1], s)
    ensures NewestFirst(ops, s)
  {
    assert forall c :: AddedAt(ops, c) == AddedAt(ops[..|ops| - 1], c);
  }

  lemma HistoryStep<C>(ops: seq<Op<C>>, s: seq<C>)
    requires ops != [] && Distinct(s) && NewestFirst(ops[..|ops| - 1], s) && Legal(s, ops[|ops| - 1])
    ensures var t := Step(s, ops[|ops| - 1]); Distinct(t) && NewestFirst(ops, t)
  {
    match ops[|ops| - 1]
    case Add(c) => AfterAdd(ops, s, c);
    case Remove(c) =>
      SameTimes(ops, s);
      AfterRemove(ops, s, c);
    case RemoveOldest => SameTimes(ops, s);
  }

  /** After every legal history the list has no duplicates and its end is the earliest-added survivor. */
  lemma {:induction false} OldestIsLast<C>(ops: seq<Op<C>>)
    requires LegalHistory(ops)
    ensures Distinct(After(ops)) && NewestFirst(ops, After(ops))
    ensures var s := After(ops);
            s != [] ==> forall c :: c in s && c != s[|s| - 1] ==> AddedAt(ops, s[|s| - 1]) < AddedAt(ops, c)
    decreases |ops|
  {
    if ops != [] {
      OldestIsLast(ops[..|ops| - 1]);
      HistoryStep(ops, After(ops[..|ops| - 1]));
    }
  }

  // ----- the objects -----

  class PersistConn {
    const cacheKey: string
    constructor (cacheKey: string)
      ensures this.cacheKey == cacheKey
    {
      this.cacheKey := cacheKey;
    }
  }

  /** An element of container/list. */
  class Element {
    const value: PersistConn
    constructor (value: PersistConn)
      ensures this.value == value
    {
      this.value := value;
    }
  }

  function Values(ll: seq<Element>): seq<PersistConn> {
    seq(|ll|, i requires 0 <= i < |ll| => ll[i].value)
  }

  lemma {:induction false} ValuesWithout(ll: seq<Element>, e: Element)
    requires Distinct(Values(ll))
    requires e in ll
    ensures Values(Without(ll, e)) == Without(Values(ll), e.value)
    decreases |ll|
  {
    if ll[0] == e {
      assert Values(ll)[1..] == Values(ll[1..]);
    } else {
      var k :| 0 <= k < |ll| && ll[k] == e;
      assert Values(ll)[0] != Values(ll)[k];
      assert Values(ll)[1..] == Values(ll[1..]);
      ValuesWithout(ll[1..], e);
    }
  }

  lemma {:induction false} WithoutKeeps<C>(s: seq<C>, c: C, i: nat)
    requires i < |Without(s, c)|
    ensures Without(s, c)[i] in s
  {
    if s[0] != c && i > 0 {
      WithoutKeeps(s[1..], c, i - 1);
    }
  }

  lemma {:induction false} WithoutLoses<C>(s: seq<C>, c: C, d: C)
    requires d in s && d != c
    ensures d in Without(s, c)
  {
    if s[0] != c && s[0] != d {
      WithoutLoses(s[1..], c, d);
    }
  }

  class LRU {
    /** None until the first add. */
    var ll: Option<seq<Element>>
    var m: map<PersistConn, Element>

    /** The connections, newest first. */
    function Order(): seq<PersistConn>
      reads this
    {
      if ll.Some? then Values(ll.value) else []
    }

    /** The map and the list agree: each connection of the list is a key, bound to its element. */
    ghost predicate Valid()
      reads this
    {
      && (ll.None? ==> m == map[])
      && Distinct(Order())
      && (ll.Some? ==>
            && (forall i :: 0 <= i < |ll.value| ==> ll.value[i].value in m && m[ll.value[i].value] == ll.value[i])
            && (forall c :: c in m ==> m[c] in ll.value && m[c].value == c))
    }

    constructor ()
      ensures Valid() && Order() == [] && ll == None
    {
      ll, m := None, map[];
    }

    lemma KeysAreOrder()
      requires Valid()
      ensures forall c :: c in m <==> c in Order()
    {
      if ll.Some? {
        forall c | c in m ensures c in Order() {
          var i :| 0 <= i < |ll.value| && ll.value[i] == m[c];
          assert Order()[i] == c;
        }
        forall c | c in Order() ensures c in m {
          var i :| 0 <= i < |Order()| && Order()[i] == c;
          assert ll.value[i].value in m;
        }
      }
    }

    /** Panics if pc is in the list. */
    method Add(pc: PersistConn)
      requires Valid() && pc !in m
      modifies this
      ensures Valid() && Legal(old(Order()), Op.Add(pc)) && Order() == Step(old(Order()), Op.Add(pc))
      ensures m.Keys == old(m.Keys) + {pc}
    {
      KeysAreOrder();
      if ll.None? {
        ll, m := Some([]), map[];
      }
      var ele := new Element(pc);
      ghost var before := Order();
      ll := Some([ele] + ll.value);
      m := m[pc := ele];
      assert Order() == [pc] + before;
    }

    /** Panics on an empty list. */
    method RemoveOldest() returns (pc: PersistConn)
      requires Valid() && Order() != []
      modifies this
      ensures Valid() && Order() == Step(old(Order()), Op.RemoveOldest) && pc == old(Order())[|old(Order())| - 1]
      ensures m.Keys == old(m.Keys) - {pc}
    {
      ghost var before := Order();
      var n := |ll.value| - 1;
      var ele := ll.value[n];
      pc := ele.value;
      assert pc == before[n];
      forall i | 0 <= i < n ensures ll.value[i].value != pc {
        assert before[i] != before[n];
      }
      ll := Some(ll.value[..n]);
      m := m - {pc};
      assert Order() == before[..n];
    }

    method Remove(pc: PersistConn)
      requires Valid()
      modifies this
      ensures Valid() && Order() == Step(old(Order()), Op.Remove(pc))
      ensures m.Keys == old(m.Keys) - {pc}
    {
      KeysAreOrder();
      if pc in m {
        ghost var before, list := Order(), ll.value;
        var ele := m[pc];
        ghost var k :| 0 <= k < |list| && list[k] == ele;
        assert before[k] == pc;
        ValuesWithout(list, ele);
        WithoutSplits(before, pc, k);
        ll := Some(Without(ll.value, ele));
        m := m - {pc};
        assert Order() == Without(before, pc);
        forall i | 0 <= i < |ll.value| ensures ll.value[i] in list && ll.value[i].value != pc {
          assert Order()[i] != pc;
          WithoutKeeps(list, ele, i);
        }
        forall e | e in list && e != ele ensures e in ll.value {
          WithoutLoses(list, ele, e);
        }
      } else {
        WithoutAbsent(Order(), pc);
      }
    }
  }

  /** A Go slice: the first `len` elements of its array. */
  class Bucket {
    const conns: array<PersistConn>
    var len: nat

    ghost predicate Valid()
      reads this
    {
      len <= conns.Length
    }

    function Contents(): seq<PersistConn>
      reads this, conns
      requires Valid()
    {
      conns[..len]
    }

    constructor (conns: array<PersistConn>)
      ensures this.conns == conns && len == conns.Length
    {
      this.conns, len := conns, conns.Length;
    }
  }

  /** `copy(pconns[i:], pconns[i+1:])` and the reslice behind it. */
  method SlideDown(b: Bucket, i: nat)
    requires b.Valid() && i < b.len
    modifies b, b.conns
    ensures b.Valid() && b.Contents() == old(b.Contents()[..i] + b.Contents()[i + 1..])
  {
    forall k | i <= k < b.len - 1 { b.conns[k] := b.conns[k + 1]; }
    b.len := b.len - 1;
  }

  class IdleConns {
    const lru: LRU
    var idleConn: map<string, Bucket>

    /** Every bucket is a slice of its own array. */
    ghost predicate Valid()
      reads this, lru, idleConn.Values, (set k | k in idleConn :: idleConn[k].conns)
    {
      && lru.Valid()
      && (forall k :: k in idleConn ==> idleConn[k].Valid())
      && (forall j, k :: j in idleConn && k in idleConn && j != k ==>
            idleConn[j] != idleConn[k] && idleConn[j].conns != idleConn[k].conns)
    }

    constructor ()
      ensures Valid() && idleConn == map[] && fresh(lru)
    {
      lru := new LRU();
      idleConn := map[];
    }

    function At(key: string): seq<PersistConn>
      reads this, idleConn.Values, (set k | k in idleConn :: idleConn[k].conns)
      requires key in idleConn ==> idleConn[key].Valid()
    {
      if key in idleConn then idleConn[key].Contents() else []
    }

    /** The timer of the connection is not part of this model. */
    method RemoveIdleConnLocked(pconn: PersistConn)
      requires Valid()
      modifies this, lru
      modifies if pconn.cacheKey in idleConn then {idleConn[pconn.cacheKey]} else {}
      modifies if pconn.cacheKey in idleConn then {idleConn[pconn.cacheKey].conns} else {}
      ensures Valid() && lru.Order() == Step(old(lru.Order()), Op.Remove(pconn))
      ensures At(pconn.cacheKey) == Without(old(At(pconn.cacheKey)), pconn)
      ensures forall k :: k != pconn.cacheKey ==> At(k) == old(At(k))
      ensures idleConn == if old(At(pconn.cacheKey)) == [pconn] then old(idleConn) - {pconn.cacheKey} else old(idleConn)
    {
      lru.Remove(pconn);
      var key := pconn.cacheKey;
      if key !in idleConn {
        return;
      }
      var b := idleConn[key];
      if b.len == 0 {
        return;
      }
      if b.len == 1 {
        if b.conns[0] == pconn {
          idleConn := idleConn - {key};
        }
        return;
      }
      ghost var before := b.Contents();
      var i := 0;
      while i < b.len
        invariant 0 <= i <= b.len == |before| && b.Contents() == before
        invariant pconn !in before[..i]
      {
        if b.conns[i] == pconn {
          SlideDown(b, i);
          WithoutFirst(before, pconn, i);
          return;
        }
        i := i + 1;
      }
      WithoutAbsent(before, pconn);
    }
  }
}
