/** What holds of every run of the upload assembler. */
module ChunkProofs {
  import opened ChunkSpec

  // ---------- sizes ----------

  ghost function Pick(parts: map<nat, Bytes>): (k: nat)
    requires parts != map[]
    ensures k in parts
  {
    var k :| k in parts;
    k
  }

  ghost function Size(parts: map<nat, Bytes>): nat
    decreases |parts|
  {
    if parts == map[] then 0 else |parts[Pick(parts)]| + Size(parts - {Pick(parts)})
  }

  lemma {:induction false} SizeRemove(parts: map<nat, Bytes>, k: nat)
    requires k in parts
    ensures Size(parts) == |parts[k]| + Size(parts - {k})
    decreases |parts|
  {
    var j := Pick(parts);
    if j != k {
      SizeRemove(parts - {j}, k);
      SizeRemove(parts - {k}, j);
      assert parts - {j} - {k} == parts - {k} - {j};
    }
  }

  lemma SizeWrite(parts: map<nat, Bytes>, index: nat, data: Bytes)
    ensures Size(Write(parts, index, data)) == Size(parts) - (if index in parts then |parts[index]| else 0) + |data|
  {
    if index in parts {
      SizeRemove(parts, index);
    } else {
      assert parts - {index} == parts;
    }
    if data != [] {
      SizeRemove(Write(parts, index, data), index);
      assert Write(parts, index, data) - {index} == parts - {index};
    }
  }

  // ---------- the dictionary ----------

  lemma {:induction false} KeepMembers(order: seq<Id>, gone: set<Id>)
    ensures forall x :: x in Keep(order, gone) <==> x in order && x !in gone
  {
    if order != [] {
      KeepMembers(order[1..], gone);
      assert order == [order[0]] + order[1..];
    }
  }

  predicate Distinct(order: seq<Id>) { forall i, j :: 0 <= i < j < |order| ==> order[i] != order[j] }

  lemma {:induction false} KeepDistinct(order: seq<Id>, gone: set<Id>)
    requires Distinct(order)
    ensures Distinct(Keep(order, gone))
  {
    if order != [] {
      assert Distinct(order[1..]);
      KeepDistinct(order[1..], gone);
      KeepMembers(order[1..], gone);
      assert order[0] !in order[1..];
    }
  }

  lemma WithoutOrdered(s: State, gone: set<Id>)
    requires Ordered(s)
    ensures Ordered(Without(s, gone))
  {
    KeepMembers(s.order, gone);
    assert Distinct(s.order);
    KeepDistinct(s.order, gone);
    assert Distinct(Without(s, gone).order);
  }

  lemma {:induction false} OldestIsOldest(s: State, order: seq<Id>)
    requires order != [] && forall x :: x in order ==> x in s.uploads
    ensures forall x :: x in order ==> s.uploads[Oldest(s, order)].createdAt <= s.uploads[x].createdAt
  {
    if |order| > 1 {
      OldestIsOldest(s, order[1..]);
      assert order == [order[0]] + order[1..];
    }
  }

  // ---------- invariants ----------

  ghost predicate UploadInv(u: Upload, maxBytes: int)
  {
    && u.total == Size(u.parts)
    && (u.total <= maxBytes || (u.total == 0 && u.parts == map[]))
    && (forall i :: i in u.parts ==> u.parts[i] != [])
  }

  ghost predicate Inv(s: State, maxBytes: int)
  {
    && Ordered(s)
    && |s.uploads| <= MAX_CHUNK_SESSIONS
    && (forall id :: id in s.uploads ==> UploadInv(s.uploads[id], maxBytes))
  }

  lemma FewerUploads(s: State, gone: set<Id>)
    ensures |Without(s, gone).uploads| <= |s.uploads|
    ensures forall id :: id in gone && id in s.uploads ==> |Without(s, gone).uploads| < |s.uploads|
  {
    assert Without(s, gone).uploads.Keys == s.uploads.Keys - gone;
    CardinalityOfRest(s.uploads.Keys, gone);
  }

  lemma CardinalityOfRest(a: set<Id>, gone: set<Id>)
    ensures |a - gone| <= |a|
    ensures forall x :: x in gone && x in a ==> |a - gone| < |a|
  {
    assert a == (a - gone) + (a * gone);
    assert |a| == |a - gone| + |a * gone|;
    forall x | x in gone && x in a ensures |a * gone| > 0 {
      assert x in a * gone;
    }
  }

  lemma {:induction false} WithoutKeeps(s: State, gone: set<Id>, maxBytes: int)
    requires Inv(s, maxBytes)
    ensures Inv(Without(s, gone), maxBytes)
  {
    WithoutOrdered(s, gone);
    FewerUploads(s, gone);
  }

  lemma EvictedHasRoom(s: State, maxBytes: int)
    requires Inv(s, maxBytes)
    ensures Inv(Evicted(s), maxBytes) && |Evicted(s).uploads| < MAX_CHUNK_SESSIONS
  {
    if |s.uploads| >= MAX_CHUNK_SESSIONS {
      var x :| x in s.uploads;
      assert x in s.order;
      WithoutKeeps(s, {Oldest(s, s.order)}, maxBytes);
      FewerUploads(s, {Oldest(s, s.order)});
    }
  }

  function Put(s: State, id: Id, u: Upload): State
  {
    State(s.uploads[id := u], if id in s.uploads then s.order else s.order + [id])
  }

  lemma PutOrdered(s: State, id: Id, u: Upload)
    requires Ordered(s)
    ensures Ordered(Put(s, id, u))
  {
    assert id !in s.uploads ==> id !in s.order;
  }

  lemma PutCounts(s: State, id: Id, u: Upload)
    ensures |Put(s, id, u).uploads| == |s.uploads| + if id in s.uploads then 0 else 1
  {
    assert Put(s, id, u).uploads.Keys == s.uploads.Keys + {id};
    assert |Put(s, id, u).uploads| == |s.uploads.Keys + {id}|;
    if id in s.uploads {
      assert s.uploads.Keys + {id} == s.uploads.Keys;
    }
  }

  lemma PutKeeps(s: State, id: Id, u: Upload, maxBytes: int)
    requires Inv(s, maxBytes) && UploadInv(u, maxBytes)
    requires |s.uploads| < MAX_CHUNK_SESSIONS || id in s.uploads
    ensures Inv(Put(s, id, u), maxBytes)
  {
    PutOrdered(s, id, u);
    PutCounts(s, id, u);
  }

  lemma {:induction false} CreatedKeeps(s: State, id: Id, now: real, maxBytes: int)
    requires Inv(s, maxBytes)
    ensures Inv(Created(s, id, now), maxBytes)
  {
    EvictedHasRoom(s, maxBytes);
    PutKeeps(Evicted(s), id, Upload(map[], "application/octet-stream", now, 0), maxBytes);
  }

  lemma WrittenKeeps(u: Upload, index: nat, data: Bytes, contentType: string, maxBytes: int)
    requires UploadInv(u, maxBytes)
    ensures var w := Written(u, index, data, contentType);
            && w.total == Size(w.parts) && (forall i :: i in w.parts ==> w.parts[i] != [])
  {
    SizeWrite(u.parts, index, data);
  }

  // The three things a part can do to the sessions.
  lemma AddedShape(s: State, maxBytes: int, id: Id, index: int, data: Bytes, contentType: string, final: bool)
    ensures var t := Added(s, maxBytes, id, index, data, contentType, final).0;
            || t == s
            || t == Without(s, {id})
            || (&& index >= 0 && id in s.uploads && !final
                && t == Put(s, id, Written(s.uploads[id], index, data, contentType))
                && Written(s.uploads[id], index, data, contentType).total <= maxBytes)
  {
  }

  lemma AddedKeeps(s: State, maxBytes: int, id: Id, index: int, data: Bytes, contentType: string, final: bool)
    requires Inv(s, maxBytes)
    ensures Inv(Added(s, maxBytes, id, index, data, contentType, final).0, maxBytes)
  {
    AddedShape(s, maxBytes, id, index, data, contentType, final);
    var t := Added(s, maxBytes, id, index, data, contentType, final).0;
    if t == s {
    } else if t == Without(s, {id}) {
      WithoutKeeps(s, {id}, maxBytes);
    } else {
      var w := Written(s.uploads[id], index, data, contentType);
      WrittenKeeps(s.uploads[id], index, data, contentType, maxBytes);
      PutKeeps(s, id, w, maxBytes);
    }
  }

  lemma {:induction false} StepKeeps(s: State, maxBytes: int, e: Event)
    requires Inv(s, maxBytes)
    ensures Inv(Step(s, maxBytes, e).0, maxBytes)
  {
    match e
    case Purge(now) => WithoutKeeps(s, Stale(s, now), maxBytes);
    case Create(id, now) => CreatedKeeps(s, id, now, maxBytes);
    case Add(id, index, data, contentType, final) => AddedKeeps(s, maxBytes, id, index, data, contentType, final);
  }

  /** Over every run the counters are exact and bounded: an upload's counter is the sum of the lengths of
      its parts and within the limit, no part is empty, and there are never more than 32 uploads. */
  lemma {:induction false} RunKeeps(maxBytes: int, es: seq<Event>)
    ensures Inv(Run(maxBytes, es), maxBytes)
  {
    if es != [] {
      RunKeeps(maxBytes, es[..|es| - 1]);
      StepKeeps(Run(maxBytes, es[..|es| - 1]), maxBytes, es[|es| - 1]);
    }
  }
}
