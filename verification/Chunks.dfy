/** `ChunkAssembler`: its sessions change in place, as the steps of `ChunkSpec` say. */
module Chunks {
  import opened ChunkSpec
  import ChunkProofs

  class ChunkAssembler {
    const maxBytes: int
    var uploads: map<Id, Upload>
    var order: seq<Id>

    ghost function View(): State
      reads this
    {
      State(uploads, order)
    }

    ghost predicate Valid()
      reads this
    {
      ChunkProofs.Inv(View(), maxBytes)
    }

    constructor (maxBytes: int)
      ensures this.maxBytes == maxBytes && View() == EMPTY && Valid()
    {
      this.maxBytes, uploads, order := maxBytes, map[], [];
    }

    method Delete(id: Id)
      modifies this
      ensures View() == Without(old(View()), {id})
    {
      uploads := uploads - {id};
      order := Keep(order, {id});
    }

    method FindExpired(now: real) returns (expired: seq<Id>)
      requires Valid()
      ensures Members(expired) == Stale(View(), now)
    {
      expired := [];
      var i := 0;
      while i < |order|
        invariant 0 <= i <= |order|
        invariant forall x :: x in expired <==> x in order[..i] && Expired(uploads[x], now)
      {
        assert order[i] in order;
        assert order[..i + 1] == order[..i] + [order[i]];
        if Expired(uploads[order[i]], now) {
          expired := expired + [order[i]];
        }
        i := i + 1;
      }
      assert order[..i] == order;
    }

    method DeleteAll(ids: seq<Id>)
      modifies this
      ensures View() == Without(old(View()), Members(ids))
    {
      ghost var before := View();
      NothingGone(before);
      var j := 0;
      while j < |ids|
        invariant 0 <= j <= |ids|
        invariant View() == Without(before, Members(ids[..j]))
      {
        WithoutTwice(before, Members(ids[..j]), {ids[j]});
        assert ids[..j + 1] == ids[..j] + [ids[j]];
        MembersSnoc(ids[..j], ids[j]);
        Delete(ids[j]);
        j := j + 1;
      }
      assert ids[..j] == ids;
    }

    // `_purge_expired`
    method PurgeExpired(now: real)
      requires Valid()
      modifies this
      ensures Valid() && View() == Purged(old(View()), now)
    {
      ChunkProofs.StepKeeps(View(), maxBytes, Purge(now));
      var expired := FindExpired(now);
      DeleteAll(expired);
    }

    // The key `min` finds.
    method FindOldest() returns (id: Id)
      requires Valid() && order != []
      ensures id == Oldest(View(), order)
    {
      var i := |order| - 1;
      id := order[i];
      assert order[i..] == [order[i]];
      while i > 0
        invariant 0 <= i < |order|
        invariant id == Oldest(View(), order[i..])
      {
        i := i - 1;
        assert order[i..][1..] == order[i + 1..];
        assert order[i] in order && id in order;
        if uploads[order[i]].createdAt <= uploads[id].createdAt {
          id := order[i];
        }
      }
      assert order[0..] == order;
    }

    // Make room for one more.
    method Evict()
      requires Valid()
      modifies this
      ensures View() == Evicted(old(View()))
    {
      if |uploads| >= MAX_CHUNK_SESSIONS {
        ghost var some :| some in uploads;
        assert some in order;
        var oldest := FindOldest();
        Delete(oldest);
      }
    }

    // The locked part of `create_upload_id`, for a fresh identifier.
    method Insert(id: Id, now: real)
      requires Valid()
      modifies this
      ensures Valid() && View() == Created(old(View()), id, now)
    {
      ChunkProofs.CreatedKeeps(View(), id, now, maxBytes);
      Evict();
      if id !in uploads {
        order := order + [id];
      }
      uploads := uploads[id := Upload(map[], "application/octet-stream", now, 0)];
    }

    method CreateUploadId(id: Id, now: real, later: real)
      requires Valid()
      modifies this
      ensures Valid() && View() == Created(Purged(old(View()), now), id, later)
    {
      PurgeExpired(now);
      Insert(id, later);
    }

    method JoinParts(parts: map<nat, Bytes>) returns (payload: Bytes)
      requires Complete(parts)
      ensures payload == Join(parts, |parts|)
    {
      payload := [];
      var i := 0;
      while i < |parts|
        invariant 0 <= i <= |parts|
        invariant payload == Join(parts, i)
      {
        payload := payload + parts[i];
        i := i + 1;
      }
    }

    // What is left to do once a part has been written: keep the session, or end it one way or another.
    method Conclude(id: Id, final: bool) returns (r: Reply)
      requires Valid() && id in uploads
      modifies this
      ensures var s, parts := old(View()), old(uploads)[id].parts;
              if !final then View() == s && r == NotYet
              else
                && View() == Without(s, {id})
                && r == (if parts == map[] then NoChunks else if !Complete(parts) then Incomplete
                         else Payload(Join(parts, |parts|)))
    {
      if !final {
        return NotYet;
      }
      var parts := uploads[id].parts;
      Delete(id);
      if parts == map[] {
        return NoChunks;
      }
      if !Complete(parts) {
        return Incomplete;
      }
      var payload := JoinParts(parts);
      return Payload(payload);
    }

    // What the part makes of the upload, unless that is too large.
    method Take(u: Upload, index: nat, data: Bytes, contentType: string) returns (fits: bool, w: Upload)
      ensures fits == (Written(u, index, data, contentType).total <= maxBytes)
      ensures fits ==> w == Written(u, index, data, contentType)
    {
      PartsAre(u.parts, index, data);
      w := u;
      if index in w.parts {
        w := w.(total := w.total - |w.parts[index]|, parts := w.parts - {index});
      }
      w := w.(total := w.total + |data|);
      if w.total > maxBytes {
        return false, w;
      }
      if data != [] {
        w := w.(parts := w.parts[index := data]);
      }
      if contentType != "" {
        w := w.(contentType := contentType);
      }
      return true, w;
    }

    // The locked part of `add_part`.
    method Put(id: Id, index: nat, data: Bytes, contentType: string, final: bool) returns (r: Reply)
      requires Valid() && (data != [] || final)
      modifies this
      ensures Valid() && (View(), r) == Added(old(View()), maxBytes, id, index, data, contentType, final)
    {
      ghost var before := View();
      ChunkProofs.StepKeeps(before, maxBytes, Add(id, index, data, contentType, final));
      if id !in uploads {
        return UnknownUpload;
      }
      var fits, w := Take(uploads[id], index, data, contentType);
      if !fits {
        Delete(id);
        return TooLarge;
      }
      ChunkProofs.WrittenKeeps(uploads[id], index, data, contentType, maxBytes);
      ChunkProofs.PutKeeps(before, id, w, maxBytes);
      uploads := uploads[id := w];
      WithoutPut(before, id, w);
      r := Conclude(id, final);
    }

    /** `add_part` */
    method AddPart(id: Id, index: int, data: Bytes, contentType: string, final: bool, now: real) returns (r: Reply)
      requires Valid()
      modifies this
      ensures Valid()
      ensures index < 0 || (data == [] && !final) ==>
                View() == old(View()) && r == Added(old(View()), maxBytes, id, index, data, contentType, final).1
      ensures !(index < 0 || (data == [] && !final)) ==>
                (View(), r) == Added(Purged(old(View()), now), maxBytes, id, index, data, contentType, final)
    {
      if index < 0 {
        return NegativeIndex;
      }
      if data == [] && !final {
        return EmptyChunk;
      }
      PurgeExpired(now);
      r := Put(id, index, data, contentType, final);
    }
  }

  ghost function Members(ids: seq<Id>): set<Id> { set id | id in ids }

  lemma NothingGone(s: State)
    ensures Without(s, Members([])) == s
  {
    NothingKept(s.order);
    assert Members([]) == {};
    assert s.uploads - {} == s.uploads;
  }

  lemma {:induction false} NothingKept(order: seq<Id>)
    ensures Keep(order, {}) == order
  {
    if order != [] {
      NothingKept(order[1..]);
    }
  }

  lemma MembersSnoc(ids: seq<Id>, id: Id)
    ensures Members(ids + [id]) == Members(ids) + {id}
  {
  }

  lemma {:induction false} KeepTwice(order: seq<Id>, a: set<Id>, b: set<Id>)
    ensures Keep(Keep(order, a), b) == Keep(order, a + b)
  {
    if order != [] {
      KeepTwice(order[1..], a, b);
      if order[0] !in a {
        assert ([order[0]] + Keep(order[1..], a))[1..] == Keep(order[1..], a);
      } else {
        assert Keep(order, a) == Keep(order[1..], a);
      }
    }
  }

  lemma WithoutTwice(s: State, a: set<Id>, b: set<Id>)
    ensures Without(Without(s, a), b) == Without(s, a + b)
  {
    KeepTwice(s.order, a, b);
    assert s.uploads - a - b == s.uploads - (a + b);
  }

  // A part replaced is a part taken away and put back.
  lemma PartsAre(parts: map<nat, Bytes>, index: nat, data: Bytes)
    ensures data != [] && index in parts ==> (parts - {index})[index := data] == parts[index := data]
    ensures index !in parts ==> parts - {index} == parts
  {
  }

  lemma WithoutPut(s: State, id: Id, u: Upload)
    requires id in s.uploads
    ensures Without(ChunkProofs.Put(s, id, u), {id}) == Without(s, {id})
  {
    assert s.uploads[id := u] - {id} == s.uploads - {id};
  }
}
