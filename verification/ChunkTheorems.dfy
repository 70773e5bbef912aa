/** What an upload's sender can rely on, over any run with any other uploads in between. */
module ChunkTheorems {
  import opened Wrappers
  import opened ChunkSpec
  import opened ChunkProofs
  import opened Concatenation

  datatype Part = Part(index: nat, data: Bytes)

  // The last write at each index; an empty one leaves nothing there.
  function Table(ws: seq<Part>): map<nat, Bytes>
  {
    if ws == [] then map[] else Write(Table(ws[..|ws| - 1]), ws[|ws| - 1].index, ws[|ws| - 1].data)
  }

  function LastData(ws: seq<Part>, i: nat): Option<Bytes>
  {
    if ws == [] then None
    else if ws[|ws| - 1].index != i then LastData(ws[..|ws| - 1], i)
    else if ws[|ws| - 1].data == [] then None
    else Some(ws[|ws| - 1].data)
  }

  lemma {:induction false} TableIsLast(ws: seq<Part>, i: nat)
    ensures i in Table(ws) <==> LastData(ws, i).Some?
    ensures i in Table(ws) ==> Table(ws)[i] == LastData(ws, i).value
  {
    if ws != [] {
      TableIsLast(ws[..|ws| - 1], i);
    }
  }

  // What was written for an upload since it was created.
  function History(es: seq<Event>, id: Id): seq<Part>
  {
    if es == [] then []
    else
      var before, e := History(es[..|es| - 1], id), es[|es| - 1];
      if e.Create? && e.id == id then []
      else if e.Add? && e.id == id && e.index >= 0 && (e.data != [] || e.final) then before + [Part(e.index, e.data)]
      else before
  }

  lemma HistorySnoc(es: seq<Event>, e: Event, id: Id)
    ensures History(es + [e], id) ==
            if e.Create? && e.id == id then []
            else if e.Add? && e.id == id && e.index >= 0 && (e.data != [] || e.final) then
              History(es, id) + [Part(e.index, e.data)]
            else History(es, id)
  {
    assert (es + [e])[..|es|] == es;
  }

  lemma TableSnoc(ws: seq<Part>, p: Part)
    ensures Table(ws + [p]) == Write(Table(ws), p.index, p.data)
  {
    assert (ws + [p])[..|ws|] == ws;
  }

  // ---------- isolation ----------

  /** A part changes no upload but its own. */
  lemma PartsAreIsolated(s: State, maxBytes: int, e: Event, x: Id)
    requires e.Add? && e.id != x
    ensures var t := Step(s, maxBytes, e).0;
            && (x in t.uploads <==> x in s.uploads)
            && (x in s.uploads ==> t.uploads[x] == s.uploads[x])
  {
    AddedShape(s, maxBytes, e.id, e.index, e.data, e.contentType, e.final);
  }

  /** A purge removes exactly the uploads created more than ten minutes ago, and leaves the rest. */
  lemma PurgeIsExact(s: State, maxBytes: int, now: real, x: Id)
    ensures var t := Step(s, maxBytes, Purge(now)).0;
            && (x in t.uploads <==> x in s.uploads && s.uploads[x].createdAt >= now - CHUNK_SESSION_TTL_SEC)
            && (x in t.uploads ==> t.uploads[x] == s.uploads[x])
  {
  }

  /** A new upload pushes out another only when 32 are there, then only one, and one of the oldest. */
  lemma CreationEvictsTheOldest(s: State, maxBytes: int, id: Id, now: real, x: Id)
    requires Inv(s, maxBytes) && x != id
    ensures var t := Step(s, maxBytes, Create(id, now)).0;
            && (x in t.uploads ==> x in s.uploads && t.uploads[x] == s.uploads[x])
            && (x in s.uploads && x !in t.uploads ==>
                  && |s.uploads| == MAX_CHUNK_SESSIONS
                  && (forall y :: y in s.uploads ==> s.uploads[x].createdAt <= s.uploads[y].createdAt)
                  && (forall y :: y in s.uploads && y != x ==> y in t.uploads))
  {
    if |s.uploads| >= MAX_CHUNK_SESSIONS && s.order != [] {
      OldestIsOldest(s, s.order);
    }
  }

  // ---------- content ----------

  ghost predicate Faithful(maxBytes: int, es: seq<Event>, id: Id)
  {
    var s := Run(maxBytes, es);
    id in s.uploads ==> s.uploads[id].parts == Table(History(es, id))
  }

  lemma {:induction false} StepIsFaithful(maxBytes: int, es: seq<Event>, e: Event, id: Id)
    requires Inv(Run(maxBytes, es), maxBytes) && Faithful(maxBytes, es, id)
    ensures Faithful(maxBytes, es + [e], id)
  {
    var s := Run(maxBytes, es);
    HistorySnoc(es, e, id);
    RunSnoc(maxBytes, es, e);
    match e
    case Purge(now) => PurgeIsExact(s, maxBytes, now, id);
    case Create(new_, now) =>
      if new_ != id {
        CreationEvictsTheOldest(s, maxBytes, new_, now, id);
      }
    case Add(other, index, data, contentType, final) =>
      if other != id {
        PartsAreIsolated(s, maxBytes, e, id);
      } else {
        AddedShape(s, maxBytes, id, index, data, contentType, final);
        if index >= 0 {
          TableSnoc(History(es, id), Part(index, data));
        }
      }
  }

  /** While an upload lives its parts are the last ones written at each index since it was created. */
  lemma {:induction false} PartsAreLastWrites(maxBytes: int, es: seq<Event>, id: Id)
    ensures Faithful(maxBytes, es, id)
  {
    if es != [] {
      var init, e := es[..|es| - 1], es[|es| - 1];
      assert es == init + [e];
      assert Faithful(maxBytes, init + [e], id) by {
        PartsAreLastWrites(maxBytes, init, id);
        RunKeeps(maxBytes, init);
        StepIsFaithful(maxBytes, init, e, id);
      }
    }
  }

  lemma RunSnoc(maxBytes: int, es: seq<Event>, e: Event)
    ensures Run(maxBytes, es + [e]) == Step(Run(maxBytes, es), maxBytes, e).0
  {
    assert (es + [e])[..|es|] == es;
  }

  // What the sender of a part is told, given the parts written so far and that one.
  ghost function Verdict(parts: map<nat, Bytes>, maxBytes: int, final: bool): Reply
  {
    if Size(parts) > maxBytes then TooLarge
    else if !final then NotYet
    else if parts == map[] then NoChunks
    else if !Complete(parts) then Incomplete
    else Payload(Join(parts, |parts|))
  }

  /** The reply to a part of a live upload depends on nothing but the last writes at each index: not on
      the order of arrival, on retransmissions, or on anything other uploads do. */
  lemma RepliesDependOnLastWrites(maxBytes: int, es: seq<Event>, e: Event)
    requires e.Add? && e.id in Run(maxBytes, es).uploads && e.index >= 0 && (e.data != [] || e.final)
    ensures Step(Run(maxBytes, es), maxBytes, e).1 == Verdict(Table(History(es + [e], e.id)), maxBytes, e.final)
  {
    var s := Run(maxBytes, es);
    RunKeeps(maxBytes, es);
    PartsAreLastWrites(maxBytes, es, e.id);
    HistorySnoc(es, e, e.id);
    TableSnoc(History(es, e.id), Part(e.index, e.data));
    WrittenKeeps(s.uploads[e.id], e.index, e.data, e.contentType, maxBytes);
  }

  /** A payload comes from a live upload only, is its parts 0, 1, ... in order, and is within the limit. */
  lemma {:induction false} PayloadIsThePartsInOrder(maxBytes: int, es: seq<Event>, e: Event)
    requires Step(Run(maxBytes, es), maxBytes, e).1.Payload?
    ensures e.Add? && e.id in Run(maxBytes, es).uploads && e.final
    ensures var parts := Table(History(es + [e], e.id));
            var p := Step(Run(maxBytes, es), maxBytes, e).1.bytes;
            && parts != map[] && Complete(parts) && p == Join(parts, |parts|) && |p| == Size(parts) <= maxBytes
            && e.id !in Step(Run(maxBytes, es), maxBytes, e).0.uploads
  {
    RepliesDependOnLastWrites(maxBytes, es, e);
    JoinSize(Table(History(es + [e], e.id)));
  }

  /** A payload is the parts 0 to n-1 one after the other. */
  lemma {:induction false} JoinIsConcat(parts: map<nat, Bytes>, n: nat)
    requires forall i :: 0 <= i < n ==> i in parts
    ensures Join(parts, n) == Concat(seq(n, i requires 0 <= i < n => parts[i]))
  {
    if n > 0 {
      var init := seq(n - 1, i requires 0 <= i < n - 1 => parts[i]);
      JoinIsConcat(parts, n - 1);
      ConcatSnoc(init, parts[n - 1]);
      assert seq(n, i requires 0 <= i < n => parts[i]) == init + [parts[n - 1]];
    }
  }

  lemma {:induction false} JoinSame(a: map<nat, Bytes>, b: map<nat, Bytes>, n: nat)
    requires forall i :: 0 <= i < n ==> i in a && i in b && a[i] == b[i]
    ensures Join(a, n) == Join(b, n)
  {
    if n > 0 {
      JoinSame(a, b, n - 1);
    }
  }

  function Below(n: nat): set<nat>
  {
    if n == 0 then {} else Below(n - 1) + {n - 1}
  }

  lemma {:induction false} BelowSize(n: nat)
    ensures |Below(n)| == n && forall i: nat :: i in Below(n) <==> i < n
  {
    if n > 0 {
      BelowSize(n - 1);
    }
  }

  /** The sorted indices are 0, 1, ... exactly when the parts are complete. */
  lemma CompleteIsRange(parts: map<nat, Bytes>)
    ensures Complete(parts) <==> parts.Keys == Below(|parts|)
  {
    BelowSize(|parts|);
    assert |parts.Keys| == |parts|;
    if Complete(parts) {
      assert Below(|parts|) <= parts.Keys;
      SubsetOfSameSize(Below(|parts|), parts.Keys);
    }
  }

  lemma SubsetOfSameSize(a: set<nat>, b: set<nat>)
    requires a <= b && |a| == |b|
    ensures a == b
  {
    assert b == a + (b - a);
    assert |b| == |a| + |b - a|;
  }

  // Taking the last part away leaves a complete upload.
  lemma {:induction false} WithoutLast(parts: map<nat, Bytes>)
    requires Complete(parts) && parts != map[]
    ensures var n := |parts| - 1;
            && n in parts && |parts - {n}| == n && Complete(parts - {n})
            && Join(parts - {n}, n) == Join(parts, n)
  {
    var n := |parts| - 1;
    assert |parts| > 0 by {
      assert Pick(parts) in parts;
    }
    var rest := parts - {n};
    assert rest.Keys == parts.Keys - {n};
    assert |rest| == |rest.Keys|;
    JoinSame(rest, parts, n);
  }

  lemma {:induction false} JoinSize(parts: map<nat, Bytes>)
    requires Complete(parts)
    ensures |Join(parts, |parts|)| == Size(parts)
    decreases |parts|
  {
    if parts != map[] {
      var n := |parts| - 1;
      WithoutLast(parts);
      SizeRemove(parts, n);
      JoinSize(parts - {n});
    }
  }

  // ---------- order and retransmission ----------

  // The same data whenever an index is sent again.
  predicate Consistent(ws: seq<Part>)
  {
    forall p, q :: p in ws && q in ws && p.index == q.index ==> p.data == q.data
  }

  lemma {:induction false} LastDataOf(ws: seq<Part>, i: nat)
    ensures LastData(ws, i).Some? ==> LastData(ws, i).value != [] && Part(i, LastData(ws, i).value) in ws
  {
    if ws != [] {
      LastDataOf(ws[..|ws| - 1], i);
    }
  }

  lemma {:induction false} DataIsLast(ws: seq<Part>, p: Part)
    requires Consistent(ws) && p in ws && p.data != []
    ensures LastData(ws, p.index) == Some(p.data)
  {
    var last := ws[|ws| - 1];
    assert last in ws;
    if last.index != p.index {
      assert ws == ws[..|ws| - 1] + [last];
      DataIsLast(ws[..|ws| - 1], p);
    }
  }

  /** Sending the same parts in another order, or some of them several times, comes to the same. */
  lemma OrderDoesNotMatter(ws: seq<Part>, vs: seq<Part>)
    requires Consistent(ws) && forall p :: p in ws <==> p in vs
    ensures Table(ws) == Table(vs)
  {
    assert Consistent(vs);
    forall i: nat ensures LastData(ws, i) == LastData(vs, i) {
      SameLast(ws, vs, i);
    }
    forall i: nat
      ensures i in Table(ws) <==> i in Table(vs)
      ensures i in Table(ws) ==> Table(ws)[i] == Table(vs)[i]
    {
      TableIsLast(ws, i);
      TableIsLast(vs, i);
    }
  }

  lemma SameLast(ws: seq<Part>, vs: seq<Part>, i: nat)
    requires Consistent(ws) && Consistent(vs) && forall p :: p in ws <==> p in vs
    ensures LastData(ws, i) == LastData(vs, i)
  {
    LastDataOf(ws, i);
    LastDataOf(vs, i);
    if LastData(ws, i).Some? {
      DataIsLast(vs, Part(i, LastData(ws, i).value));
    } else if LastData(vs, i).Some? {
      DataIsLast(ws, Part(i, LastData(vs, i).value));
    }
  }

  // ---------- a surprise ----------

  // Taking one part away from a complete upload leaves a gap, unless it is the last.
  lemma WithoutOne(parts: map<nat, Bytes>, index: nat)
    requires Complete(parts) && index in parts
    ensures index < |parts| && |parts - {index}| == |parts| - 1
    ensures Complete(parts - {index}) <==> index == |parts| - 1
  {
    CompleteIsRange(parts);
    BelowSize(|parts|);
    var rest := parts - {index};
    assert rest.Keys == parts.Keys - {index};
    assert |rest| == |rest.Keys|;
  }

  /** What an empty final chunk does to a complete upload, at any index: at a new one it just finishes, and
      that is the only safe use.  At an index that is there it drops that part first. */
  lemma EmptyFinalReply(s: State, maxBytes: int, id: Id, index: nat, contentType: string)
    requires Inv(s, maxBytes) && id in s.uploads && Complete(s.uploads[id].parts) && s.uploads[id].parts != map[]
    ensures var parts := s.uploads[id].parts;
            Added(s, maxBytes, id, index, [], contentType, true).1 ==
            if index !in parts then Payload(Join(parts, |parts|))
            else if |parts| == 1 then NoChunks
            else if index == |parts| - 1 then Payload(Join(parts, |parts| - 1))
            else Incomplete
  {
    var parts := s.uploads[id].parts;
    if index in parts {
      WithoutOne(parts, index);
      SizeRemove(parts, index);
      WithoutLast(parts);
      assert parts - {index} == map[] <==> |parts - {index}| == 0;
    } else {
      assert parts - {index} == parts;
    }
  }

  /** So the whole upload comes back if and only if the chunk's index is not one of its parts. */
  lemma EmptyFinalIsSafeIff(s: State, maxBytes: int, id: Id, index: nat, contentType: string)
    requires Inv(s, maxBytes) && id in s.uploads && Complete(s.uploads[id].parts) && s.uploads[id].parts != map[]
    ensures var parts := s.uploads[id].parts;
            Added(s, maxBytes, id, index, [], contentType, true).1 == Payload(Join(parts, |parts|)) <==> index !in parts
  {
    var parts := s.uploads[id].parts;
    EmptyFinalReply(s, maxBytes, id, index, contentType);
    WithoutLast(parts);
    assert Join(parts, |parts|) == Join(parts, |parts| - 1) + parts[|parts| - 1];
  }
}
