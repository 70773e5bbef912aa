/** Which uploads are alive, read off the calls: when each was created, what has ended it, and that a part sent
    in time finds it. */
module ChunkLife {
  import opened Wrappers
  import opened ChunkSpec
  import opened ChunkProofs
  import opened ChunkTheorems

  // When an identifier was last created.
  function CreatedAt(es: seq<Event>, id: Id): Option<real>
  {
    if es == [] then None
    else if es[|es| - 1].Create? && es[|es| - 1].id == id then Some(es[|es| - 1].now)
    else CreatedAt(es[..|es| - 1], id)
  }

  // A well-formed part that ends its upload: the final one, or one that makes it too large.
  ghost predicate Finishes(maxBytes: int, es: seq<Event>, e: Event, id: Id)
  {
    && e.Add? && e.id == id && e.index >= 0 && (e.data != [] || e.final)
    && (e.final || Size(Table(History(es + [e], id))) > maxBytes)
  }

  // Another creation makes room by this one: 32 are alive, none of them was created before it, and of those
  // created at the same moment it came first.
  ghost predicate Yields(maxBytes: int, es: seq<Event>, e: Event, id: Id)
  {
    var s := Run(maxBytes, es);
    && e.Create? && e.id != id && |s.uploads| >= 32 && id in s.uploads
    && (forall x :: x in s.uploads && x != id ==>
          && CreatedAt(es, id).Some? && CreatedAt(es, x).Some?
          && (CreatedAt(es, id).value < CreatedAt(es, x).value
              || (CreatedAt(es, id) == CreatedAt(es, x) && Precedes(s.order, id, x))))
  }

  predicate Precedes(order: seq<Id>, a: Id, b: Id)
  {
    exists i, j :: 0 <= i < j < |order| && order[i] == a && order[j] == b
  }

  // Created, and neither purged as more than ten minutes old, nor finished, nor made room by since.
  ghost predicate Lives(maxBytes: int, es: seq<Event>, id: Id)
  {
    es != [] &&
    var init, e := es[..|es| - 1], es[|es| - 1];
    || (e.Create? && e.id == id)
    || (&& Lives(maxBytes, init, id)
        && !(e.Purge? && CreatedAt(init, id).Some? && CreatedAt(init, id).value < e.now - 600.0)
        && !Finishes(maxBytes, init, e, id)
        && !Yields(maxBytes, init, e, id))
  }

  // ---------- the time of creation ----------

  ghost predicate Stamped(maxBytes: int, es: seq<Event>)
  {
    var s := Run(maxBytes, es);
    forall id :: id in s.uploads ==> CreatedAt(es, id) == Some(s.uploads[id].createdAt)
  }

  lemma CreatedAtSnoc(es: seq<Event>, e: Event, id: Id)
    ensures CreatedAt(es + [e], id) == if e.Create? && e.id == id then Some(e.now) else CreatedAt(es, id)
  {
    assert (es + [e])[..|es|] == es;
  }

  // No step changes the stamp of an upload it does not create.
  lemma StampStays(s: State, maxBytes: int, e: Event, x: Id)
    requires Inv(s, maxBytes)
    ensures var t := Step(s, maxBytes, e).0;
            x in t.uploads ==>
              if e.Create? && e.id == x then t.uploads[x].createdAt == e.now
              else x in s.uploads && t.uploads[x].createdAt == s.uploads[x].createdAt
  {
    match e
    case Purge(now) => PurgeIsExact(s, maxBytes, now, x);
    case Create(id, now) =>
      if id != x {
        CreationEvictsTheOldest(s, maxBytes, id, now, x);
      }
    case Add(id, index, data, contentType, final) =>
      AddedShape(s, maxBytes, id, index, data, contentType, final);
  }

  /** Over every run: the stamp of a live upload is the time of its last creation. */
  lemma {:induction false} StampIsCreation(maxBytes: int, es: seq<Event>)
    ensures Stamped(maxBytes, es)
  {
    if es != [] {
      var init, e := es[..|es| - 1], es[|es| - 1];
      assert es == init + [e];
      StampIsCreation(maxBytes, init);
      RunKeeps(maxBytes, init);
      RunSnoc(maxBytes, init, e);
      forall id | id in Run(maxBytes, es).uploads ensures CreatedAt(es, id) == Some(Run(maxBytes, es).uploads[id].createdAt) {
        StampStays(Run(maxBytes, init), maxBytes, e, id);
        CreatedAtSnoc(init, e, id);
      }
    }
  }

  // The content type last given since the last creation; a part that is refused at once gives none.
  function TypeGiven(es: seq<Event>, id: Id): string
  {
    if es == [] then ""
    else
      var e := es[|es| - 1];
      if e.Create? && e.id == id then "application/octet-stream"
      else if e.Add? && e.id == id && e.index >= 0 && (e.data != [] || e.final) && e.contentType != "" then e.contentType
      else TypeGiven(es[..|es| - 1], id)
  }

  lemma TypeSnoc(es: seq<Event>, e: Event, id: Id)
    ensures TypeGiven(es + [e], id) ==
            if e.Create? && e.id == id then "application/octet-stream"
            else if e.Add? && e.id == id && e.index >= 0 && (e.data != [] || e.final) && e.contentType != "" then e.contentType
            else TypeGiven(es, id)
  {
    assert (es + [e])[..|es|] == es;
  }

  lemma TypeStays(s: State, maxBytes: int, e: Event, x: Id)
    requires Inv(s, maxBytes)
    ensures var t := Step(s, maxBytes, e).0;
            x in t.uploads ==>
              if e.Create? && e.id == x then t.uploads[x].contentType == "application/octet-stream"
              else
                && x in s.uploads
                && t.uploads[x].contentType ==
                   if e.Add? && e.id == x && e.index >= 0 && (e.data != [] || e.final) && e.contentType != "" then e.contentType
                   else s.uploads[x].contentType
  {
    match e
    case Purge(now) => PurgeIsExact(s, maxBytes, now, x);
    case Create(id, now) =>
      if id != x {
        CreationEvictsTheOldest(s, maxBytes, id, now, x);
      }
    case Add(id, index, data, contentType, final) =>
      AddedShape(s, maxBytes, id, index, data, contentType, final);
  }

  /** Over every run: a live upload has the content type last given with one of its parts. */
  lemma {:induction false} TypeIsLastGiven(maxBytes: int, es: seq<Event>, id: Id)
    ensures id in Run(maxBytes, es).uploads ==> Run(maxBytes, es).uploads[id].contentType == TypeGiven(es, id)
  {
    if es != [] {
      var init, e := es[..|es| - 1], es[|es| - 1];
      assert es == init + [e];
      TypeIsLastGiven(maxBytes, init, id);
      RunKeeps(maxBytes, init);
      RunSnoc(maxBytes, init, e);
      TypeStays(Run(maxBytes, init), maxBytes, e, id);
      TypeSnoc(init, e, id);
    }
  }

  // ---------- making room ----------

  // The first of the oldest in an order without repetition.
  predicate IsOldest(s: State, order: seq<Id>, id: Id)
    requires forall x :: x in order ==> x in s.uploads
  {
    && id in order
    && forall x :: x in order && x != id ==>
         || s.uploads[id].createdAt < s.uploads[x].createdAt
         || (s.uploads[id].createdAt == s.uploads[x].createdAt && Precedes(order, id, x))
  }

  lemma PrecedesTail(order: seq<Id>, a: Id, b: Id)
    requires order != [] && Precedes(order[1..], a, b)
    ensures Precedes(order, a, b)
  {
    var i, j :| 0 <= i < j < |order[1..]| && order[1..][i] == a && order[1..][j] == b;
    assert order[i + 1] == a && order[j + 1] == b;
  }

  lemma HeadPrecedes(order: seq<Id>, x: Id)
    requires order != [] && x in order && x != order[0]
    ensures Precedes(order, order[0], x)
  {
    var j :| 0 <= j < |order| && order[j] == x;
    assert 0 < j;
  }

  lemma {:induction false} OldestIs(s: State, order: seq<Id>)
    requires order != [] && Distinct(order) && forall x :: x in order ==> x in s.uploads
    ensures IsOldest(s, order, Oldest(s, order))
  {
    if |order| > 1 {
      var rest := order[1..];
      assert Distinct(rest);
      assert forall x :: x in order <==> x == order[0] || x in rest;
      OldestIs(s, rest);
      var id := Oldest(s, order);
      forall x | x in order && x != id
        ensures s.uploads[id].createdAt < s.uploads[x].createdAt
                || (s.uploads[id].createdAt == s.uploads[x].createdAt && Precedes(order, id, x))
      {
        if id == order[0] {
          HeadPrecedes(order, x);
        } else if x != order[0] && s.uploads[id].createdAt == s.uploads[x].createdAt {
          PrecedesTail(order, id, x);
        }
      }
    }
  }

  // In an order without repetition nothing comes both before and after another.
  lemma OneWay(order: seq<Id>, a: Id, b: Id)
    requires Distinct(order) && Precedes(order, a, b)
    ensures !Precedes(order, b, a)
  {
    var i, j :| 0 <= i < j < |order| && order[i] == a && order[j] == b;
  }

  lemma OldestIff(s: State, id: Id)
    requires Ordered(s) && s.order != []
    ensures IsOldest(s, s.order, id) <==> id == Oldest(s, s.order)
  {
    assert Distinct(s.order);
    var o := Oldest(s, s.order);
    OldestIs(s, s.order);
    if id != o && IsOldest(s, s.order, id) {
      assert s.uploads[id].createdAt == s.uploads[o].createdAt;
      OneWay(s.order, id, o);
    }
  }

  lemma YieldsIsOldest(maxBytes: int, es: seq<Event>, e: Event, id: Id)
    requires e.Create? && e.id != id && |Run(maxBytes, es).uploads| >= 32
    requires Inv(Run(maxBytes, es), maxBytes) && Stamped(maxBytes, es)
    ensures var s := Run(maxBytes, es);
            Yields(maxBytes, es, e, id) <==> s.order != [] && id == Oldest(s, s.order)
  {
    var s := Run(maxBytes, es);
    NotEmpty(s);
    OldestIff(s, id);
  }

  lemma NotEmpty(s: State)
    requires Ordered(s) && |s.uploads| >= 32
    ensures s.order != []
  {
    var x :| x in s.uploads;
    assert x in s.order;
  }

  // Whom a creation removes.
  lemma CreateLeaves(s: State, maxBytes: int, new_: Id, now: real, id: Id)
    requires Inv(s, maxBytes) && new_ != id && id in s.uploads
    ensures id in Step(s, maxBytes, Create(new_, now)).0.uploads <==>
              !(|s.uploads| >= 32 && s.order != [] && id == Oldest(s, s.order))
  {
  }

  // ---------- alive or not ----------

  lemma AddLeaves(maxBytes: int, es: seq<Event>, e: Event, id: Id)
    requires e.Add? && id in Run(maxBytes, es).uploads
    ensures id in Step(Run(maxBytes, es), maxBytes, e).0.uploads <==> !Finishes(maxBytes, es, e, id)
  {
    var s := Run(maxBytes, es);
    if e.id != id {
      PartsAreIsolated(s, maxBytes, e, id);
    } else if e.index >= 0 && (e.data != [] || e.final) {
      RepliesDependOnLastWrites(maxBytes, es, e);
      AddedEnds(s, maxBytes, e);
    }
  }

  // An upload stays with its part exactly if the answer is that more is to come.
  lemma AddedEnds(s: State, maxBytes: int, e: Event)
    requires e.Add? && e.id in s.uploads && e.index >= 0 && (e.data != [] || e.final)
    ensures e.id in Step(s, maxBytes, e).0.uploads <==> Step(s, maxBytes, e).1 == NotYet
  {
  }

  lemma AddMakesNone(s: State, maxBytes: int, e: Event, id: Id)
    requires !e.Create? && id !in s.uploads
    ensures id !in Step(s, maxBytes, e).0.uploads
  {
    if e.Add? {
      AddedShape(s, maxBytes, e.id, e.index, e.data, e.contentType, e.final);
    }
  }

  lemma StepLives(maxBytes: int, init: seq<Event>, e: Event, id: Id)
    requires Inv(Run(maxBytes, init), maxBytes) && Stamped(maxBytes, init)
    requires id in Run(maxBytes, init).uploads <==> Lives(maxBytes, init, id)
    ensures id in Step(Run(maxBytes, init), maxBytes, e).0.uploads <==> Lives(maxBytes, init + [e], id)
  {
    var s := Run(maxBytes, init);
    assert (init + [e])[..|init|] == init;
    if e.Create? && e.id == id {
    } else if id in s.uploads {
      match e
      case Purge(now) => PurgeIsExact(s, maxBytes, now, id);
      case Create(new_, now) =>
        CreateLeaves(s, maxBytes, new_, now, id);
        if |s.uploads| >= 32 {
          YieldsIsOldest(maxBytes, init, e, id);
        }
      case Add(_, _, _, _, _) => AddLeaves(maxBytes, init, e, id);
    } else if e.Create? {
      CreationEvictsTheOldest(s, maxBytes, e.id, e.now, id);
    } else {
      AddMakesNone(s, maxBytes, e, id);
    }
  }

  /** Over every run: an upload is there exactly if it was created, and since then no purge came more than ten
      minutes later, no final part and none that made it too large, and no other upload needed its place. */
  lemma {:induction false} AliveIff(maxBytes: int, es: seq<Event>, id: Id)
    ensures id in Run(maxBytes, es).uploads <==> Lives(maxBytes, es, id)
  {
    if es != [] {
      var init, e := es[..|es| - 1], es[|es| - 1];
      assert es == init + [e];
      AliveIff(maxBytes, init, id);
      RunKeeps(maxBytes, init);
      StampIsCreation(maxBytes, init);
      RunSnoc(maxBytes, init, e);
      StepLives(maxBytes, init, e, id);
    }
  }

  // ---------- what a sender can rely on ----------

  /** The answer to every part, after any calls: refused arguments first, an unknown upload exactly if it is
      not alive, and otherwise by the parts written last at each index and by the limit. */
  lemma PartAnswers(maxBytes: int, es: seq<Event>, id: Id, index: int, data: Bytes, contentType: string, final: bool)
    ensures var e := Add(id, index, data, contentType, final);
            Step(Run(maxBytes, es), maxBytes, e).1 ==
            if index < 0 then NegativeIndex
            else if data == [] && !final then EmptyChunk
            else if !Lives(maxBytes, es, id) then UnknownUpload
            else Verdict(Table(History(es + [e], id)), maxBytes, final)
  {
    AliveIff(maxBytes, es, id);
    if index >= 0 && (data != [] || final) && id in Run(maxBytes, es).uploads {
      RepliesDependOnLastWrites(maxBytes, es, Add(id, index, data, contentType, final));
    }
  }

  /** A part sent within ten minutes of the creation finds its upload: the purge at its start leaves it, and
      the answer is its own. */
  lemma PartInTime(maxBytes: int, es: seq<Event>, id: Id, now: real, index: nat, data: Bytes, contentType: string, final: bool)
    requires Lives(maxBytes, es, id) && (data != [] || final)
    requires CreatedAt(es, id).Some? && now <= CreatedAt(es, id).value + 600.0
    ensures var e := Add(id, index, data, contentType, final);
            Step(Run(maxBytes, es + [Purge(now)]), maxBytes, e).1
            == Verdict(Table(History((es + [Purge(now)]) + [e], id)), maxBytes, final)
  {
    assert (es + [Purge(now)])[..|es|] == es;
    assert Lives(maxBytes, es + [Purge(now)], id);
    PartAnswers(maxBytes, es + [Purge(now)], id, index, data, contentType, final);
  }

  /** The case of a new upload: its first part, sent within ten minutes and not too large, is taken. */
  lemma FirstPartIsTaken(maxBytes: int, es: seq<Event>, id: Id, at: real, now: real, data: Bytes, contentType: string)
    requires at <= now <= at + 600.0 && data != [] && |data| <= maxBytes
    ensures Step(Run(maxBytes, (es + [Create(id, at)]) + [Purge(now)]), maxBytes, Add(id, 0, data, contentType, false)).1 == NotYet
  {
    var created := es + [Create(id, at)];
    var e := Add(id, 0, data, contentType, false);
    CreatedAtSnoc(es, Create(id, at), id);
    PartInTime(maxBytes, created, id, now, 0, data, contentType, false);
    HistorySnoc(es, Create(id, at), id);
    HistorySnoc(created, Purge(now), id);
    HistorySnoc(created + [Purge(now)], e, id);
    var parts := Table([] + [Part(0, data)]);
    TableSnoc([], Part(0, data));
    assert parts == map[0 := data];
    SizeRemove(parts, 0);
    assert parts - {0} == map[];
  }
}
