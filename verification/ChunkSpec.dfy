/** Chunked uploads as steps: what each critical section of the assembler does to its sessions.

    A call first purges and then takes the lock again, so other calls may come between; here the two are
    separate events and every interleaving is a run. */
module ChunkSpec {
  type Id = nat
  type Bytes = seq<int>

  const MAX_CHUNK_SESSIONS: nat := 32
  const CHUNK_SESSION_TTL_SEC: real := 600.0

  datatype Upload = Upload(parts: map<nat, Bytes>, contentType: string, createdAt: real, total: int)

  // A dictionary: its content, and the order in which its keys went in.
  datatype State = State(uploads: map<Id, Upload>, order: seq<Id>)

  datatype Reply =
    | NotYet
    | Payload(bytes: Bytes)
    | NegativeIndex
    | EmptyChunk
    | UnknownUpload
    | TooLarge
    | NoChunks
    | Incomplete

  datatype Event =
    | Purge(now: real)
    | Create(id: Id, now: real)
    | Add(id: Id, index: int, data: Bytes, contentType: string, final: bool)

  function Without(s: State, gone: set<Id>): State
  {
    State(s.uploads - gone, Keep(s.order, gone))
  }

  function Keep(order: seq<Id>, gone: set<Id>): seq<Id>
  {
    if order == [] then []
    else (if order[0] in gone then [] else [order[0]]) + Keep(order[1..], gone)
  }

  predicate Expired(u: Upload, now: real) { u.createdAt < now - CHUNK_SESSION_TTL_SEC }

  function Stale(s: State, now: real): set<Id>
  {
    set id | id in s.uploads && Expired(s.uploads[id], now)
  }

  function Purged(s: State, now: real): State { Without(s, Stale(s, now)) }

  // The first of the oldest.
  function Oldest(s: State, order: seq<Id>): (id: Id)
    requires order != [] && forall x :: x in order ==> x in s.uploads
    ensures id in order
  {
    if |order| == 1 then order[0]
    else
      var rest := Oldest(s, order[1..]);
      if s.uploads[rest].createdAt < s.uploads[order[0]].createdAt then rest else order[0]
  }

  ghost predicate Ordered(s: State)
  {
    && (forall x :: x in s.order <==> x in s.uploads)
    && (forall i, j :: 0 <= i < j < |s.order| ==> s.order[i] != s.order[j])
  }

  function Evicted(s: State): State
  {
    if |s.uploads| >= MAX_CHUNK_SESSIONS && s.order != [] && (forall x :: x in s.order ==> x in s.uploads) then
      Without(s, {Oldest(s, s.order)})
    else s
  }

  function Created(s: State, id: Id, now: real): State
  {
    var t := Evicted(s);
    State(t.uploads[id := Upload(map[], "application/octet-stream", now, 0)],
          if id in t.uploads then t.order else t.order + [id])
  }

  // The part at an index after a write: an empty final chunk takes away what was there.
  function Write(parts: map<nat, Bytes>, index: nat, data: Bytes): map<nat, Bytes>
  {
    if data == [] then parts - {index} else parts[index := data]
  }

  // The parts are numbered 0, 1, ... without a gap.
  predicate Complete(parts: map<nat, Bytes>)
  {
    forall i :: 0 <= i < |parts| ==> i in parts
  }

  function Join(parts: map<nat, Bytes>, n: nat): Bytes
    requires forall i :: 0 <= i < n ==> i in parts
  {
    if n == 0 then [] else Join(parts, n - 1) + parts[n - 1]
  }

  function Written(u: Upload, index: nat, data: Bytes, contentType: string): Upload
  {
    Upload(Write(u.parts, index, data),
           if contentType != "" then contentType else u.contentType,
           u.createdAt,
           u.total - (if index in u.parts then |u.parts[index]| else 0) + |data|)
  }

  function Added(s: State, maxBytes: int, id: Id, index: int, data: Bytes, contentType: string, final: bool): (State, Reply)
  {
    if index < 0 then (s, NegativeIndex)
    else if data == [] && !final then (s, EmptyChunk)
    else if id !in s.uploads then (s, UnknownUpload)
    else
      var u := Written(s.uploads[id], index, data, contentType);
      if u.total > maxBytes then (Without(s, {id}), TooLarge)
      else if !final then (s.(uploads := s.uploads[id := u]), NotYet)
      else if u.parts == map[] then (Without(s, {id}), NoChunks)
      else if !Complete(u.parts) then (Without(s, {id}), Incomplete)
      else (Without(s, {id}), Payload(Join(u.parts, |u.parts|)))
  }

  function Step(s: State, maxBytes: int, e: Event): (State, Reply)
  {
    match e
    case Purge(now) => (Purged(s, now), NotYet)
    case Create(id, now) => (Created(s, id, now), NotYet)
    case Add(id, index, data, contentType, final) => Added(s, maxBytes, id, index, data, contentType, final)
  }

  const EMPTY := State(map[], [])

  function Run(maxBytes: int, es: seq<Event>): State
  {
    if es == [] then EMPTY else Step(Run(maxBytes, es[..|es| - 1]), maxBytes, es[|es| - 1]).0
  }
}
