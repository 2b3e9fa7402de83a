/**
 * The request store's records and the queries the controller runs against it.
 * A store snapshot is a sequence in natural (retrieval) order; each Mongoose
 * filter becomes a filter over that sequence that keeps the order.
 */
module Requests {
  import opened Options
  import opened RequestStates

  type RequestId = nat
  type UserId = nat
  type ToolId = nat
  type Code = string

  /** A stored tool request; `status` is the stored status id, any integer an update wrote. */
  datatype ToolRequest = ToolRequest(id: RequestId, user: UserId, tool: ToolId, status: int, code: Option<Code>)

  /** A record of the status catalog. */
  datatype RequestStatus = RequestStatus(id: int, name: string)

  /** The query `find({ user: u })`: the requests of user `u`, in retrieval order. */
  function OfUser(s: seq<ToolRequest>, u: UserId): (r: seq<ToolRequest>)
    ensures |r| <= |s|
    ensures forall x :: x in r <==> x in s && x.user == u
    decreases |s|
  {
    if s == [] then []
    else
      var init, last := s[..|s| - 1], s[|s| - 1];
      assert s == init + [last];
      OfUser(init, u) + (if last.user == u then [last] else [])
  }

  /** The requests whose stored status id is `c`, in retrieval order. */
  function OfStatus(s: seq<ToolRequest>, c: int): (r: seq<ToolRequest>)
    ensures |r| <= |s|
    ensures forall x :: x in r <==> x in s && x.status == c
    decreases |s|
  {
    if s == [] then []
    else
      var init, last := s[..|s| - 1], s[|s| - 1];
      assert s == init + [last];
      OfStatus(init, c) + (if last.status == c then [last] else [])
  }

  /** The requests whose status id is one of the four known states, in retrieval order. */
  function Known(s: seq<ToolRequest>): (r: seq<ToolRequest>)
    ensures |r| <= |s|
    ensures forall x :: x in r <==> x in s && IsKnown(x.status)
    ensures (forall x :: x in s ==> IsKnown(x.status)) ==> r == s
    decreases |s|
  {
    if s == [] then []
    else
      var init, last := s[..|s| - 1], s[|s| - 1];
      assert s == init + [last];
      Known(init) + (if IsKnown(last.status) then [last] else [])
  }

  /** The count query `count({ user: u, status: { $ne: REJECTED } })`. */
  function CountActive(s: seq<ToolRequest>, u: UserId): (n: nat)
    ensures n <= |OfUser(s, u)|
    decreases |s|
  {
    if s == [] then 0
    else
      var init, last := s[..|s| - 1], s[|s| - 1];
      CountActive(init, u) + (if last.user == u && last.status != REJECTED then 1 else 0)
  }

  /** Filtering by user distributes over concatenation: earlier retrievals stay first. */
  lemma {:induction false} OfUserAppend(a: seq<ToolRequest>, b: seq<ToolRequest>, u: UserId)
    ensures OfUser(a + b, u) == OfUser(a, u) + OfUser(b, u)
    decreases |b|
  {
    if b == [] {
      assert a + b == a;
    } else {
      var b' := b[..|b| - 1];
      assert (a + b)[..|a + b| - 1] == a + b';
      OfUserAppend(a, b', u);
    }
  }

  /** Filtering by status distributes over concatenation: earlier retrievals stay first. */
  lemma {:induction false} OfStatusAppend(a: seq<ToolRequest>, b: seq<ToolRequest>, c: int)
    ensures OfStatus(a + b, c) == OfStatus(a, c) + OfStatus(b, c)
    decreases |b|
  {
    if b == [] {
      assert a + b == a;
    } else {
      var b' := b[..|b| - 1];
      assert (a + b)[..|a + b| - 1] == a + b';
      OfStatusAppend(a, b', c);
    }
  }

  /** Retrieving one more request extends its status's filter by it and no other. */
  lemma OfStatusSnoc(init: seq<ToolRequest>, last: ToolRequest, c: int)
    ensures OfStatus(init + [last], c) == OfStatus(init, c) + (if last.status == c then [last] else [])
  {
    assert (init + [last])[..|init + [last]| - 1] == init;
  }

  /** Retrieving one more request extends the known-status filter by it iff its status is known. */
  lemma KnownSnoc(init: seq<ToolRequest>, last: ToolRequest)
    ensures Known(init + [last]) == Known(init) + (if IsKnown(last.status) then [last] else [])
  {
    assert (init + [last])[..|init + [last]| - 1] == init;
  }

  /** The active count is the user's requests minus the user's rejected ones. */
  lemma {:induction false} ActiveCountSplit(s: seq<ToolRequest>, u: UserId)
    ensures CountActive(s, u) + |OfStatus(OfUser(s, u), REJECTED)| == |OfUser(s, u)|
    decreases |s|
  {
    if s != [] {
      var init, last := s[..|s| - 1], s[|s| - 1];
      ActiveCountSplit(init, u);
      var tail := if last.user == u then [last] else [];
      OfStatusAppend(OfUser(init, u), tail, REJECTED);
      if last.user == u {
        assert [last][..0] == [];
      }
    }
  }

  /** The first index holding request id `id`: the lookup `findById(id)`. */
  function FindById(s: seq<ToolRequest>, id: RequestId): (r: Option<nat>)
    ensures r.Some? ==> r.value < |s| && s[r.value].id == id
    ensures r.Some? ==> forall j :: 0 <= j < r.value ==> s[j].id != id
    ensures r.None? <==> forall j :: 0 <= j < |s| ==> s[j].id != id
  {
    if s == [] then None
    else if s[0].id == id then Some(0)
    else
      match FindById(s[1..], id)
      case None => None
      case Some(k) => Some(k + 1)
  }

  /** The lookup `findOne({ code: code })` finds a record. */
  predicate CodeTaken(s: seq<ToolRequest>, code: Code) {
    exists i | 0 <= i < |s| :: s[i].code == Some(code)
  }

  /** Appending a request makes a code taken exactly when it was taken before or the new request carries it. */
  lemma CodeTakenSnoc(s: seq<ToolRequest>, x: ToolRequest, code: Code)
    ensures CodeTaken(s + [x], code) <==> CodeTaken(s, code) || x.code == Some(code)
  {
    if CodeTaken(s + [x], code) {
      var i :| 0 <= i < |s + [x]| && (s + [x])[i].code == Some(code);
      if i < |s| {
        assert s[i] == (s + [x])[i];
      }
    }
    if CodeTaken(s, code) {
      var i :| 0 <= i < |s| && s[i].code == Some(code);
      assert (s + [x])[i] == s[i];
    }
    if x.code == Some(code) {
      assert (s + [x])[|s|] == x;
    }
  }

  /** The store's key invariant: no two records share an id. */
  ghost predicate IdsDistinct(s: seq<ToolRequest>) {
    forall i, j :: 0 <= i < j < |s| ==> s[i].id != s[j].id
  }

  /** The largest id in the store, 0 when empty. */
  function MaxId(s: seq<ToolRequest>): (m: nat)
    ensures forall x :: x in s ==> x.id <= m
    decreases |s|
  {
    if s == [] then 0
    else
      var init, last := s[..|s| - 1], s[|s| - 1];
      assert s == init + [last];
      var m := MaxId(init);
      if last.id > m then last.id else m
  }

  /** An id no stored record has; it stands for the ObjectId the driver generates on save. */
  function NextId(s: seq<ToolRequest>): (id: RequestId)
    ensures forall x :: x in s ==> x.id != id
  {
    MaxId(s) + 1
  }
}
