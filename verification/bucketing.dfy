/**
 * The per-user bucketing loop of `getForUser`: the user's requests are split
 * into four lists by status id, in retrieval order, and a request whose status
 * id is none of the four states goes into no list.
 */
module Bucketing {
  import opened Options
  import opened RequestStates
  import opened Requests

  datatype Buckets = Buckets(
    pending: seq<ToolRequest>,
    approved: seq<ToolRequest>,
    rejected: seq<ToolRequest>,
    delivered: seq<ToolRequest>)

  /** The list of `b` that holds state `st`. */
  function Bucket(b: Buckets, st: State): seq<ToolRequest> {
    match st
    case Pending => b.pending
    case Approved => b.approved
    case Rejected => b.rejected
    case Delivered => b.delivered
  }

  /** The specification of the loop: each list is the requests with that state's id, in order. */
  function BucketsOf(rs: seq<ToolRequest>): Buckets {
    Buckets(OfStatus(rs, PENDING), OfStatus(rs, APPROVED), OfStatus(rs, REJECTED), OfStatus(rs, DELIVERED))
  }

  /** The loop of `getForUser`, pushing each request onto the list its status id selects. */
  method Partition(requests: seq<ToolRequest>) returns (b: Buckets)
    ensures b == BucketsOf(requests)
  {
    var pending, approved, rejected, delivered := [], [], [], [];
    var i := 0;
    while i < |requests|
      invariant 0 <= i <= |requests|
      invariant pending == OfStatus(requests[..i], PENDING)
      invariant approved == OfStatus(requests[..i], APPROVED)
      invariant rejected == OfStatus(requests[..i], REJECTED)
      invariant delivered == OfStatus(requests[..i], DELIVERED)
    {
      var request := requests[i];
      if request.status == PENDING {
        pending := pending + [request];
      } else if request.status == APPROVED {
        approved := approved + [request];
      } else if request.status == REJECTED {
        rejected := rejected + [request];
      } else if request.status == DELIVERED {
        delivered := delivered + [request];
      }
      assert requests[..i + 1][..i] == requests[..i];
      i := i + 1;
    }
    assert requests[..i] == requests;
    b := Buckets(pending, approved, rejected, delivered);
  }

  /**
   * Every request with a known status is in exactly one list, the one of its
   * state; a request with an unknown status is in none.
   */
  lemma BucketOfEachRequest(rs: seq<ToolRequest>, x: ToolRequest, st: State)
    requires x in rs
    ensures x in Bucket(BucketsOf(rs), st) <==> StateOf(x.status) == Some(st)
  {
    StatusIdRoundTrip(st, st);
  }

  /** All four lists in one sequence, in the order the response lists them. */
  function Flatten(b: Buckets): seq<ToolRequest> {
    b.pending + b.approved + b.rejected + b.delivered
  }

  /** One step of the loop on its own: `last` joins the list its status id selects, if any. */
  function Extend(b: Buckets, last: ToolRequest): Buckets {
    var x := [last];
    Buckets(
      b.pending + (if last.status == PENDING then x else []),
      b.approved + (if last.status == APPROVED then x else []),
      b.rejected + (if last.status == REJECTED then x else []),
      b.delivered + (if last.status == DELIVERED then x else []))
  }

  /** Bucketing one more retrieved request is one step of the loop. */
  lemma BucketsSnoc(init: seq<ToolRequest>, last: ToolRequest)
    ensures BucketsOf(init + [last]) == Extend(BucketsOf(init), last)
  {
    OfStatusSnoc(init, last, PENDING);
    OfStatusSnoc(init, last, APPROVED);
    OfStatusSnoc(init, last, REJECTED);
    OfStatusSnoc(init, last, DELIVERED);
  }

  /** The multiset a request adds to the list of status id `c`. */
  function AddedTo(last: ToolRequest, c: int): multiset<ToolRequest> {
    if last.status == c then multiset{last} else multiset{}
  }

  /** One step adds the request to the multiset of all lists iff its status is known. */
  lemma ExtendAdds(b: Buckets, last: ToolRequest)
    ensures multiset(Flatten(Extend(b, last)))
         == multiset(Flatten(b)) + (if IsKnown(last.status) then multiset{last} else multiset{})
  {
    var e := Extend(b, last);
    assert multiset(e.pending) == multiset(b.pending) + AddedTo(last, PENDING);
    assert multiset(e.approved) == multiset(b.approved) + AddedTo(last, APPROVED);
    assert multiset(e.rejected) == multiset(b.rejected) + AddedTo(last, REJECTED);
    assert multiset(e.delivered) == multiset(b.delivered) + AddedTo(last, DELIVERED);
    assert AddedTo(last, PENDING) + AddedTo(last, APPROVED) + AddedTo(last, REJECTED) + AddedTo(last, DELIVERED)
        == (if IsKnown(last.status) then multiset{last} else multiset{});
  }

  /**
   * The lists together hold exactly the requests with a known status: each as
   * often as it was retrieved, and so as many of them.
   */
  lemma {:induction false} BucketSizes(rs: seq<ToolRequest>)
    ensures multiset(Flatten(BucketsOf(rs))) == multiset(Known(rs))
    ensures var b := BucketsOf(rs); |b.pending| + |b.approved| + |b.rejected| + |b.delivered| == |Known(rs)|
    decreases |rs|
  {
    if rs != [] {
      var init, last := rs[..|rs| - 1], rs[|rs| - 1];
      assert rs == init + [last];
      BucketSizes(init);
      BucketsSnoc(init, last);
      ExtendAdds(BucketsOf(init), last);
      KnownSnoc(init, last);
    }
    assert |multiset(Flatten(BucketsOf(rs)))| == |multiset(Known(rs))|;
  }

  /** Each list keeps retrieval order: bucketing a concatenation appends the lists. */
  lemma BucketsKeepOrder(a: seq<ToolRequest>, b: seq<ToolRequest>, st: State)
    ensures Bucket(BucketsOf(a + b), st) == Bucket(BucketsOf(a), st) + Bucket(BucketsOf(b), st)
  {
    OfStatusAppend(a, b, StatusId(st));
  }

  /**
   * The count query equals the pending, approved and delivered lists of the
   * same user, plus the user's requests whose status is unknown.
   */
  lemma CountMatchesBuckets(s: seq<ToolRequest>, u: UserId)
    ensures var rs := OfUser(s, u); var b := BucketsOf(rs);
      CountActive(s, u) == |b.pending| + |b.approved| + |b.delivered| + (|rs| - |Known(rs)|)
  {
    ActiveCountSplit(s, u);
    BucketSizes(OfUser(s, u));
  }

  /** When every status of the user is known, the count is exactly pending + approved + delivered. */
  lemma CountMatchesKnownBuckets(s: seq<ToolRequest>, u: UserId)
    requires forall x :: x in OfUser(s, u) ==> IsKnown(x.status)
    ensures var b := BucketsOf(OfUser(s, u));
      CountActive(s, u) == |b.pending| + |b.approved| + |b.delivered|
  {
    CountMatchesBuckets(s, u);
  }
}
