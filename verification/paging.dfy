/**
 * The offset and limit of `getPaged`: skip `(page - 1) * pageSize` requests,
 * then take `pageSize`, with the cursor semantics of the document store.
 */
module Paging {
  import opened Requests

  /** The cursor's `skip(n)`: drop the first `n` documents. */
  function Skip(s: seq<ToolRequest>, n: nat): (r: seq<ToolRequest>)
    ensures |r| == if n >= |s| then 0 else |s| - n
    ensures forall k :: 0 <= k < |r| ==> r[k] == s[n + k]
  {
    if n >= |s| then [] else s[n..]
  }

  /** The cursor's `limit(n)`: keep the first `n` documents; a limit of 0 sets no limit. */
  function Limit(s: seq<ToolRequest>, n: nat): (r: seq<ToolRequest>)
    ensures |r| == if n == 0 || n >= |s| then |s| else n
    ensures forall k :: 0 <= k < |r| ==> r[k] == s[k]
  {
    if n == 0 || n >= |s| then s else s[..n]
  }

  /** `itemsToSkip`: the number of requests before page `page`. */
  function Offset(page: int, pageSize: int): (skip: nat)
    requires page >= 1 && pageSize >= 0
    ensures skip == (page - 1) * pageSize
  {
    (page - 1) * pageSize
  }

  /**
   * Page `page` of the store: the requests from the offset on, at most
   * `pageSize` of them when `pageSize` is positive, all the rest when it is 0.
   */
  function PageOf(s: seq<ToolRequest>, page: int, pageSize: int): (r: seq<ToolRequest>)
    requires page >= 1 && pageSize >= 0
    ensures var skip := Offset(page, pageSize);
      && |r| == (if skip >= |s| then 0
                 else if pageSize == 0 || skip + pageSize > |s| then |s| - skip
                 else pageSize)
      && forall k :: 0 <= k < |r| ==> r[k] == s[skip + k]
  {
    Limit(Skip(s, Offset(page, pageSize)), pageSize)
  }

  /** Multiplying by a non-negative page size keeps order. */
  lemma MultiplyMonotone(a: int, b: int, n: nat)
    requires a <= b
    ensures a * n <= b * n
  {
  }

  /** A strict order between multiples of a positive page size holds of the factors. */
  lemma MultiplyCancel(a: int, b: int, n: int)
    requires n > 0 && a * n < b * n
    ensures a < b
  {
    if a >= b {
      MultiplyMonotone(b, a, n);
    }
  }

  /** Integer division by a positive page size recovers the page an offset falls in. */
  lemma PageIndexUnique(i: nat, n: nat, q: int)
    requires n > 0 && q >= 1
    requires (q - 1) * n <= i < q * n
    ensures q == i / n + 1
  {
    var p, r := i / n, i % n;
    assert i == p * n + r && 0 <= r < n;
    assert (q - 1) * n < (p + 1) * n;
    MultiplyCancel(q - 1, p + 1, n);
    assert p * n < q * n;
    MultiplyCancel(p, q, n);
  }

  /**
   * With a positive page size every request of the store is on exactly one
   * page, page `i / pageSize + 1`, at position `i % pageSize`.
   */
  lemma {:induction false} EachRequestOnOnePage(s: seq<ToolRequest>, pageSize: int, i: int)
    requires pageSize > 0 && 0 <= i < |s|
    ensures var q := i / pageSize + 1;
      i % pageSize < |PageOf(s, q, pageSize)| && PageOf(s, q, pageSize)[i % pageSize] == s[i]
    ensures forall q :: (q >= 1 && Offset(q, pageSize) <= i < Offset(q, pageSize) + |PageOf(s, q, pageSize)|)
                        ==> q == i / pageSize + 1
  {
    var q := i / pageSize + 1;
    assert Offset(q, pageSize) == i - i % pageSize;
    forall q' | q' >= 1 && Offset(q', pageSize) <= i < Offset(q', pageSize) + |PageOf(s, q', pageSize)|
      ensures q' == q
    {
      assert (q' - 1) * pageSize + pageSize == q' * pageSize;
      PageIndexUnique(i, pageSize, q');
    }
  }

  /**
   * On 25 requests with pages of 10, page 2 holds requests 11 to 20 and page 3
   * requests 21 to 25; with a page size of 0 the first page is every request.
   */
  lemma TwentyFiveRequests(s: seq<ToolRequest>)
    requires |s| == 25
    ensures PageOf(s, 2, 10) == s[10..20]
    ensures PageOf(s, 3, 10) == s[20..]
    ensures PageOf(s, 1, 0) == s
  {
  }
}
