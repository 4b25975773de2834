/** The page arithmetic of the order listing: `skip((page - 1) * limit).limit(limit)` and `Math.ceil(total / limit)`. */
module Paging {
  import opened Base

  function Min(a: int, b: int): int
  {
    if a <= b then a else b
  }

  /** `Math.ceil(total / limit)`: the fewest pages of `limit` entries that hold `total` entries. */
  function PageCount(total: nat, limit: nat): (pages: nat)
    requires limit >= 1
    ensures pages * limit >= total
    ensures pages == 0 || (pages - 1) * limit < total
  {
    var q := (total + limit - 1) / limit;
    var rem := (total + limit - 1) % limit;
    assert total + limit - 1 == q * limit + rem;
    assert q * limit == total + limit - 1 - rem;
    assert (q - 1) * limit == q * limit - limit;
    q
  }

  /** `PageCount` is the ceiling: `k` pages suffice exactly when `k` is at least `PageCount`. */
  lemma PageCountIsCeiling(total: nat, limit: nat, k: nat)
    requires limit >= 1
    ensures k * limit >= total <==> k >= PageCount(total, limit)
  {
    var p := PageCount(total, limit);
    if k >= p {
      MulMonotone(p, k, limit);
    } else if p > 0 {
      MulMonotone(k, p - 1, limit);
    }
  }

  /** Ten orders a page and twenty-five orders give three pages. */
  lemma PageCountExample()
    ensures PageCount(25, 10) == 3
  {
  }

  /** The entries the query returns: `limit` entries from position `skip` on, fewer at the end. */
  function Window<T>(s: seq<T>, skip: nat, limit: nat): (r: seq<T>)
    ensures |r| <= limit
    ensures |r| == if skip >= |s| then 0 else Min(limit, |s| - skip)
    ensures forall i :: 0 <= i < |r| ==> skip + i < |s| && r[i] == s[skip + i]
  {
    if skip >= |s| then []
    else if skip + limit >= |s| then s[skip..]
    else s[skip..skip + limit]
  }

  /** The number of entries skipped to reach a 1-based page. */
  function Skip(page: nat, limit: nat): nat
    requires page >= 1
  {
    (page - 1) * limit
  }

  /** Page `page` of the listing holds entries exactly when it is within the page count. */
  lemma PageNonEmptyIff<T>(s: seq<T>, page: nat, limit: nat)
    requires page >= 1 && limit >= 1
    ensures Window(s, Skip(page, limit), limit) != [] <==> page <= PageCount(|s|, limit)
  {
    var p := PageCount(|s|, limit);
    if page <= p {
      MulMonotone(page - 1, p - 1, limit);
    } else {
      MulMonotone(p, page - 1, limit);
    }
  }

  /** Pages 1 to `k`, one after the other. */
  function FirstPages<T>(s: seq<T>, limit: nat, k: nat): seq<T>
    requires limit >= 1
  {
    if k == 0 then [] else FirstPages(s, limit, k - 1) + Window(s, Skip(k, limit), limit)
  }

  /** Pages 1 to `k` together are the first `k * limit` entries, with nothing lost or repeated. */
  lemma {:induction false} FirstPagesPrefix<T>(s: seq<T>, limit: nat, k: nat)
    requires limit >= 1
    ensures FirstPages(s, limit, k) == s[..Min(k * limit, |s|)]
  {
    if k > 0 {
      FirstPagesPrefix(s, limit, k - 1);
      var skip := (k - 1) * limit;
      assert k * limit == skip + limit;
      PrefixThenWindow(s, skip, limit);
    }
  }

  /** The first `skip` entries followed by the window from `skip` are the first `skip + limit` entries. */
  lemma PrefixThenWindow<T>(s: seq<T>, skip: nat, limit: nat)
    ensures s[..Min(skip, |s|)] + Window(s, skip, limit) == s[..Min(skip + limit, |s|)]
  {
    if skip < |s| {
      var hi := Min(skip + limit, |s|);
      assert Window(s, skip, limit) == s[skip..hi];
      assert s[..skip] + s[skip..hi] == s[..hi];
    }
  }

  /** Reading every page from 1 to the page count lists every entry once, in order. */
  lemma AllPagesListEverything<T>(s: seq<T>, limit: nat)
    requires limit >= 1
    ensures FirstPages(s, limit, PageCount(|s|, limit)) == s
  {
    FirstPagesPrefix(s, limit, PageCount(|s|, limit));
    assert s[..|s|] == s;
  }
}
