/** Keyset pagination: the worker listing of the queue client, and the loop that collects its pages. */
module Pages {
  import opened TaskTypes
  import opened Ordering

  /** Last seen and worker id; the listing is newest first. */
  type Key = (int, string)

  datatype Page = Page(items: seq<Key>, next: Option<Key>)

  const MAX_PAGE := 100

  predicate Newer(a: Key, b: Key) {
    !TimedLe(a, b)
  }

  /** The listing: strictly newest first. */
  ghost predicate Newest(ordered: seq<Key>) {
    forall i, j :: 0 <= i < j < |ordered| ==> Newer(ordered[i], ordered[j])
  }

  /** What the cursor has not passed yet. */
  function Rest(ordered: seq<Key>, cursor: Option<Key>): seq<Key> {
    if ordered == [] then []
    else
      Rest(ordered[..|ordered| - 1], cursor)
      + if cursor.None? || Newer(cursor.value, ordered[|ordered| - 1]) then [ordered[|ordered| - 1]] else []
  }

  /** One page: at most `limit` keys, and the last of them as the cursor when there are more. */
  function Listed(ordered: seq<Key>, limit: nat, cursor: Option<Key>): Page
    requires limit > 0
  {
    var rest := Rest(ordered, cursor);
    if |rest| > limit then Page(rest[..limit], Some(rest[limit - 1])) else Page(rest, None)
  }

  // ---- the cursor cuts the listing -----------------------------------------------------------

  lemma {:induction false} RestIsAll(ordered: seq<Key>)
    ensures Rest(ordered, None) == ordered
  {
    if ordered != [] {
      RestIsAll(ordered[..|ordered| - 1]);
      assert ordered == ordered[..|ordered| - 1] + [ordered[|ordered| - 1]];
    }
  }

  lemma NewerIsStrict(a: Key, b: Key)
    ensures !Newer(a, a)
    ensures Newer(a, b) ==> !Newer(b, a)
  {
    TimedOrder();
  }

  /** After the key at `k`, the listing continues at `k + 1`. */
  lemma {:induction false} RestAfter(ordered: seq<Key>, k: nat)
    requires Newest(ordered) && k < |ordered|
    ensures Rest(ordered, Some(ordered[k])) == ordered[k + 1..]
  {
    var n := |ordered| - 1;
    var first, last, key := ordered[..n], ordered[n], ordered[k];
    if k < n {
      RestAfter(first, k);
      assert Newer(key, last) && first[k] == key;
      assert ordered[k + 1..] == first[k + 1..] + [last];
    } else {
      NoneBefore(first, key);
      NewerIsStrict(key, key);
    }
  }

  lemma {:induction false} NoneBefore(first: seq<Key>, key: Key)
    requires forall i :: 0 <= i < |first| ==> Newer(first[i], key)
    ensures Rest(first, Some(key)) == []
  {
    if first != [] {
      NoneBefore(first[..|first| - 1], key);
      NewerIsStrict(first[|first| - 1], key);
    }
  }

  lemma {:induction false} NoneSince(first: seq<Key>, cursor: Key)
    requires forall i :: 0 <= i < |first| ==> !Newer(cursor, first[i])
    ensures Rest(first, Some(cursor)) == []
  {
    if first != [] { NoneSince(first[..|first| - 1], cursor); }
  }

  /** Whatever the cursor, what it has not passed is an end of the listing. */
  lemma {:induction false} RestIsSuffix(ordered: seq<Key>, cursor: Option<Key>) returns (m: nat)
    requires Newest(ordered)
    ensures m <= |ordered| && Rest(ordered, cursor) == ordered[m..]
  {
    var n := |ordered| - 1;
    if ordered == [] {
      m := 0;
    } else if cursor.None? || Newer(cursor.value, ordered[n]) {
      m := RestIsSuffix(ordered[..n], cursor);
      assert ordered[m..] == ordered[..n][m..] + [ordered[n]];
    } else {
      TimedOrder();
      forall i | 0 <= i < n ensures !Newer(cursor.value, ordered[i]) {
        assert Newer(ordered[i], ordered[n]) && TimedLe(cursor.value, ordered[n]);
      }
      NoneSince(ordered[..n], cursor.value);
      m := |ordered|;
    }
  }

  /** Where a listing stands after its first `k` keys. */
  predicate StandsAt(ordered: seq<Key>, start: Option<Key>, cursor: Option<Key>, k: nat) {
    && k <= |Rest(ordered, start)|
    && (if k == 0 then cursor == start else cursor == Some(Rest(ordered, start)[k - 1]))
  }

  lemma RestAt(ordered: seq<Key>, start: Option<Key>, cursor: Option<Key>, k: nat)
    requires Newest(ordered) && StandsAt(ordered, start, cursor, k)
    ensures Rest(ordered, cursor) == Rest(ordered, start)[k..]
  {
    if k > 0 {
      var m := RestIsSuffix(ordered, start);
      RestAfter(ordered, m + k - 1);
      assert ordered[m + k - 1 + 1..] == ordered[m..][k..];
    }
  }

  /** A page continues exactly where the cursor stands, and its own cursor stands at the page's end. */
  lemma PageAt(ordered: seq<Key>, limit: nat, start: Option<Key>, cursor: Option<Key>, k: nat)
    requires Newest(ordered) && StandsAt(ordered, start, cursor, k) && limit > 0
    ensures var rest, p := Rest(ordered, start), Listed(ordered, limit, cursor);
            var end := if k + limit < |rest| then k + limit else |rest|;
            && p.items == rest[k..end] && (p.next.Some? <==> k + limit < |rest|)
            && (p.next.Some? ==> StandsAt(ordered, start, p.next, end))
  {
    hide Newest;
    RestAt(ordered, start, cursor, k);
    hide Rest;
  }

  datatype Collected = Collected(items: seq<Key>, next: Option<Key>)

  function Smaller(a: nat, b: nat): nat {
    if a < b then a else b
  }

  /** Where the collection stands: it has the first keys after the cursor, and continues after them. */
  ghost predicate Collecting(ordered: seq<Key>, start: Option<Key>, cursor: Option<Key>, items: seq<Key>) {
    && |items| <= |Rest(ordered, start)| && items == Rest(ordered, start)[..|items|]
    && StandsAt(ordered, start, cursor, |items|)
  }

  /** One page more. */
  lemma CollectStep(ordered: seq<Key>, start: Option<Key>, cursor: Option<Key>, items: seq<Key>, size: nat)
    requires Newest(ordered) && Collecting(ordered, start, cursor, items) && size > 0
    ensures var rest, p := Rest(ordered, start), Listed(ordered, size, cursor);
            var more := items + p.items;
            && (p.next.Some? ==> |more| == |items| + size < |rest| && Collecting(ordered, start, p.next, more))
            && (p.next.None? ==> |rest| <= |items| + size && more == rest)
  {
    PageAt(ordered, size, start, cursor, |items|);
    hide Newest, Listed, StandsAt, Rest;
    var rest, k := Rest(ordered, start), |items|;
    var end := if k + size < |rest| then k + size else |rest|;
    assert rest[..end] == rest[..k] + rest[k..end];
    assert rest[..|rest|] == rest;
  }

  /** Collect up to `limit` keys after the cursor, or everything, page by page. Whatever the sizes of the pages,
      no key is skipped or repeated, and the returned cursor stands at the end of what was collected. */
  method CollectPages(ordered: seq<Key>, limit: nat, cursor: Option<Key>, allPages: bool) returns (r: Collected)
    requires Newest(ordered) && limit > 0
    ensures var rest := Rest(ordered, cursor);
            var end := if allPages || limit >= |rest| then |rest| else limit;
            && r.items == rest[..end]
            && (r.next.Some? <==> end < |rest|) && (r.next.Some? ==> StandsAt(ordered, cursor, r.next, end))
  {
    ghost var rest := Rest(ordered, cursor);
    assert Collecting(ordered, cursor, cursor, []);
    hide Newest, Listed, StandsAt, Rest;
    var items: seq<Key> := [];
    var raw := cursor;
    var pageSize := Smaller(limit, MAX_PAGE);
    while true
      invariant Collecting(ordered, cursor, raw, items) && (allPages || |items| <= limit)
      invariant items != [] ==> |items| < |rest|
      decreases |rest| - |items|
    {
      if !allPages && limit - |items| <= 0 {
        break;
      }
      var size := if allPages then pageSize else Smaller(pageSize, limit - |items|);
      var page := Listed(ordered, size, raw);
      CollectStep(ordered, cursor, raw, items, size);
      items := items + page.items;
      raw := page.next;
      if raw.None? {
        assert items == rest[..|rest|];
        return Collected(items, raw);
      }
    }
    r := Collected(items, raw);
  }

  /** Collecting again from the returned cursor continues the listing: nothing is lost or repeated in between. */
  lemma ResumedListing(ordered: seq<Key>, start: Option<Key>, cursor: Option<Key>, k: nat, j: nat)
    requires Newest(ordered) && StandsAt(ordered, start, cursor, k) && k + j <= |Rest(ordered, start)|
    ensures j <= |Rest(ordered, cursor)| && Rest(ordered, start)[..k] + Rest(ordered, cursor)[..j] == Rest(ordered, start)[..k + j]
  {
    RestAt(ordered, start, cursor, k);
  }
}
