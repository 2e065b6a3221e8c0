/**
 Reading a Datadog list page by page, up to the page limit
 (the three loops of src/internal/discovery/datadog/provider.go).
 */
module Paging {
  import opened Wrappers

  datatype Fetched<T> = Fetched(items: seq<T>, requests: nat, failure: Option<string>)

  /** From the given page on: stop at the limit, at an error, or after a page that is not full. */
  function Fetch<T>(api: nat -> Result<seq<T>>, size: nat, limit: nat, page: nat): Fetched<T>
    decreases limit - page
  {
    if page >= limit then Fetched([], 0, None)
    else
      match api(page)
      case Err(e) => Fetched([], 1, Some(e))
      case Ok(data) =>
        if |data| < size then Fetched(data, 1, None)
        else
          var rest := Fetch(api, size, limit, page + 1);
          Fetched(data + rest.items, 1 + rest.requests, rest.failure)
  }

  function Min(a: int, b: int): int { if a < b then a else b }

  /** Page k of a list that does not change. */
  function Page<T>(items: seq<T>, size: nat, k: nat): seq<T> {
    items[Min(k * size, |items|)..Min((k + 1) * size, |items|)]
  }

  function Stable<T>(items: seq<T>, size: nat, failing: map<nat, string>): nat -> Result<seq<T>> {
    (k: nat) => if k in failing then Err(failing[k]) else Ok(Page(items, size, k))
  }

  /** The requests a sweep makes when none of them fails. */
  function Needed(n: nat, size: nat, limit: nat): nat
    requires size > 0
  {
    Min(limit, n / size + 1)
  }

  lemma Scaled(a: nat, b: nat, size: nat)
    requires a <= b
    ensures a * size <= b * size
  {
    assert b * size == a * size + (b - a) * size;
  }

  lemma QuotientBounds(n: nat, size: nat, k: nat)
    requires size > 0
    ensures k <= n / size <==> k * size <= n
  {
    var q := n / size;
    assert q * size <= n < q * size + size == (q + 1) * size;
    if k <= q {
      Scaled(k, q, size);
    } else {
      Scaled(q + 1, k, size);
    }
  }

  /** What a sweep that has read `got` in some requests ends with, given what the rest of it reads. */
  function Joined<T>(got: seq<T>, rest: Fetched<T>, requests: nat): Fetched<T> {
    Fetched(got + rest.items, requests + rest.requests, rest.failure)
  }

  lemma AfterPage<T>(api: nat -> Result<seq<T>>, size: nat, limit: nat, page: nat, got: seq<T>, data: seq<T>)
    requires page < limit && api(page) == Ok(data)
    ensures Joined(got, Fetch(api, size, limit, page), page)
            == if |data| < size then Fetched(got + data, page + 1, None)
               else Joined(got + data, Fetch(api, size, limit, page + 1), page + 1)
  {
    Assoc(got, data, Fetch(api, size, limit, page + 1).items);
  }

  /** At the page limit nothing more is read. */
  lemma AfterLimit<T>(api: nat -> Result<seq<T>>, size: nat, limit: nat, page: nat, got: seq<T>)
    requires page >= limit
    ensures Joined(got, Fetch(api, size, limit, page), page) == Fetched(got, page, None)
  {
    EmptyRight(got);
  }

  /** A page that fails ends the reading. */
  lemma AfterFailure<T>(api: nat -> Result<seq<T>>, size: nat, limit: nat, page: nat, got: seq<T>, e: string)
    requires page < limit && api(page) == Err(e)
    ensures Joined(got, Fetch(api, size, limit, page), page) == Fetched(got, page + 1, Some(e))
  {
    EmptyRight(got);
  }

  /** The items of the first n pages. */
  function Read<T>(api: nat -> Result<seq<T>>, n: nat): seq<T> {
    if n == 0 then []
    else Read(api, n - 1) + match api(n - 1) case Ok(data) => data case Err(_) => []
  }

  predicate AllFull<T>(api: nat -> Result<seq<T>>, size: nat, n: nat) {
    forall k | 0 <= k < n :: api(k).Ok? && |api(k).value| >= size
  }

  /** After n full pages: what they hold, and whatever the rest of the sweep reads. */
  lemma {:induction false} AfterFullPages<T>(api: nat -> Result<seq<T>>, size: nat, limit: nat, n: nat)
    requires n <= limit && AllFull(api, size, n)
    ensures Fetch(api, size, limit, 0) == Joined(Read(api, n), Fetch(api, size, limit, n), n)
  {
    if n > 0 {
      AfterFullPages(api, size, limit, n - 1);
      AfterPage(api, size, limit, n - 1, Read(api, n - 1), api(n - 1).value);
    } else {
      var all := Fetch(api, size, limit, 0).items;
      EmptyLeft(all);
    }
  }

  lemma {:induction false} StableRead<T>(items: seq<T>, size: nat, failing: map<nat, string>, n: nat)
    requires size > 0 && n * size <= |items| && forall k | 0 <= k < n :: k !in failing
    ensures AllFull(Stable(items, size, failing), size, n)
    ensures Read(Stable(items, size, failing), n) == items[..n * size]
  {
    if n > 0 {
      var a, b := (n - 1) * size, n * size;
      assert a + size == b;
      StableRead(items, size, failing, n - 1);
      assert Page(items, size, n - 1) == items[a..b];
      assert items[..a] + items[a..b] == items[..b];
    }
  }

  lemma SweepStops<T>(items: seq<T>, size: nat, limit: nat, failing: map<nat, string>, k: nat)
    requires size > 0 && k < Needed(|items|, size, limit) && k in failing
    requires forall j | 0 <= j < k :: j !in failing
    ensures k * size <= |items|
    ensures Fetch(Stable(items, size, failing), size, limit, 0) == Fetched(items[..k * size], k + 1, Some(failing[k]))
  {
    QuotientBounds(|items|, size, k);
    StableRead(items, size, failing, k);
    AfterFullPages(Stable(items, size, failing), size, limit, k);
    AfterFailure(Stable(items, size, failing), size, limit, k, items[..k * size], failing[k]);
  }

  lemma UpToLimit<T>(items: seq<T>, size: nat, limit: nat, failing: map<nat, string>)
    requires size > 0 && limit * size <= |items| && forall k | 0 <= k < limit :: k !in failing
    ensures Fetch(Stable(items, size, failing), size, limit, 0) == Fetched(items[..limit * size], limit, None)
  {
    var api := Stable(items, size, failing);
    StableRead(items, size, failing, limit);
    AfterFullPages(api, size, limit, limit);
    AfterLimit(api, size, limit, limit, items[..limit * size]);
  }

  /** The last page of a list is the rest of it, and not full. */
  lemma LastPage<T>(items: seq<T>, size: nat, q: nat)
    requires q * size <= |items| < q * size + size
    ensures Page(items, size, q) == items[q * size..]
  {
    assert (q + 1) * size == q * size + size;
  }

  lemma UpToEnd<T>(items: seq<T>, size: nat, limit: nat, failing: map<nat, string>, q: nat)
    requires q < limit && q * size <= |items| < q * size + size && forall k | 0 <= k <= q :: k !in failing
    ensures Fetch(Stable(items, size, failing), size, limit, 0) == Fetched(items, q + 1, None)
  {
    var api, a := Stable(items, size, failing), q * size;
    LastPage(items, size, q);
    StableRead(items, size, failing, q);
    AfterFullPages(api, size, limit, q);
    AfterPage(api, size, limit, q, items[..a], items[a..]);
    assert items[..a] + items[a..] == items;
  }

  lemma SweepEnds<T>(items: seq<T>, size: nat, limit: nat, failing: map<nat, string>)
    requires size > 0 && forall k | 0 <= k < Needed(|items|, size, limit) :: k !in failing
    ensures Fetch(Stable(items, size, failing), size, limit, 0)
            == Fetched(items[..Min(|items|, limit * size)], Needed(|items|, size, limit), None)
  {
    var q := |items| / size;
    QuotientBounds(|items|, size, limit);
    QuotientBounds(|items|, size, q);
    QuotientBounds(|items|, size, q + 1);
    if limit <= q {
      UpToLimit(items, size, limit, failing);
    } else {
      assert (q + 1) * size == q * size + size;
      UpToEnd(items, size, limit, failing, q);
    }
  }

  /**
   A sweep over a stable list reads its first items, each once and in order, up to the page limit and
   without reporting anything it left behind; a failing page leaves exactly the pages before it.
   */
  lemma SweepExact<T>(items: seq<T>, size: nat, limit: nat, failing: map<nat, string>)
    requires size > 0
    ensures var got := Fetch(Stable(items, size, failing), size, limit, 0);
            var needed := Needed(|items|, size, limit);
            && ((forall k | 0 <= k < needed :: k !in failing) ==>
                  got == Fetched(items[..Min(|items|, limit * size)], needed, None))
            && (forall k | 0 <= k < needed && k in failing && (forall j | 0 <= j < k :: j !in failing) ::
                  k * size <= |items| && got == Fetched(items[..k * size], k + 1, Some(failing[k])))
  {
    var needed := Needed(|items|, size, limit);
    if forall k | 0 <= k < needed :: k !in failing {
      SweepEnds(items, size, limit, failing);
    }
    forall k | 0 <= k < needed && k in failing && (forall j | 0 <= j < k :: j !in failing)
      ensures k * size <= |items|
      ensures Fetch(Stable(items, size, failing), size, limit, 0) == Fetched(items[..k * size], k + 1, Some(failing[k]))
    {
      SweepStops(items, size, limit, failing, k);
    }
  }

  /** Items are left behind, with no error to show it, exactly when there are more than the limit's pages hold. */
  lemma TruncationIsSilent<T>(items: seq<T>, size: nat, limit: nat)
    requires size > 0
    ensures var got := Fetch(Stable(items, size, map[]), size, limit, 0);
            got.failure.None? && (got.items == items <==> |items| <= limit * size)
  {
    SweepExact(items, size, limit, map[]);
  }
}
