/** The Paginator of src/v2/paginator.ts: it walks a list endpoint page by
    page, first the page it was started with, then each page's `next` link,
    and reports null once no link is left. */
module Paginator {
  import opened Js
  import opened V2Types

  /** How the promise handed to begin settles. */
  datatype Settled<T> = Fulfilled(page: APIList<T>) | Rejected(error: Error)

  /** The paginator's two fields: the queued first page and the last page
      read. */
  datatype Cursor<T> = Cursor(queued: Option<Settled<T>>, previous: Option<APIList<T>>)

  /** What one call of next produces: the page's results, null, or the
      rejection it passes on. */
  datatype Pulled<T> = Items(results: seq<T>) | Exhausted | Failed(error: Error)

  /** One call of next: the new fields, what it produced, and the link it
      asked the executor for, if any. */
  datatype Step<T> = Step(after: Cursor<T>, pulled: Pulled<T>, requested: Option<string>)

  /** `previousResult && previousResult.next`. */
  predicate HasNextLink<T>(c: Cursor<T>) {
    c.previous.Some? && TruthyText(c.previous.value.next)
  }

  /** next(): the queued page first (cleared once it fulfils, kept when it
      rejects, since the await throws before the field is reset); otherwise
      the page behind the last page's `next` link (the fields untouched when
      that request fails); otherwise null. `fetchPage` stands for
      `executor.execute(link)` with its result read as a page. */
  function NextStep<T(==)>(c: Cursor<T>, fetchPage: string -> Result<APIList<T>, Error>): (s: Step<T>)
    ensures s.pulled.Exhausted? <==> c.queued.None? && !HasNextLink(c)
    ensures s.pulled.Items? ==> s.after.queued.None? && s.after.previous.Some? && s.after.previous.value.results == s.pulled.results
    ensures !s.pulled.Items? ==> s.after == c
    ensures s.requested.Some? <==> c.queued.None? && HasNextLink(c)
    ensures s.requested.Some? ==> Some(s.requested.value) == c.previous.value.next
    ensures s.requested.Some? && s.pulled.Items? ==> fetchPage(s.requested.value) == Ok(s.after.previous.value)
    ensures c.queued.Some? && c.queued.value.Fulfilled? ==> s.after == Cursor(None, Some(c.queued.value.page))
    ensures c.queued.Some? && c.queued.value.Rejected? ==> s.pulled == Failed(c.queued.value.error)
    ensures s.requested.Some? && !s.pulled.Items? ==>
      fetchPage(s.requested.value).Err? && s.pulled == Failed(fetchPage(s.requested.value).error)
  {
    if c.queued.Some? then
      match c.queued.value
      case Fulfilled(page) => Step(Cursor(None, Some(page)), Items(page.results), None)
      case Rejected(e) => Step(c, Failed(e), None)
    else if HasNextLink(c) then
      var link := c.previous.value.next.value;
      match fetchPage(link)
      case Ok(page) => Step(Cursor(None, Some(page)), Items(page.results), Some(link))
      case Err(e) => Step(c, Failed(e), Some(link))
    else
      Step(c, Exhausted, None)
  }

  /** What n successive calls of next produce. */
  function Drive<T(==)>(c: Cursor<T>, fetchPage: string -> Result<APIList<T>, Error>, n: nat): (r: seq<Pulled<T>>)
    ensures |r| == n
    ensures n > 0 ==> r[0] == NextStep(c, fetchPage).pulled
    decreases n
  {
    if n == 0 then [] else
      var s := NextStep(c, fetchPage);
      [s.pulled] + Drive(s.after, fetchPage, n - 1)
  }

  /** The links the executor is asked for during n successive calls of
      next, in order. */
  function Requested<T(==)>(c: Cursor<T>, fetchPage: string -> Result<APIList<T>, Error>, n: nat): (r: seq<string>)
    ensures |r| <= n
    decreases n
  {
    if n == 0 then [] else
      var s := NextStep(c, fetchPage);
      (if s.requested.Some? then [s.requested.value] else []) + Requested(s.after, fetchPage, n - 1)
  }

  /** The `next` link of each page, in order. */
  function Links<T>(pages: seq<APIList<T>>): (r: seq<string>)
    ensures |r| == |pages|
  {
    seq(|pages|, i requires 0 <= i < |pages| => OptText(pages[i].next))
  }

  /** The results of each page, in order. */
  function Pulls<T>(pages: seq<APIList<T>>): (r: seq<Pulled<T>>)
    ensures |r| == |pages|
    ensures forall i :: 0 <= i < |pages| ==> r[i] == Items(pages[i].results)
  {
    if pages == [] then [] else [Items(pages[0].results)] + Pulls(pages[1..])
  }

  /** pages is a chain the server serves: each page but the last links to
      the next one, and the last has no link. */
  predicate Chained<T(==)>(pages: seq<APIList<T>>, fetchPage: string -> Result<APIList<T>, Error>) {
    |pages| > 0
    && (forall i :: 0 <= i < |pages| - 1 ==>
          TruthyText(pages[i].next) && fetchPage(pages[i].next.value) == Ok(pages[i + 1]))
    && !TruthyText(pages[|pages| - 1].next)
  }

  /** The paginator the content item APIs create: no queued page, no
      previous page. */
  function Fresh<T>(): Cursor<T> {
    Cursor(None, None)
  }

  /** begin(initial): queues the first page and keeps the previous one. */
  function BeginCursor<T>(c: Cursor<T>, initial: Settled<T>): (r: Cursor<T>)
    ensures r.queued == Some(initial) && r.previous == c.previous
  {
    c.(queued := Some(initial))
  }

  /** A paginator that was never begun returns null at once, without asking
      the executor for anything, and changes nothing. */
  lemma FreshIsExhausted<T>(fetchPage: string -> Result<APIList<T>, Error>)
    ensures NextStep(Fresh(), fetchPage) == Step(Fresh(), Exhausted, None)
  {
  }

  /** Once next has returned null, it returns null on every later call. */
  lemma {:induction false} ExhaustedStays<T>(c: Cursor<T>, fetchPage: string -> Result<APIList<T>, Error>, n: nat)
    requires NextStep(c, fetchPage).pulled.Exhausted?
    ensures forall i :: 0 <= i < n ==> Drive(c, fetchPage, n)[i] == Exhausted
    decreases n
  {
    if n > 0 {
      ExhaustedStays(c, fetchPage, n - 1);
      assert Drive(c, fetchPage, n) == [Exhausted] + Drive(c, fetchPage, n - 1);
    }
  }

  /** A rejected first page is rethrown by every call of next: the queued
      promise is never cleared. */
  lemma {:induction false} RejectionRepeats<T>(previous: Option<APIList<T>>, e: Error,
                                                fetchPage: string -> Result<APIList<T>, Error>, n: nat)
    ensures forall i :: 0 <= i < n ==> Drive(Cursor(Some(Rejected(e)), previous), fetchPage, n)[i] == Failed(e)
    decreases n
  {
    if n > 0 {
      RejectionRepeats(previous, e, fetchPage, n - 1);
      var c := Cursor(Some(Rejected(e)), previous);
      assert Drive(c, fetchPage, n) == [Failed(e)] + Drive(c, fetchPage, n - 1);
    }
  }

  /** From the last page read, the pages after it come out in order, then
      null. */
  lemma {:induction false} FollowsChain<T>(pages: seq<APIList<T>>, fetchPage: string -> Result<APIList<T>, Error>)
    requires Chained(pages, fetchPage)
    ensures Drive(Cursor(None, Some(pages[0])), fetchPage, |pages|) == Pulls(pages[1..]) + [Exhausted]
    ensures Requested(Cursor(None, Some(pages[0])), fetchPage, |pages|) == Links(pages[..|pages| - 1])
    decreases |pages|
  {
    var c := Cursor(None, Some(pages[0]));
    if |pages| == 1 {
      assert !HasNextLink(c);
      assert Requested(c, fetchPage, 1) == [] + Requested(c, fetchPage, 0);
    } else {
      var rest := pages[1..];
      ChainedTail(pages, fetchPage);
      StepAlongChain(pages, fetchPage);
      FollowsChain(rest, fetchPage);
      assert Pulls(pages[1..]) == [Items(pages[1].results)] + Pulls(pages[2..]) by {
        assert pages[1..][1..] == pages[2..];
      }
      var k := |pages|;
      assert Requested(c, fetchPage, k) == [pages[0].next.value] + Links(rest[..k - 2]);
      LinksOfPrefix(pages);
    }
  }

  /** The pages after the first of a chain are a chain too. */
  lemma {:induction false} ChainedTail<T>(pages: seq<APIList<T>>, fetchPage: string -> Result<APIList<T>, Error>)
    requires Chained(pages, fetchPage) && |pages| > 1
    ensures Chained(pages[1..], fetchPage)
  {
    var rest := pages[1..];
    forall i | 0 <= i < |rest| - 1
      ensures TruthyText(rest[i].next) && fetchPage(rest[i].next.value) == Ok(rest[i + 1])
    {
      assert rest[i] == pages[i + 1] && rest[i + 1] == pages[i + 2];
    }
  }

  /** One call of next along a chain: the linked page is fetched and its
      results come out. */
  lemma {:induction false} StepAlongChain<T>(pages: seq<APIList<T>>, fetchPage: string -> Result<APIList<T>, Error>)
    requires Chained(pages, fetchPage) && |pages| > 1
    ensures NextStep(Cursor(None, Some(pages[0])), fetchPage)
            == Step(Cursor(None, Some(pages[1])), Items(pages[1].results), pages[0].next)
  {
    assert HasNextLink(Cursor(None, Some(pages[0])));
  }

  /** The links of all pages but the last, taken one page at a time. */
  lemma {:induction false} LinksOfPrefix<T>(pages: seq<APIList<T>>)
    requires |pages| > 1
    ensures Links(pages[..|pages| - 1]) == [OptText(pages[0].next)] + Links(pages[1..][..|pages| - 2])
  {
  }

  /** A paginator begun with the first page of a chain yields every page's
      results in order and then null, having requested exactly the `next`
      links of all pages but the last. */
  lemma {:induction false} WalksWholeChain<T>(pages: seq<APIList<T>>, fetchPage: string -> Result<APIList<T>, Error>)
    requires Chained(pages, fetchPage)
    ensures Drive(BeginCursor(Fresh(), Fulfilled(pages[0])), fetchPage, |pages| + 1) == Pulls(pages) + [Exhausted]
    ensures Requested(BeginCursor(Fresh(), Fulfilled(pages[0])), fetchPage, |pages| + 1) == Links(pages[..|pages| - 1])
  {
    var c := BeginCursor(Fresh(), Fulfilled(pages[0]));
    assert NextStep(c, fetchPage).after == Cursor(None, Some(pages[0]));
    assert NextStep(c, fetchPage).requested == None;
    FollowsChain(pages, fetchPage);
    assert Requested(c, fetchPage, |pages| + 1) == [] + Requested(Cursor(None, Some(pages[0])), fetchPage, |pages|);
    assert Pulls(pages) == [Items(pages[0].results)] + Pulls(pages[1..]);
  }

  /** The Paginator object; `fetchPage` stands for its executor. */
  class Paginator<T(==)> {
    var queued: Option<Settled<T>>
    var previousResult: Option<APIList<T>>
    const fetchPage: string -> Result<APIList<T>, Error>

    /** `new Paginator(executor)`, as `pagination()` creates it. */
    constructor (fetchPage: string -> Result<APIList<T>, Error>)
      ensures Cursor(queued, previousResult) == Fresh()
      ensures this.fetchPage == fetchPage
    {
      queued := None;
      previousResult := None;
      this.fetchPage := fetchPage;
    }

    function State(): Cursor<T>
      reads this
    {
      Cursor(queued, previousResult)
    }

    /** begin(initial): queue the first page; returns the paginator itself. */
    method Begin(initial: Settled<T>) returns (self: Paginator<T>)
      modifies this
      ensures self == this
      ensures State() == BeginCursor(old(State()), initial)
    {
      queued := Some(initial);
      self := this;
    }

    /** next(): one step of NextStep on the fields. */
    method Next() returns (pulled: Pulled<T>, requested: Option<string>)
      modifies this
      ensures NextStep(old(State()), fetchPage) == Step(State(), pulled, requested)
    {
      requested := None;
      if queued.Some? {
        match queued.value
        case Fulfilled(page) =>
          queued := None;
          previousResult := Some(page);
          pulled := Items(page.results);
        case Rejected(e) =>
          pulled := Failed(e);
      } else if previousResult.Some? && TruthyText(previousResult.value.next) {
        var link := previousResult.value.next.value;
        requested := Some(link);
        match fetchPage(link)
        case Ok(page) =>
          previousResult := Some(page);
          pulled := Items(page.results);
        case Err(e) =>
          pulled := Failed(e);
      } else {
        pulled := Exhausted;
      }
    }

    /** hasNext(): true exactly when the next call of next will not return
        null. */
    function HasNext(): (b: bool)
      reads this
      ensures b <==> !NextStep(State(), fetchPage).pulled.Exhausted?
    {
      queued.Some? || (previousResult.Some? && TruthyText(previousResult.value.next))
    }
  }
}
