/** The SM.MS provider of providers/sms.py: the page-by-page listing of the
    upload history with its limit and early stops, the image count read from
    the profile, and how download and connection outcomes are reported.
    HTTP is outside the model: the answers to the page requests are a
    sequence indexed by page number, and a request past its end raises. */
module Sms {
  import opened Wrappers
  import opened Images

  /** One entry of an upload-history page. */
  datatype HistoryEntry = HistoryEntry(
    url: string,
    filename: string,
    size: Option<int>,
    createdAt: Option<string>,
    hash: Option<string>,
    delete: Option<string>,
    page: Option<string>)

  /** The answer to `GET /upload_history?page=n`: an HTTP status, the
      truth of the JSON `success` field and the `data` list (empty when it
      is missing or falsy), or an exception. */
  datatype PageAnswer =
    | Page(status: int, success: bool, data: seq<HistoryEntry>)
    | PageRaised

  /** The API's page size: a shorter page is the last one. */
  const PerPage: nat := 100

  /** The answer to the request for page `n`. */
  function AnswerAt(pages: seq<PageAnswer>, n: nat): PageAnswer
  {
    if n < |pages| then pages[n] else PageRaised
  }

  /** The image record built for one history entry. */
  function Info(e: HistoryEntry): ImageInfo
  {
    ImageInfo(e.url, e.filename, e.size, e.createdAt,
              map["hash" := e.hash, "delete_url" := e.delete, "page_url" := e.page])
  }

  /** The records of the entries, in page order. */
  function Infos(es: seq<HistoryEntry>): (r: seq<ImageInfo>)
    ensures |r| == |es|
  {
    if es == [] then [] else [Info(es[0])] + Infos(es[1..])
  }

  /** The `i`-th record is the `i`-th entry's. */
  lemma {:induction false} InfosAt(es: seq<HistoryEntry>, i: nat)
    requires i < |es|
    ensures Infos(es)[i] == Info(es[i])
  {
    if i > 0 {
      InfosAt(es[1..], i - 1);
    }
  }

  /** Does the listing go on past page `n`'s answer? It stops at a failed
      status, an unsuccessful or empty answer, and a short page. */
  predicate Usable(a: PageAnswer)
  {
    a.Page? && a.status == 200 && a.success && a.data != []
  }

  /** The `while True` loop of `list_images` from page `n` on, with `count`
      images already yielded. */
  function Pages(pages: seq<PageAnswer>, n: nat, limit: Option<int>, count: nat): Enumeration
    decreases |pages| - n
  {
    if Reached(limit, count) then Enumeration([], false)
    else
      var a := AnswerAt(pages, n);
      if a.PageRaised? then Enumeration([], true)
      else if !Usable(a) then Enumeration([], false)
      else
        var taken := if Bounded(limit) then Take(a.data, limit.value - count) else a.data;
        var here := Infos(taken);
        if |a.data| < PerPage then Enumeration(here, false)
        else
          var rest := Pages(pages, n + 1, limit, count + |taken|);
          Enumeration(here + rest.items, rest.raised)
  }

  /** What the inner `for img in images` loop keeps of a page when
      `count` images were yielded before it. */
  function Kept(data: seq<HistoryEntry>, limit: Option<int>, count: int): seq<HistoryEntry>
  {
    if Bounded(limit) then Take(data, limit.value - count) else data
  }

  /** The inner loop: yield the page's entries until the limit is reached. */
  method YieldPage(data: seq<HistoryEntry>, limit: Option<int>, count: nat)
    returns (here: seq<ImageInfo>, count': nat)
    requires !Reached(limit, count)
    ensures here == Infos(Kept(data, limit, count)) && count' == count + |here|
  {
    here := [];
    count' := count;
    var j := 0;
    while j < |data|
      invariant 0 <= j <= |data| && count' == count + j && |here| == j
      invariant Bounded(limit) ==> j <= limit.value - count
      invariant forall k :: 0 <= k < j ==> here[k] == Info(data[k])
    {
      if Reached(limit, count') {
        break;
      }
      here := here + [Info(data[j])];
      count' := count' + 1;
      j := j + 1;
    }
    forall k | 0 <= k < |here|
      ensures here[k] == Infos(Kept(data, limit, count))[k]
    {
      InfosAt(Kept(data, limit, count), k);
    }
  }

  /** `Pages` with the images yielded so far carried along: the shape of
      the loop itself. */
  function Walk(pages: seq<PageAnswer>, n: nat, limit: Option<int>, count: nat, acc: seq<ImageInfo>): Enumeration
    decreases |pages| - n
  {
    if Reached(limit, count) then Enumeration(acc, false)
    else
      var a := AnswerAt(pages, n);
      if a.PageRaised? then Enumeration(acc, true)
      else if !Usable(a) then Enumeration(acc, false)
      else
        var here := Infos(Kept(a.data, limit, count));
        if |a.data| < PerPage then Enumeration(acc + here, false)
        else Walk(pages, n + 1, limit, count + |here|, acc + here)
  }

  lemma {:induction false} WalkIsPages(pages: seq<PageAnswer>, n: nat, limit: Option<int>, count: nat, acc: seq<ImageInfo>)
    ensures Walk(pages, n, limit, count, acc)
         == Enumeration(acc + Pages(pages, n, limit, count).items, Pages(pages, n, limit, count).raised)
    decreases |pages| - n
  {
    var a := AnswerAt(pages, n);
    if !Reached(limit, count) && Usable(a) && |a.data| >= PerPage {
      var here := Infos(Kept(a.data, limit, count));
      WalkIsPages(pages, n + 1, limit, count + |here|, acc + here);
      WalkFullPage(pages, n, limit, count, acc);
    } else {
      WalkLastPage(pages, n, limit, count, acc);
    }
  }

  /** Where the listing stops, the walk returns what it carries plus the
      last page's images. */
  lemma WalkLastPage(pages: seq<PageAnswer>, n: nat, limit: Option<int>, count: nat, acc: seq<ImageInfo>)
    requires !(!Reached(limit, count) && Usable(AnswerAt(pages, n)) && |AnswerAt(pages, n).data| >= PerPage)
    ensures Walk(pages, n, limit, count, acc)
         == Enumeration(acc + Pages(pages, n, limit, count).items, Pages(pages, n, limit, count).raised)
  {
    assert acc + [] == acc;
  }

  /** A full page moves its images from the listing to the carried
      part. */
  lemma WalkFullPage(pages: seq<PageAnswer>, n: nat, limit: Option<int>, count: nat, acc: seq<ImageInfo>)
    requires !Reached(limit, count) && Usable(AnswerAt(pages, n)) && |AnswerAt(pages, n).data| >= PerPage
    requires var here := Infos(Kept(AnswerAt(pages, n).data, limit, count));
      var rest := Pages(pages, n + 1, limit, count + |here|);
      Walk(pages, n + 1, limit, count + |here|, acc + here) == Enumeration(acc + here + rest.items, rest.raised)
    ensures Walk(pages, n, limit, count, acc)
         == Enumeration(acc + Pages(pages, n, limit, count).items, Pages(pages, n, limit, count).raised)
  {
    var here := Infos(Kept(AnswerAt(pages, n).data, limit, count));
    var rest := Pages(pages, n + 1, limit, count + |here|);
    assert acc + here + rest.items == acc + (here + rest.items);
  }

  /** `list_images(limit)`, consumed to the end. `requested` is the number
      of pages asked for: they are 0, 1, 2, ... and every page but the last
      one requested was a full, successful page. */
  method ListImages(pages: seq<PageAnswer>, limit: Option<int>)
    returns (items: seq<ImageInfo>, raised: bool, requested: nat)
    ensures Enumeration(items, raised) == Pages(pages, 0, limit, 0)
    ensures requested <= |pages| + 1
    ensures forall p :: 0 <= p < requested - 1 ==> Usable(pages[p]) && |pages[p].data| >= PerPage
  {
    items, raised, requested := WalkPages(pages, limit);
    WalkIsPages(pages, 0, limit, 0, []);
  }

  /** The `while True` loop itself. */
  method WalkPages(pages: seq<PageAnswer>, limit: Option<int>)
    returns (items: seq<ImageInfo>, raised: bool, requested: nat)
    ensures Enumeration(items, raised) == Walk(pages, 0, limit, 0, [])
    ensures requested <= |pages| + 1
    ensures forall p :: 0 <= p < requested - 1 ==> Usable(pages[p]) && |pages[p].data| >= PerPage
  {
    ghost var whole := Walk(pages, 0, limit, 0, []);
    items := [];
    raised := false;
    requested := 0;
    var count := 0;
    var page := 0;
    while true
      invariant page <= |pages| && requested == page && count == |items|
      invariant forall p :: 0 <= p < page ==> Usable(pages[p]) && |pages[p].data| >= PerPage
      invariant Walk(pages, page, limit, count, items) == whole
      decreases |pages| - page
    {
      var stop, asked;
      stop, asked, raised, count, items := Turn(pages, page, limit, count, items);
      if asked {
        requested := page + 1;
      }
      if stop {
        return;
      }
      page := page + 1;
    }
  }

  /** One turn of that loop at page `n` with `count == |acc|` images
      yielded: whether the loop stops, whether page `n` was requested, and
      the state after the turn. */
  method Turn(pages: seq<PageAnswer>, n: nat, limit: Option<int>, count: nat, acc: seq<ImageInfo>)
    returns (stop: bool, asked: bool, raised: bool, count': nat, acc': seq<ImageInfo>)
    requires count == |acc|
    ensures asked <==> !Reached(limit, count)
    ensures stop ==> Walk(pages, n, limit, count, acc) == Enumeration(acc', raised)
    ensures !stop ==> && asked && n < |pages| && Usable(pages[n]) && |pages[n].data| >= PerPage
                      && count' == |acc'| && !raised
                      && Walk(pages, n, limit, count, acc) == Walk(pages, n + 1, limit, count', acc')
  {
    stop, raised, count', acc' := true, false, count, acc;
    asked := !Reached(limit, count);
    if !asked {
      return;
    }
    var a := AnswerAt(pages, n);
    if a.PageRaised? || a.status != 200 || !a.success || a.data == [] {
      raised := a.PageRaised?;
      return;
    }
    var here;
    here, count' := YieldPage(a.data, limit, count);
    WalkStep(pages, n, limit, count, acc);
    acc' := acc + here;
    stop := |a.data| < PerPage;
  }

  /** One page of the walk, when the limit is not yet reached and the page
      is usable: a short page ends it, a full one moves on. */
  lemma WalkStep(pages: seq<PageAnswer>, n: nat, limit: Option<int>, count: nat, acc: seq<ImageInfo>)
    requires !Reached(limit, count) && Usable(AnswerAt(pages, n))
    ensures var a := AnswerAt(pages, n);
      var here := Infos(Kept(a.data, limit, count));
      Walk(pages, n, limit, count, acc)
        == if |a.data| < PerPage then Enumeration(acc + here, false)
           else Walk(pages, n + 1, limit, count + |here|, acc + here)
  {
  }

  lemma {:induction false} InfosPrefix(data: seq<HistoryEntry>, m: nat)
    requires m <= |data|
    ensures Infos(data[..m]) == Infos(data)[..m]
  {
    if m > 0 {
      InfosPrefix(data[1..], m - 1);
      assert data[..m][1..] == data[1..][..m - 1];
    }
  }

  lemma InfosTake(data: seq<HistoryEntry>, k: int)
    ensures Infos(Take(data, k)) == Take(Infos(data), k)
  {
    InfosPrefix(data, |Take(data, k)|);
  }

  /** Without a bound the count is never consulted. */
  lemma {:induction false} UnboundedIgnoresCount(pages: seq<PageAnswer>, n: nat, limit: Option<int>, c1: nat, c2: nat)
    requires !Bounded(limit)
    ensures Pages(pages, n, limit, c1) == Pages(pages, n, None, c2)
    decreases |pages| - n
  {
    var a := AnswerAt(pages, n);
    if Usable(a) && |a.data| >= PerPage {
      UnboundedIgnoresCount(pages, n + 1, limit, c1 + |a.data|, c2 + |a.data|);
      UnboundedFullPage(pages, n, limit, c1, c2);
    } else {
      UnboundedLastPage(pages, n, limit, c1, c2);
    }
  }

  /** A page that ends the unbounded listing ends it whatever the count. */
  lemma UnboundedLastPage(pages: seq<PageAnswer>, n: nat, limit: Option<int>, c1: nat, c2: nat)
    requires !Bounded(limit) && !(Usable(AnswerAt(pages, n)) && |AnswerAt(pages, n).data| >= PerPage)
    ensures Pages(pages, n, limit, c1) == Pages(pages, n, None, c2)
  {
  }

  /** A full page is yielded whole before the next one, whatever the
      count. */
  lemma UnboundedFullPage(pages: seq<PageAnswer>, n: nat, limit: Option<int>, c1: nat, c2: nat)
    requires !Bounded(limit) && Usable(AnswerAt(pages, n)) && |AnswerAt(pages, n).data| >= PerPage
    requires Pages(pages, n + 1, limit, c1 + |AnswerAt(pages, n).data|) == Pages(pages, n + 1, None, c2 + |AnswerAt(pages, n).data|)
    ensures Pages(pages, n, limit, c1) == Pages(pages, n, None, c2)
  {
  }

  /** A truthy limit cuts the unbounded listing after `limit - count`
      further images, and the listing then raises only if the unbounded one
      raises before reaching that many. */
  lemma {:induction false} BoundedPages(pages: seq<PageAnswer>, n: nat, limit: Option<int>, count: nat)
    requires Bounded(limit)
    ensures Pages(pages, n, limit, count).items == Take(Pages(pages, n, None, count).items, limit.value - count)
    ensures Pages(pages, n, limit, count).raised
        <==> Pages(pages, n, None, count).raised && |Pages(pages, n, None, count).items| < limit.value - count
    decreases |pages| - n, 1
  {
    if !Reached(limit, count) && Usable(AnswerAt(pages, n)) && |AnswerAt(pages, n).data| >= PerPage {
      BoundedFullPage(pages, n, limit, count);
    } else {
      BoundedLastPage(pages, n, limit, count);
    }
  }

  /** Where the unbounded listing stops at page `n`, or the limit is
      already reached, the bounded one keeps what the limit allows of it. */
  lemma BoundedLastPage(pages: seq<PageAnswer>, n: nat, limit: Option<int>, count: nat)
    requires Bounded(limit)
    requires !(!Reached(limit, count) && Usable(AnswerAt(pages, n)) && |AnswerAt(pages, n).data| >= PerPage)
    ensures Pages(pages, n, limit, count).items == Take(Pages(pages, n, None, count).items, limit.value - count)
    ensures Pages(pages, n, limit, count).raised
        <==> Pages(pages, n, None, count).raised && |Pages(pages, n, None, count).items| < limit.value - count
  {
    var a := AnswerAt(pages, n);
    if !Reached(limit, count) && Usable(a) {
      InfosTake(a.data, limit.value - count);
    }
  }

  /** A full page: the bounded listing keeps the first `limit - count` of
      the page followed by what it keeps of the rest. */
  lemma {:induction false} BoundedFullPage(pages: seq<PageAnswer>, n: nat, limit: Option<int>, count: nat)
    requires Bounded(limit) && !Reached(limit, count)
    requires Usable(AnswerAt(pages, n)) && |AnswerAt(pages, n).data| >= PerPage
    ensures Pages(pages, n, limit, count).items == Take(Pages(pages, n, None, count).items, limit.value - count)
    ensures Pages(pages, n, limit, count).raised
        <==> Pages(pages, n, None, count).raised && |Pages(pages, n, None, count).items| < limit.value - count
    decreases |pages| - n, 0
  {
    var a := AnswerAt(pages, n);
    var c' := count + |Infos(Kept(a.data, limit, count))|;
    BoundedPages(pages, n + 1, limit, c');
    UnboundedIgnoresCount(pages, n + 1, None, c', count + |a.data|);
    FullPageCut(pages, n, limit, count);
  }

  /** The step of the above once the rest of the listing is known: the cut
      of the rest, and the rest being the same whatever the count. */
  lemma FullPageCut(pages: seq<PageAnswer>, n: nat, limit: Option<int>, count: nat)
    requires Bounded(limit) && !Reached(limit, count)
    requires Usable(AnswerAt(pages, n)) && |AnswerAt(pages, n).data| >= PerPage
    requires var c' := count + |Infos(Kept(AnswerAt(pages, n).data, limit, count))|;
             && Pages(pages, n + 1, limit, c').items == Take(Pages(pages, n + 1, None, c').items, limit.value - c')
             && (Pages(pages, n + 1, limit, c').raised
                 <==> Pages(pages, n + 1, None, c').raised && |Pages(pages, n + 1, None, c').items| < limit.value - c')
             && Pages(pages, n + 1, None, c') == Pages(pages, n + 1, None, count + |AnswerAt(pages, n).data|)
    ensures Pages(pages, n, limit, count).items == Take(Pages(pages, n, None, count).items, limit.value - count)
    ensures Pages(pages, n, limit, count).raised
        <==> Pages(pages, n, None, count).raised && |Pages(pages, n, None, count).items| < limit.value - count
  {
    var a := AnswerAt(pages, n);
    var k := limit.value - count;
    var all := Infos(a.data);
    var here := Infos(Kept(a.data, limit, count));
    var c' := count + |here|;
    FullPageUnbounded(pages, n, count);
    PagesFullPage(pages, n, limit, count);
    InfosTake(a.data, k);
    CutListing(Pages(pages, n, None, count), Pages(pages, n, limit, count), all, here,
               Pages(pages, n + 1, None, c'), Pages(pages, n + 1, limit, c'), k);
  }

  /** The last step of the above over plain values: a listing made of
      `all` then `rest`, and its cut made of `here`, the first `k` of
      `all`, then `restB`, what the limit left over keeps of `rest`. */
  lemma CutListing(whole: Enumeration, cut: Enumeration, all: seq<ImageInfo>, here: seq<ImageInfo>,
                   rest: Enumeration, restB: Enumeration, k: int)
    requires k > 0 && here == Take(all, k)
    requires whole == Enumeration(all + rest.items, rest.raised)
    requires cut == Enumeration(here + restB.items, restB.raised)
    requires restB.items == Take(rest.items, k - |here|)
    requires restB.raised <==> rest.raised && |rest.items| < k - |here|
    ensures cut.items == Take(whole.items, k)
    ensures cut.raised <==> whole.raised && |whole.items| < k
  {
    TakeAfterPrefix(all, here, rest.items, restB.items, rest.raised, restB.raised, k);
  }

  /** A full page of the unbounded listing comes whole before the next
      page's listing. */
  lemma FullPageUnbounded(pages: seq<PageAnswer>, n: nat, count: nat)
    requires Usable(AnswerAt(pages, n)) && |AnswerAt(pages, n).data| >= PerPage
    ensures var rest := Pages(pages, n + 1, None, count + |AnswerAt(pages, n).data|);
      Pages(pages, n, None, count) == Enumeration(Infos(AnswerAt(pages, n).data) + rest.items, rest.raised)
  {
    PagesFullPage(pages, n, None, count);
    assert Kept(AnswerAt(pages, n).data, None, count) == AnswerAt(pages, n).data;
  }

  /** A full page not cut by the limit: its kept images come before the
      next page's listing. */
  lemma PagesFullPage(pages: seq<PageAnswer>, n: nat, limit: Option<int>, count: nat)
    requires !Reached(limit, count) && Usable(AnswerAt(pages, n)) && |AnswerAt(pages, n).data| >= PerPage
    ensures var here := Infos(Kept(AnswerAt(pages, n).data, limit, count));
      var rest := Pages(pages, n + 1, limit, count + |here|);
      Pages(pages, n, limit, count) == Enumeration(here + rest.items, rest.raised)
  {
  }

  /** Cutting `all + rest` at `k` is cutting `all` at `k` and then `rest`
      at what is left; the cut listing raises when the rest raises before
      the cut. */
  lemma TakeAfterPrefix<T>(all: seq<T>, here: seq<T>, rest: seq<T>, restB: seq<T>, raised: bool, raisedB: bool, k: int)
    requires k > 0 && here == Take(all, k)
    requires restB == Take(rest, k - |here|)
    requires raisedB <==> raised && |rest| < k - |here|
    ensures here + restB == Take(all + rest, k)
    ensures raisedB <==> raised && |all + rest| < k
  {
    TakeAppend(all, rest, k);
    if k <= |all| {
      assert restB == [];
    }
  }

  /** `list_images(limit)` against the unbounded listing: at most `limit`
      images when the limit is truthy, all of them when it is None or 0. */
  lemma LimitBoundsListing(pages: seq<PageAnswer>, limit: Option<int>)
    ensures Pages(pages, 0, limit, 0).items == Bound(Pages(pages, 0, None, 0).items, limit)
    ensures Pages(pages, 0, limit, 0).raised
        <==> Pages(pages, 0, None, 0).raised && (!Bounded(limit) || |Pages(pages, 0, None, 0).items| < limit.value)
  {
    if Bounded(limit) {
      BoundedPages(pages, 0, limit, 0);
    } else {
      UnboundedIgnoresCount(pages, 0, limit, 0, 0);
    }
  }

  /** The history entries the unbounded listing walks from page `n` on:
      every full, usable page whole, then the page that ends the listing
      when it is usable. A reference read off the page answers alone. */
  function Entries(pages: seq<PageAnswer>, n: nat): seq<HistoryEntry>
    decreases |pages| - n
  {
    var a := AnswerAt(pages, n);
    if !Usable(a) then []
    else if |a.data| < PerPage then a.data
    else a.data + Entries(pages, n + 1)
  }

  /** The request that ends the unbounded listing raised. */
  predicate EndsRaising(pages: seq<PageAnswer>, n: nat)
    decreases |pages| - n
  {
    var a := AnswerAt(pages, n);
    if a.PageRaised? then true
    else if !Usable(a) || |a.data| < PerPage then false
    else EndsRaising(pages, n + 1)
  }

  lemma {:induction false} InfosAppend(a: seq<HistoryEntry>, b: seq<HistoryEntry>)
    ensures Infos(a + b) == Infos(a) + Infos(b)
  {
    if a == [] {
      assert a + b == b;
    } else {
      assert (a + b)[0] == a[0] && (a + b)[1..] == a[1..] + b;
      InfosAppend(a[1..], b);
    }
  }

  /** Without a limit the listing is the records of `Entries`, in page
      order and then in entry order, and it raises exactly when the request
      that ends it does. */
  lemma {:induction false} UnboundedListing(pages: seq<PageAnswer>, n: nat, count: nat)
    ensures Pages(pages, n, None, count) == Enumeration(Infos(Entries(pages, n)), EndsRaising(pages, n))
    decreases |pages| - n
  {
    var a := AnswerAt(pages, n);
    if Usable(a) && |a.data| >= PerPage {
      UnboundedListing(pages, n + 1, count + |a.data|);
      InfosAppend(a.data, Entries(pages, n + 1));
    }
  }

  /** `list_images(limit)` against the page answers: the records of the
      history entries cut at a truthy limit; it raises only when the ending
      request does and the limit was not met before it. */
  lemma ListingIsHistory(pages: seq<PageAnswer>, limit: Option<int>)
    ensures Pages(pages, 0, limit, 0).items == Bound(Infos(Entries(pages, 0)), limit)
    ensures Pages(pages, 0, limit, 0).raised
        <==> EndsRaising(pages, 0) && (!Bounded(limit) || |Entries(pages, 0)| < limit.value)
  {
    LimitBoundsListing(pages, limit);
    UnboundedListing(pages, 0, 0);
  }

  /** The answer to a plain request: an HTTP status, or an exception. */
  datatype Reply = Reply(status: int) | ReplyRaised

  /** `response.raise_for_status()` raises for client and server errors. */
  predicate FailsStatus(status: int)
  {
    400 <= status < 600
  }

  /** `download_image`: the GET of the image URL, then writing the body to
      the output file (`writeFaults` when the directory, the file or the
      stream raises). Every fault is caught and reads as False. */
  function DownloadImage(get: Reply, writeFaults: bool): (ok: bool)
    ensures ok ==> get.Reply? && !writeFaults
    ensures get.Reply? && !FailsStatus(get.status) && !writeFaults ==> ok
    ensures get.Reply? && FailsStatus(get.status) ==> !ok
  {
    match get
    case ReplyRaised => false
    case Reply(status) => !FailsStatus(status) && !writeFaults
  }

  /** `test_connection`: the profile endpoint answers 200; an exception
      reads as False. */
  function TestConnection(profile: Reply): (ok: bool)
    ensures ok <==> profile == Reply(200)
  {
    profile.Reply? && profile.status == 200
  }

  /** The answer to `GET /profile`: the status, the truth of `success` and
      `data.disk_usage_raw.upload_count` (None when missing), or an
      exception. */
  datatype ProfileAnswer =
    | Profile(status: int, success: bool, uploadCount: Option<int>)
    | ProfileRaised

  /** `get_image_count`: the profile's upload count, None unless the status
      is 200 and `success` is set, and None on any exception. */
  function GetImageCount(a: ProfileAnswer): (r: Option<int>)
    ensures r.Some? ==> a.Profile? && a.status == 200 && a.success && r == a.uploadCount
    ensures a.Profile? && a.status == 200 && a.success ==> r == a.uploadCount
    ensures a.ProfileRaised? ==> r == None
  {
    if a.Profile? && a.status == 200 && a.success then a.uploadCount else None
  }
}
