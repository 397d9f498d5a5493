/** The bounded collection loop of scripts/collect-dmm-items.py. The server is a function of the request
    number and the requested offset and size, so it may answer anything at any time. */
module Pagination {
  import opened Text

  const HITS := 50

  /** What a request brings: a transport, JSON, status or structure error, or a result. `None` among the ids
      is an item without a usable content id; a missing count is one that is not an integer. */
  datatype Response = Broken | Listed(ids: seq<Option<string>>, count: Option<int>, total: Option<int>)

  type Server = (nat, int, int) -> Response

  datatype Page = Page(offset: int, hits: int, ids: seq<string>, total: int)

  datatype StopReason = MaxItems | MaxPages | ApiEnd

  datatype Collected =
    | Failure(requests: nat)
    | Success(pages: seq<Page>, count: int, duplicates: set<string>, totalChanged: bool, complete: bool,
              reason: StopReason)

  predicate Usable(ids: seq<Option<string>>) { forall i :: 0 <= i < |ids| ==> ids[i].Some? }

  /** The checks on one answer. */
  predicate Accepted(r: Response, hits: int) {
    && r.Listed? && r.count == Some(|r.ids|) && |r.ids| <= hits
    && r.total.Some? && r.total.value >= 0 && Usable(r.ids)
  }

  function Values(ids: seq<Option<string>>): (r: seq<string>)
    requires Usable(ids)
    ensures |r| == |ids| && forall i :: 0 <= i < |ids| ==> r[i] == ids[i].value
  {
    seq(|ids|, i requires 0 <= i < |ids| => ids[i].value)
  }

  // ---------- What a run of pages is ----------

  function Count(pages: seq<Page>): nat {
    if pages == [] then 0 else Count(pages[..|pages| - 1]) + |pages[|pages| - 1].ids|
  }

  function Min(a: int, b: int): int { if a <= b then a else b }

  /** The page is the accepted answer to the request that the pages before it lead to. */
  predicate PageOk(serve: Server, pages: seq<Page>, i: nat, maxItems: int)
    requires i < |pages|
  {
    var p := pages[i];
    && p.offset == 1 + Count(pages[..i]) && p.hits == Min(HITS, maxItems - Count(pages[..i])) && p.hits >= 1
    && var r := serve(i, p.offset, p.hits);
    && Accepted(r, p.hits) && p.ids == Values(r.ids) && p.total == r.total.value
  }

  predicate Run(serve: Server, pages: seq<Page>, maxItems: int) {
    && (forall i :: 0 <= i < |pages| ==> PageOk(serve, pages, i, maxItems))
    && (forall i :: 0 <= i < |pages| - 1 ==> |pages[i].ids| == pages[i].hits == HITS)
  }

  predicate OnPage(pages: seq<Page>, i: int, id: string) { 0 <= i < |pages| && id in pages[i].ids }

  predicate Repeated(pages: seq<Page>, id: string) {
    exists i, j :: 0 <= i < j < |pages| && OnPage(pages, i, id) && OnPage(pages, j, id)
  }

  predicate Seen(pages: seq<Page>, id: string) { exists i :: 0 <= i < |pages| && OnPage(pages, i, id) }

  /** Why a run ends with its last page: the order of the checks in the source. */
  function Stop(pages: seq<Page>, maxItems: int, maxPages: int): Option<(bool, StopReason)>
    requires pages != []
  {
    var last := pages[|pages| - 1];
    if Count(pages) >= maxItems then Some((false, MaxItems))
    else if |pages| >= maxPages then Some((false, MaxPages))
    else if |last.ids| < last.hits then Some((true, ApiEnd))
    else if last.offset + last.hits > last.total then Some((true, ApiEnd))
    else None
  }

  lemma {:induction false} CountAppend(pages: seq<Page>, p: Page)
    ensures Count(pages + [p]) == Count(pages) + |p.ids|
  {
    assert (pages + [p])[..|pages|] == pages;
  }

  lemma {:induction false} RunAppend(serve: Server, pages: seq<Page>, p: Page, maxItems: int)
    requires Run(serve, pages, maxItems) && PageOk(serve, pages + [p], |pages|, maxItems)
    requires pages != [] ==> |pages[|pages| - 1].ids| == pages[|pages| - 1].hits == HITS
    ensures Run(serve, pages + [p], maxItems)
  {
    hide Accepted, Count;
    var all := pages + [p];
    forall i | 0 <= i < |pages| ensures PageOk(serve, all, i, maxItems) {
      assert PageOk(serve, pages, i, maxItems);
      assert all[..i] == pages[..i];
    }
  }

  lemma {:induction false} RepeatedAppend(pages: seq<Page>, p: Page, id: string)
    ensures Repeated(pages + [p], id) <==> Repeated(pages, id) || (id in p.ids && Seen(pages, id))
    ensures Seen(pages + [p], id) <==> Seen(pages, id) || id in p.ids
  {
    var all := pages + [p];
    if Seen(pages, id) {
      var i :| 0 <= i < |pages| && OnPage(pages, i, id);
      assert OnPage(all, i, id);
      if id in p.ids { assert OnPage(all, |pages|, id); }
    }
    if id in p.ids { assert OnPage(all, |pages|, id); }
    if Repeated(pages, id) {
      var i, j :| 0 <= i < j < |pages| && OnPage(pages, i, id) && OnPage(pages, j, id);
      assert OnPage(all, i, id) && OnPage(all, j, id);
    }
    if Repeated(all, id) {
      var i, j :| 0 <= i < j < |all| && OnPage(all, i, id) && OnPage(all, j, id);
      assert OnPage(pages, i, id);
      if j < |pages| { assert OnPage(pages, j, id); }
    }
    if Seen(all, id) {
      var i :| 0 <= i < |all| && OnPage(all, i, id);
      if i < |pages| { assert OnPage(pages, i, id); }
    }
  }

  /** The set of ids of one page. */
  function Ids(p: Page): set<string> { set i | 0 <= i < |p.ids| :: p.ids[i] }

  /** The ids seen so far and those seen on two pages. */
  ghost predicate Tracked(seen: set<string>, duplicates: set<string>, pages: seq<Page>) {
    forall id :: (id in seen <==> Seen(pages, id)) && (id in duplicates <==> Repeated(pages, id))
  }

  lemma {:induction false} TrackPage(seen: set<string>, duplicates: set<string>, pages: seq<Page>, p: Page)
    requires Tracked(seen, duplicates, pages)
    ensures Tracked(seen + Ids(p), duplicates + Ids(p) * seen, pages + [p])
  {
    hide Seen, Repeated;
    forall id
      ensures (id in seen + Ids(p) <==> Seen(pages + [p], id))
              && (id in duplicates + Ids(p) * seen <==> Repeated(pages + [p], id))
    {
      RepeatedAppend(pages, p, id);
    }
  }

  predicate TotalChanged(pages: seq<Page>) { exists i :: 0 <= i < |pages| && pages[i].total != pages[0].total }

  lemma {:induction false} TotalOfPage(pages: seq<Page>, p: Page)
    ensures TotalChanged(pages + [p]) <==> TotalChanged(pages) || (pages != [] && p.total != pages[0].total)
  {
    var all := pages + [p];
    if TotalChanged(pages) {
      var i :| 0 <= i < |pages| && pages[i].total != pages[0].total;
      assert all[i].total != all[0].total;
    }
    if pages != [] && p.total != pages[0].total { assert all[|pages|].total != all[0].total; }
  }

  /** No earlier page was a reason to stop. */
  predicate GoesOn(pages: seq<Page>, maxItems: int, maxPages: int) {
    forall i :: 1 <= i <= |pages| ==> Stop(pages[..i], maxItems, maxPages) == None
  }

  lemma {:induction false} GoOn(pages: seq<Page>, p: Page, maxItems: int, maxPages: int)
    requires GoesOn(pages, maxItems, maxPages) && Stop(pages + [p], maxItems, maxPages) == None
    ensures GoesOn(pages + [p], maxItems, maxPages)
  {
    hide Stop;
    var all := pages + [p];
    assert all[..|all|] == all;
    forall i | 1 <= i <= |all| ensures Stop(all[..i], maxItems, maxPages) == None {
      if i <= |pages| { assert all[..i] == pages[..i]; }
    }
  }

  /** The last page was full. */
  predicate LastFull(pages: seq<Page>) { pages != [] ==> |pages[|pages| - 1].ids| == pages[|pages| - 1].hits == HITS }

  /** The pages of a finished run: no page but the last was a reason to stop. */
  predicate Ends(pages: seq<Page>, maxItems: int, maxPages: int, complete: bool, reason: StopReason) {
    && pages != [] && GoesOn(pages[..|pages| - 1], maxItems, maxPages)
    && Stop(pages, maxItems, maxPages) == Some((complete, reason))
  }

  /** What holds between two requests. */
  ghost predicate Going(serve: Server, pages: seq<Page>, seen: set<string>, duplicates: set<string>, maxItems: int,
                        maxPages: int) {
    Run(serve, pages, maxItems) && LastFull(pages) && GoesOn(pages, maxItems, maxPages)
    && Tracked(seen, duplicates, pages)
  }

  /** What the next accepted page adds. */
  lemma {:induction false} PageStep(serve: Server, before: seq<Page>, page: Page, seen: set<string>,
                                    duplicates: set<string>, maxItems: int, maxPages: int, r: Response)
    requires Going(serve, before, seen, duplicates, maxItems, maxPages) && Count(before) < maxItems
    requires page.offset == 1 + Count(before) && page.hits == Min(HITS, maxItems - Count(before))
             && r == serve(|before|, page.offset, page.hits)
    requires Accepted(r, page.hits) && page == MakePage(r, page.offset, page.hits)
    ensures var pages := before + [page];
            && Run(serve, pages, maxItems) && Tracked(seen + Ids(page), duplicates + Ids(page) * seen, pages)
            && Count(pages) == Count(before) + |page.ids| <= maxItems && |page.ids| <= page.hits
            && GoesOn(pages[..|pages| - 1], maxItems, maxPages)
            && Stop(pages, maxItems, maxPages) ==
               (if Count(pages) >= maxItems then Some((false, MaxItems))
                else if |pages| >= maxPages then Some((false, MaxPages))
                else if |page.ids| < page.hits || page.offset + page.hits > page.total then Some((true, ApiEnd))
                else None)
            && (Stop(pages, maxItems, maxPages) == None ==>
                  |page.ids| == page.hits == HITS
                  && Going(serve, pages, seen + Ids(page), duplicates + Ids(page) * seen, maxItems, maxPages))
  {
    hide Run, Tracked, GoesOn, Count, Accepted, Ids, MakePage;
    var pages := before + [page];
    assert pages[..|pages| - 1] == before && pages[|pages| - 1] == page;
    StepRuns(serve, before, page, maxItems, r);
    TrackPage(seen, duplicates, before, page);
    StopHere(pages, maxItems, maxPages);
    if Stop(pages, maxItems, maxPages) == None { GoOn(before, page, maxItems, maxPages); }
  }

  /** The loop of `main`: for every server it ends after at most `maxPages` requests with at most `maxItems`
      items; every page but the last is full, offsets follow the items fetched, and the duplicates are the ids
      that stand on two pages or more. */
  method Collect(serve: Server, maxItems: int, maxPages: int) returns (r: Collected)
    requires 1 <= maxItems && 1 <= maxPages
    ensures r.Failure? ==> 1 <= r.requests <= maxPages
    ensures r.Failure? ==> exists before :: |before| == r.requests - 1 && FailsAfter(serve, before, maxItems, maxPages)
    ensures r.Success? ==> 1 <= |r.pages| <= maxPages && Run(serve, r.pages, maxItems)
    ensures r.Success? ==> r.count == Count(r.pages) <= maxItems
    ensures r.Success? ==> Ends(r.pages, maxItems, maxPages, r.complete, r.reason)
    ensures r.Success? ==> forall id :: id in r.duplicates <==> Repeated(r.pages, id)
    ensures r.Success? ==> (r.totalChanged <==> TotalChanged(r.pages))
  {
    hide Stop, Run, Count, PageOk, Accepted, Repeated, Seen, Tracked, TotalChanged, GoesOn, Going, Ids, MakePage;
    var pages: seq<Page>, count, offset := [], 0, 1;
    var seen: set<string>, duplicates: set<string>, total: Option<int>, totalChanged := {}, {}, None, false;
    NothingYet(serve, maxItems, maxPages);
    while true
      invariant |pages| < maxPages && 0 <= count == Count(pages) < maxItems && offset == 1 + count
      invariant Going(serve, pages, seen, duplicates, maxItems, maxPages)
      invariant total == if pages == [] then None else Some(pages[0].total)
      invariant totalChanged <==> TotalChanged(pages)
      decreases maxPages - |pages|
    {
      var hits := Min(HITS, maxItems - count);
      var response := serve(|pages|, offset, hits);
      if !Accepted(response, hits) {
        BreaksHere(serve, pages, seen, duplicates, maxItems, maxPages);
        return Failure(|pages| + 1);
      }
      var page := MakePage(response, offset, hits);
      MadePage(response, offset, hits);
      PageStep(serve, pages, page, seen, duplicates, maxItems, maxPages, response);
      TotalOfPage(pages, page);
      if total.None? { total := Some(page.total); } else if page.total != total.value { totalChanged := true; }
      duplicates := duplicates + Ids(page) * seen;
      seen := seen + Ids(page);
      pages := pages + [page];
      count := count + |page.ids|;
      TrackedDuplicates(seen, duplicates, pages);
      if count >= maxItems { return Success(pages, count, duplicates, totalChanged, false, MaxItems); }
      if |pages| >= maxPages { return Success(pages, count, duplicates, totalChanged, false, MaxPages); }
      if |page.ids| < hits { return Success(pages, count, duplicates, totalChanged, true, ApiEnd); }
      var next := offset + hits;
      if next > page.total { return Success(pages, count, duplicates, totalChanged, true, ApiEnd); }
      offset := next;
    }
  }

  lemma {:induction false} NothingYet(serve: Server, maxItems: int, maxPages: int)
    ensures Going(serve, [], {}, {}, maxItems, maxPages) && Count([]) == 0 && !TotalChanged([])
  {
  }

  lemma {:induction false} BreaksHere(serve: Server, pages: seq<Page>, seen: set<string>, duplicates: set<string>,
                                      maxItems: int, maxPages: int)
    requires Going(serve, pages, seen, duplicates, maxItems, maxPages) && Count(pages) < maxItems && |pages| < maxPages
    requires var hits := Min(HITS, maxItems - Count(pages)); !Accepted(serve(|pages|, 1 + Count(pages), hits), hits)
    ensures FailsAfter(serve, pages, maxItems, maxPages)
  {
    hide Run, GoesOn, Tracked, Count, Accepted;
  }

  lemma {:induction false} MadePage(r: Response, offset: int, hits: int)
    requires Accepted(r, hits)
    ensures var p := MakePage(r, offset, hits); p.offset == offset && p.hits == hits
  {
  }

  lemma {:induction false} TrackedDuplicates(seen: set<string>, duplicates: set<string>, pages: seq<Page>)
    requires Tracked(seen, duplicates, pages)
    ensures forall id :: id in duplicates <==> Repeated(pages, id)
  {
    hide Repeated, Seen;
  }

  /** A run that has to go on and breaks at its next request. */
  ghost predicate FailsAfter(serve: Server, before: seq<Page>, maxItems: int, maxPages: int) {
    && Run(serve, before, maxItems) && GoesOn(before, maxItems, maxPages) && LastFull(before)
    && Count(before) < maxItems && |before| < maxPages
    && var hits := Min(HITS, maxItems - Count(before)); !Accepted(serve(|before|, 1 + Count(before), hits), hits)
  }

  function MakePage(r: Response, offset: int, hits: int): Page
    requires Accepted(r, hits)
  {
    Page(offset, hits, Values(r.ids), r.total.value)
  }

  lemma {:induction false} StepRuns(serve: Server, pages: seq<Page>, p: Page, maxItems: int, r: Response)
    requires Run(serve, pages, maxItems) && Count(pages) < maxItems
    requires pages != [] ==> |pages[|pages| - 1].ids| == pages[|pages| - 1].hits == HITS
    requires p.offset == 1 + Count(pages) && p.hits == Min(HITS, maxItems - Count(pages))
             && r == serve(|pages|, p.offset, p.hits)
    requires Accepted(r, p.hits) && p == MakePage(r, p.offset, p.hits)
    ensures Run(serve, pages + [p], maxItems) && Count(pages + [p]) == Count(pages) + |p.ids| <= maxItems
            && |p.ids| <= p.hits <= HITS
    ensures |p.ids| == p.hits && Count(pages + [p]) < maxItems ==> p.hits == HITS
  {
    hide Run, Count;
    var all := pages + [p];
    assert all[..|pages|] == pages && all[|pages|] == p;
    CountAppend(pages, p);
    RunAppend(serve, pages, p, maxItems);
  }

  lemma {:induction false} StopHere(pages: seq<Page>, maxItems: int, maxPages: int)
    requires pages != []
    ensures var last := pages[|pages| - 1];
            Stop(pages, maxItems, maxPages) ==
            if Count(pages) >= maxItems then Some((false, MaxItems))
            else if |pages| >= maxPages then Some((false, MaxPages))
            else if |last.ids| < last.hits || last.offset + last.hits > last.total then Some((true, ApiEnd))
            else None
  {
    hide Count;
  }

  // ---------- What the pages enumerate ----------

  /** The rows that are stored: page offset, position on the page from 1, and id. */
  function PageItems(p: Page, n: nat): seq<(int, int, string)>
    requires n <= |p.ids|
  {
    if n == 0 then [] else PageItems(p, n - 1) + [(p.offset, n, p.ids[n - 1])]
  }

  function WorkItems(pages: seq<Page>): seq<(int, int, string)> {
    if pages == [] then []
    else WorkItems(pages[..|pages| - 1]) + PageItems(pages[|pages| - 1], |pages[|pages| - 1].ids|)
  }

  lemma {:induction false} PageItemsAt(p: Page, n: nat, k: nat)
    requires k < n <= |p.ids|
    ensures |PageItems(p, n)| == n && PageItems(p, n)[k] == (p.offset, k + 1, p.ids[k])
    decreases n
  {
    if n > 1 {
      PageItemsAt(p, n - 1, if k < n - 1 then k else 0);
    } else {
      assert PageItems(p, 0) == [];
    }
  }

  lemma {:induction false} PageItemsSize(p: Page, n: nat)
    requires n <= |p.ids|
    ensures |PageItems(p, n)| == n
  {
    if n > 0 { PageItemsAt(p, n, 0); }
  }

  lemma {:induction false} RunPrefix(serve: Server, pages: seq<Page>, maxItems: int)
    requires Run(serve, pages, maxItems) && pages != []
    ensures Run(serve, pages[..|pages| - 1], maxItems) && PageOk(serve, pages, |pages| - 1, maxItems)
  {
    hide Count, Accepted;
    var prefix := pages[..|pages| - 1];
    forall i | 0 <= i < |prefix| ensures PageOk(serve, prefix, i, maxItems) {
      assert PageOk(serve, pages, i, maxItems);
      assert prefix[..i] == pages[..i];
    }
  }

  /** The stored (offset, position) pairs number the items 1, 2, ..., N in order: no number is missing and
      none comes twice. */
  lemma {:induction false} WorkItemsEnumerate(serve: Server, pages: seq<Page>, maxItems: int, k: nat)
    requires Run(serve, pages, maxItems) && k < Count(pages)
    ensures |WorkItems(pages)| == Count(pages)
    ensures WorkItems(pages)[k].0 + WorkItems(pages)[k].1 - 1 == k + 1
    decreases |pages|
  {
    hide Run, Accepted, PageItems;
    RunPrefix(serve, pages, maxItems);
    var prefix, last := pages[..|pages| - 1], pages[|pages| - 1];
    PageItemsSize(last, |last.ids|);
    WorkItemsSize(prefix);
    if k < Count(prefix) {
      WorkItemsEnumerate(serve, prefix, maxItems, k);
    } else {
      PageItemsAt(last, |last.ids|, k - Count(prefix));
    }
  }

  lemma {:induction false} WorkItemsSize(pages: seq<Page>)
    ensures |WorkItems(pages)| == Count(pages)
    decreases |pages|
  {
    hide PageItems;
    if pages != [] {
      WorkItemsSize(pages[..|pages| - 1]);
      PageItemsSize(pages[|pages| - 1], |pages[|pages| - 1].ids|);
    }
  }

  /** All pages before the last are full, so the offsets are 1, 51, 101, ... */
  lemma {:induction false} FullPagesCount(serve: Server, pages: seq<Page>, maxItems: int, i: nat)
    requires Run(serve, pages, maxItems) && i < |pages|
    ensures Count(pages[..i]) == HITS * i && pages[i].offset == 1 + HITS * i
    decreases i
  {
    hide Accepted;
    assert PageOk(serve, pages, i, maxItems);
    if i > 0 {
      FullPagesCount(serve, pages, maxItems, i - 1);
      assert pages[..i][..i - 1] == pages[..i - 1];
    }
  }

  // ---------- An honest server ----------

  /** The page of a constant list. */
  function HonestAnswer(items: seq<string>, offset: int, hits: int): Response {
    var from := if 1 <= offset <= |items| + 1 then offset - 1 else |items|;
    var to := if 0 <= hits <= |items| - from then from + hits else |items|;
    Listed(Somes(items[from..to]), Some(to - from), Some(|items|))
  }

  function Somes(ids: seq<string>): (r: seq<Option<string>>)
    ensures |r| == |ids| && forall i :: 0 <= i < |ids| ==> r[i] == Some(ids[i])
  {
    seq(|ids|, i requires 0 <= i < |ids| => Some(ids[i]))
  }

  ghost predicate Honest(serve: Server, items: seq<string>) {
    forall i: nat, offset: int, hits: int :: serve(i, offset, hits) == HonestAnswer(items, offset, hits)
  }

  function Max(a: int, b: int): int { if a >= b then a else b }

  /** The pages that a list of `n` items takes. */
  function PagesNeeded(n: nat): int { Max(1, (n + HITS - 1) / HITS) }

  /** What stands on the last page of an honest run. */
  lemma {:induction false} HonestPage(serve: Server, items: seq<string>, pages: seq<Page>, maxItems: int)
    requires Honest(serve, items) && Run(serve, pages, maxItems) && pages != []
    requires Count(pages[..|pages| - 1]) <= |items|
    ensures var before, last := Count(pages[..|pages| - 1]), pages[|pages| - 1];
            && last.total == |items| && |last.ids| == Min(last.hits, |items| - before)
            && last.ids == items[before..before + |last.ids|]
            && last.offset == 1 + before && last.hits == Min(HITS, maxItems - before) >= 1
  {
    hide Count;
    RunPrefix(serve, pages, maxItems);
    var before, last := Count(pages[..|pages| - 1]), pages[|pages| - 1];
    assert serve(|pages| - 1, last.offset, last.hits) == HonestAnswer(items, last.offset, last.hits);
  }

  /** A page that was no reason to stop left something to fetch. */
  lemma {:induction false} MoreIsLeft(serve: Server, items: seq<string>, pages: seq<Page>, maxItems: int, maxPages: int)
    requires Honest(serve, items) && Run(serve, pages, maxItems) && GoesOn(pages, maxItems, maxPages)
    ensures Count(pages) <= |items| && (pages != [] ==> Count(pages) < |items| && Count(pages) == HITS * |pages|)
    ensures AllIds(pages) == items[..Count(pages)]
    decreases |pages|
  {
    hide Honest, Run, PageOk;
    if pages != [] {
      var prefix, last := pages[..|pages| - 1], pages[|pages| - 1];
      RunPrefix(serve, pages, maxItems);
      GoesOnPrefix(pages, maxItems, maxPages);
      MoreIsLeft(serve, items, prefix, maxItems, maxPages);
      HonestPage(serve, items, pages, maxItems);
      assert pages[..|pages|] == pages;
      assert Stop(pages[..|pages|], maxItems, maxPages) == None;
      FullPagesCount(serve, pages, maxItems, |pages| - 1);
      assert items[..Count(prefix)] + items[Count(prefix)..Count(pages)] == items[..Count(pages)];
    }
  }

  lemma {:induction false} GoesOnPrefix(pages: seq<Page>, maxItems: int, maxPages: int)
    requires GoesOn(pages, maxItems, maxPages) && pages != []
    ensures GoesOn(pages[..|pages| - 1], maxItems, maxPages)
  {
    hide Stop;
    var prefix := pages[..|pages| - 1];
    forall i | 1 <= i <= |prefix| ensures Stop(prefix[..i], maxItems, maxPages) == None {
      assert prefix[..i] == pages[..i];
    }
  }

  /** The ids of all pages, one after the other. */
  function AllIds(pages: seq<Page>): seq<string> {
    if pages == [] then [] else AllIds(pages[..|pages| - 1]) + pages[|pages| - 1].ids
  }

  lemma {:induction false} HonestAccepted(items: seq<string>, offset: int, hits: int)
    requires 1 <= offset <= |items| + 1 && hits >= 1
    ensures Accepted(HonestAnswer(items, offset, hits), hits)
  {
  }

  lemma {:induction false} HonestAnswers(serve: Server, items: seq<string>, i: nat, offset: int, hits: int)
    requires Honest(serve, items)
    ensures serve(i, offset, hits) == HonestAnswer(items, offset, hits)
  {
    hide HonestAnswer;
  }

  /** Against an honest server of constant size T the loop never fails. */
  lemma {:induction false} HonestNeverFails(serve: Server, items: seq<string>, before: seq<Page>, maxItems: int,
                                            maxPages: int)
    requires Honest(serve, items)
    ensures !FailsAfter(serve, before, maxItems, maxPages)
  {
    hide Run, GoesOn, Count, LastFull, Honest, HonestAnswer, Accepted, AllIds;
    if FailsAfter(serve, before, maxItems, maxPages) {
      MoreIsLeft(serve, items, before, maxItems, maxPages);
      var hits := Min(HITS, maxItems - Count(before));
      HonestAnswers(serve, items, |before|, 1 + Count(before), hits);
      HonestAccepted(items, 1 + Count(before), hits);
    }
  }

  /** Against an honest server of constant size T the loop fetches exactly the first min(T, maxItems, 50 *
      maxPages) items, and reports the collection complete if and only if T < maxItems and the pages that T
      items take are fewer than maxPages. */
  lemma {:induction false} HonestRunIsComplete(serve: Server, items: seq<string>, pages: seq<Page>, maxItems: int,
                                               maxPages: int, complete: bool, reason: StopReason)
    requires Honest(serve, items) && 1 <= maxItems && 1 <= |pages| <= maxPages
    requires Run(serve, pages, maxItems) && Ends(pages, maxItems, maxPages, complete, reason)
    ensures Count(pages) == Min(|items|, Min(maxItems, HITS * maxPages))
    ensures AllIds(pages) == items[..Count(pages)]
    ensures complete <==> |items| < maxItems && PagesNeeded(|items|) < maxPages
  {
    hide Honest, Run, PageOk, GoesOn;
    var prefix, last := pages[..|pages| - 1], pages[|pages| - 1];
    RunPrefix(serve, pages, maxItems);
    MoreIsLeft(serve, items, prefix, maxItems, maxPages);
    HonestPage(serve, items, pages, maxItems);
    FullPagesCount(serve, pages, maxItems, |pages| - 1);
    assert items[..Count(prefix)] + items[Count(prefix)..Count(pages)] == items[..Count(pages)];
    HonestArithmetic(|items|, maxItems, maxPages, |pages|, Count(prefix), |last.ids|, complete);
  }

  lemma {:induction false} HonestArithmetic(t: nat, maxItems: int, maxPages: int, n: nat, before: nat, ids: nat,
                                            complete: bool)
    requires 1 <= n <= maxPages && before == HITS * (n - 1) && before <= t && before < maxItems
             && (n > 1 ==> before < t)
    requires ids == Min(Min(HITS, maxItems - before), t - before)
    requires complete <==> before + ids < maxItems && n < maxPages
    requires complete ==> ids < HITS || before + HITS >= t
    requires before + ids < maxItems && n < maxPages ==>
               ids < Min(HITS, maxItems - before) || before + Min(HITS, maxItems - before) >= t
    ensures before + ids == Min(t, Min(maxItems, HITS * maxPages))
    ensures complete <==> t < maxItems && PagesNeeded(t) < maxPages
  {
  }
}
