/** The `usePagination` hook (src/hooks/usePagination.js): the current page
    index (mutable state moved by `nextPage`/`prevPage`), the defaults used
    before data arrives, and the query it configures: key, URL, Bearer header
    (section 2.1 of RFC 6750) and the `enabled` switch. */
module Pagination {
  import opened Wrappers
  import opened JsonValues
  import Decimal
  import Client

  const KeyTag: string := "pagination"

  /** One element of a react-query array key. */
  datatype KeyPart = KStr(s: string) | KNum(n: int)

  /** A Spring `Page` as far as the hook reads it; either field may be missing
      or null. */
  datatype PageData = PageData(content: Option<seq<Json>>, totalPages: Option<nat>)

  /** The query key `['pagination', path, page]`. */
  function QueryKey(path: string, page: int): (key: seq<KeyPart>)
    ensures |key| == 3 && key[0] == KStr(KeyTag)
  {
    [KStr(KeyTag), KStr(path), KNum(page)]
  }

  /** Reads the path and page back out of a pagination key. */
  function KeyTarget(key: seq<KeyPart>): Option<(string, int)> {
    if |key| == 3 && key[0] == KStr(KeyTag) && key[1].KStr? && key[2].KNum?
    then Some((key[1].s, key[2].n))
    else None
  }

  /** Every pagination key names its path and page: different (path, page)
      pairs never share a cache entry. */
  lemma QueryKeyRoundTrip(path: string, page: int)
    ensures KeyTarget(QueryKey(path, page)) == Some((path, page))
  {
  }

  /** react-query's partial matching of an array key against a filter key. */
  predicate MatchesPrefix(filter: seq<KeyPart>, key: seq<KeyPart>) {
    |filter| <= |key| && key[..|filter|] == filter
  }

  /** Invalidating `['pagination']` (as publication creation and deletion do)
      reaches every page of every paginated list. */
  lemma InvalidationReachesEveryPage(path: string, page: int)
    ensures MatchesPrefix([KStr(KeyTag)], QueryKey(path, page))
  {
  }

  /** The request path `${path}?page=${page}`: the list's path, then the
      query parameter `page` whose value reads back as the page number. */
  function PageUrl(path: string, page: nat): (url: string)
    ensures |url| == |path| + 6 + |Decimal.Show(page)|
    ensures |url| >= |path| + 6 && url[..|path|] == path && url[|path|..|path| + 6] == "?page="
    ensures Decimal.AllDigits(url[|path| + 6..]) && Decimal.Parse(url[|path| + 6..]) == page
  {
    var url := path + "?page=" + Decimal.Show(page);
    Decimal.ParseShow(page);
    assert url[|path| + 6..] == Decimal.Show(page);
    url
  }

  /** For a fixed path, the page number can be read back from the URL:
      different pages are requested at different URLs, so the server is
      always asked for the page the key caches. */
  lemma PageUrlInjective(path: string, p1: nat, p2: nat)
    ensures PageUrl(path, p1) == PageUrl(path, p2) ==> p1 == p2
  {
    // the page number reads back from the URL (`PageUrl`'s contract)
  }

  /** `data?.content ?? []`: the page's content, or nothing while no page
      has arrived or when the page carries no content. */
  function Items(data: Option<PageData>): (items: seq<Json>)
    ensures data.None? ==> items == []
    ensures data.Some? && data.value.content.None? ==> items == []
    ensures data.Some? && data.value.content.Some? ==> items == data.value.content.value
  {
    if data.Some? && data.value.content.Some? then data.value.content.value else []
  }

  /** `data?.totalPages ?? 1`: 1 until a page has arrived or when the page
      carries no count, otherwise the server's count, which may be 0. */
  function TotalPages(data: Option<PageData>): (n: nat)
    ensures data.None? ==> n == 1
    ensures data.Some? && data.value.totalPages.None? ==> n == 1
    ensures data.Some? && data.value.totalPages.Some? ==> n == data.value.totalPages.value
  {
    if data.Some? && data.value.totalPages.Some? then data.value.totalPages.value else 1
  }

  /** The updater `nextPage` hands to `setPage`: one step forward when the
      page count is non-zero and this is not the last page. */
  function NextOf(page: int, totalPages: nat): (r: int)
    ensures r == page || r == page + 1
    ensures r == page + 1 <==> totalPages != 0 && page < totalPages - 1
    ensures 0 <= page ==> 0 <= r
    ensures page < totalPages ==> r < totalPages
  {
    if totalPages != 0 && page < totalPages - 1 then page + 1 else page
  }

  /** The updater `prevPage` hands to `setPage`: one step back unless this is
      the first page. */
  function PrevOf(page: int): (r: int)
    ensures r == page || r == page - 1
    ensures r == page - 1 <==> page > 0
    ensures 0 <= page ==> 0 <= r && r <= page
  {
    if page > 0 then page - 1 else page
  }

  /** The query's outcome: not run (disabled), failed before the request
      because `getToken` rejected, or sent with the answer it got. */
  datatype QueryRun =
    | Disabled
    | TokenFailed(error: Client.Error)
    | Sent(request: Client.Request, outcome: Result<Json, Client.Error>)

  /** The hook's state for one path: its options and the page index. */
  class Pager {
    const path: string
    const enabled: bool
    const token: Option<string>
    var page: int

    ghost predicate Valid()
      reads this
    {
      page >= 0
    }

    /** `usePagination(path, {enabled, token})`: the page starts at 0. */
    constructor(path: string, enabled: bool, token: Option<string>)
      ensures Valid()
      ensures this.path == path && this.enabled == enabled && this.token == token
      ensures page == 0
    {
      this.path := path;
      this.enabled := enabled;
      this.token := token;
      page := 0;
    }

    /** `nextPage()` against the page count shown at the time. */
    method NextPage(totalPages: nat)
      requires Valid()
      modifies this
      ensures Valid()
      ensures page == NextOf(old(page), totalPages)
      ensures old(page) < totalPages ==> page < totalPages
    {
      page := NextOf(page, totalPages);
    }

    /** `prevPage()`: the page never becomes negative. */
    method PrevPage()
      requires Valid()
      modifies this
      ensures Valid()
      ensures page == PrevOf(old(page))
    {
      page := PrevOf(page);
    }

    /** The key the current page is cached under. */
    function Key(): (key: seq<KeyPart>)
      reads this
      ensures KeyTarget(key) == Some((path, page))
    {
      QueryKey(path, page)
    }

    /** The query for the current page. It runs only when the path is
      non-empty and `enabled` holds. `getToken`, when given, is awaited and
      its result (`None` for none given) replaces the static token; a GET to
      the page URL is sent, carrying `Authorization: Bearer <token>` exactly
      when the resulting token is not null, and no other header. */
    method Run(getToken: Option<Result<Option<string>, Client.Error>>, reply: Client.Reply)
      returns (run: QueryRun)
      requires Valid()
      ensures run.Disabled? <==> !(path != "" && enabled)
      ensures run.TokenFailed? <==> path != "" && enabled && getToken.Some? && getToken.value.Failure?
      ensures run.TokenFailed? ==> run.error == getToken.value.error
      ensures run.Sent? ==>
        && run.request.url == Client.ApiBaseUrl + PageUrl(path, page)
        && run.request.httpMethod == "GET"
        && run.request.body.None?
        && run.request.headers.Keys <= {"Authorization"}
        && run.outcome == Client.Settle(reply)
      ensures run.Sent? && getToken.None? ==>
        ("Authorization" in run.request.headers <==> token.Some?)
        && (token.Some? ==> run.request.headers["Authorization"] == "Bearer " + token.value)
      ensures run.Sent? && getToken.Some? ==>
        var supplied := getToken.value.value;
        ("Authorization" in run.request.headers <==> supplied.Some?)
        && (supplied.Some? ==> run.request.headers["Authorization"] == "Bearer " + supplied.value)
    {
      if !(path != "" && enabled) {
        return Disabled;
      }
      var finalToken := token;
      if getToken.Some? {
        match getToken.value
        case Failure(e) =>
          return TokenFailed(e);
        case Success(t) =>
          finalToken := t;
      }
      var headers: Option<Client.Headers> := None;
      if finalToken.Some? {
        headers := Some(map["Authorization" := "Bearer " + finalToken.value]);
      }
      var request, outcome := Client.ApiFetch(PageUrl(path, page), Client.Options(None, headers, None), reply);
      run := Sent(request, outcome);
    }
  }
}
