/**
 * The `Link` header of a list response (`addLinkHeaders`): the request URL
 * with its `page` and `perPage` parameters cut out, and a `prev` and a
 * `next` link that append the neighbouring page number and the page size.
 */
module Links {
  import opened Wrappers
  import opened JsString
  import opened Query

  /** `'' + limit`; an absent limit (`undefined`) prints as `undefined`. */
  function LimitText(limit: Option<int>): (r: string)
    ensures r != [] && forall k :: 0 <= k < |r| ==> r[k] != '&' && r[k] != '?'
  {
    if limit.Some? then IntToString(limit.value) else "undefined"
  }

  /** The two clean-up replacements every link goes through. */
  function Cleanup(s: string): string {
    ReplaceFirst(ReplaceFirst(s, "&&", "&"), "?&", "?")
  }

  /**
   * The request URL without its paging parameters: the first
   * `perPage=<limit>` and the first `page=<page>` are cut out, then two
   * `&&` and one `?&` are collapsed.
   */
  function CleanUrl(url: string, page: int, limit: Option<int>): (r: string)
    ensures |r| <= |url|
  {
    var withoutSize := ReplaceFirst(url, "perPage=" + LimitText(limit), "");
    var withoutPage := ReplaceFirst(withoutSize, "page=" + IntToString(page), "");
    var once := ReplaceFirst(withoutPage, "&&", "&");
    var twice := ReplaceFirst(once, "&&", "&");
    ReplaceFirst(twice, "?&", "?")
  }

  /** `protocol + '://' + host + cleanedUrl` */
  function FullUrl(protocol: string, host: string, cleanedUrl: string): string {
    protocol + "://" + host + cleanedUrl
  }

  /** The parameters a link appends: `page=<page>&perPage=<limit>`. */
  function PageParams(page: int, limit: Option<int>): string {
    "page=" + IntToString(page) + "&perPage=" + LimitText(limit)
  }

  /** A `prev` or `next` link: the full URL, `&`, the paging parameters, cleaned up. */
  function PageLink(fullUrl: string, page: int, limit: Option<int>): string {
    Cleanup(fullUrl + "&" + PageParams(page, limit))
  }

  /** The links handed to `res.links`. */
  datatype LinkSet = LinkSet(prev: Option<string>, next: Option<string>)

  /**
   * The links `addLinkHeaders` makes: a `prev` link on every page after
   * the first, a `next` link when the page came back full (an absent limit
   * compares as `NaN`, so there is no `next` link then).
   */
  function LinkHeaders(page: int, limit: Option<int>, currentLength: nat, url: string, protocol: string, host: string)
    : (links: LinkSet)
    ensures links.prev.Some? <==> page > 1
    ensures links.next.Some? <==> limit.Some? && currentLength >= limit.value
  {
    var fullUrl := FullUrl(protocol, host, CleanUrl(url, page, limit));
    LinkSet(
      if page > 1 then Some(PageLink(fullUrl, page - 1, limit)) else None,
      if limit.Some? && currentLength >= limit.value then Some(PageLink(fullUrl, page + 1, limit)) else None)
  }

  /** The links `addLinkHeaders(page, limit, currentLength, scope)` hands to `res.links`, built step by step. */
  method BuildLinks(page: int, limit: Option<int>, currentLength: nat, url: string, protocol: string, host: string)
    returns (links: LinkSet)
    ensures links == LinkHeaders(page, limit, currentLength, url, protocol, host)
  {
    var cleanedUrl := ReplaceFirst(url, "perPage=" + LimitText(limit), "");
    cleanedUrl := ReplaceFirst(cleanedUrl, "page=" + IntToString(page), "");
    cleanedUrl := ReplaceFirst(cleanedUrl, "&&", "&");
    cleanedUrl := ReplaceFirst(cleanedUrl, "&&", "&");
    cleanedUrl := ReplaceFirst(cleanedUrl, "?&", "?");
    var fullUrl := protocol + "://" + host + cleanedUrl;
    links := LinkSet(None, None);
    if page > 1 {
      var prevLink := fullUrl + "&" + PageParams(page - 1, limit);
      prevLink := ReplaceFirst(prevLink, "&&", "&");
      prevLink := ReplaceFirst(prevLink, "?&", "?");
      links := links.(prev := Some(prevLink));
    }
    if limit.Some? && currentLength >= limit.value {
      var nextLink := fullUrl + "&" + PageParams(page + 1, limit);
      nextLink := ReplaceFirst(nextLink, "&&", "&");
      nextLink := ReplaceFirst(nextLink, "?&", "?");
      links := links.(next := Some(nextLink));
    }
  }

  // ---------------------------------------------------------------------
  // What a link looks like

  /**
   * A string the clean-up cannot reach into: it does not start with `&`,
   * and no `&` in it follows a `&` or a `?`.
   */
  predicate AmpSafe(t: string) {
    && t != []
    && t[0] != '&'
    && forall k :: 1 <= k < |t| && t[k] == '&' ==> t[k - 1] != '&' && t[k - 1] != '?'
  }

  /** The clean-up of `a + t` works on `a` alone and leaves `t` as it is. */
  lemma CleanupKeepsTail(a: string, t: string)
    requires AmpSafe(t)
    ensures Cleanup(a + t) == Cleanup(a) + t
  {
    forall j | |a| < j + 2
      ensures !Occurs(a + t, "&&", j)
    {
      var s := a + t;
      if 0 <= j && j + 2 <= |s| {
        assert s[j..j + 2][0] == s[j] && s[j..j + 2][1] == s[j + 1];
        assert s[j + 1] == t[j + 1 - |a|];
        if j >= |a| {
          assert s[j] == t[j - |a|];
        }
      }
    }
    ReplaceFirstKeepsTail(a, t, "&&", "&");
    var b := ReplaceFirst(a, "&&", "&");
    forall j | |b| < j + 2
      ensures !Occurs(b + t, "?&", j)
    {
      var s := b + t;
      if 0 <= j && j + 2 <= |s| {
        assert s[j..j + 2][0] == s[j] && s[j..j + 2][1] == s[j + 1];
        assert s[j + 1] == t[j + 1 - |b|];
        if j >= |b| {
          assert s[j] == t[j - |b|];
        }
      }
    }
    ReplaceFirstKeepsTail(b, t, "?&", "?");
  }

  /** The paging parameters hold a single `&`, right after the page number. */
  lemma PageParamsAmpSafe(page: int, limit: Option<int>)
    ensures AmpSafe(PageParams(page, limit))
  {
    var p := IntToString(page);
    var l := LimitText(limit);
    var t := PageParams(page, limit);
    var head := "page=" + p;
    assert t == head + ("&perPage=" + l);
    forall k | 1 <= k < |t|
      ensures t[k] == '&' ==> t[k - 1] != '&' && t[k - 1] != '?'
    {
      if k < 5 {
        assert t[k] == "page="[k];
      } else if k < |head| {
        assert t[k] == p[k - 5];
      } else if k == |head| {
        assert t[k - 1] == p[|p| - 1];
      } else if k < |head| + 9 {
        assert t[k] == "&perPage="[k - |head|];
      } else {
        assert t[k] == l[k - |head| - 9];
      }
    }
  }

  /**
   * A link is the cleaned-up full URL followed by `page=<page>&perPage=<limit>`:
   * the clean-up never touches the parameters the link adds.
   */
  lemma PageLinkEndsWithParams(fullUrl: string, page: int, limit: Option<int>)
    ensures PageLink(fullUrl, page, limit) == Cleanup(fullUrl + "&") + PageParams(page, limit)
  {
    PageParamsAmpSafe(page, limit);
    CleanupKeepsTail(fullUrl + "&", PageParams(page, limit));
  }

  /**
   * What the links say: each is the cleaned-up full URL of the request,
   * `&`, and the paging parameters of the neighbouring page.
   */
  lemma LinkHeadersContents(page: int, limit: Option<int>, currentLength: nat, url: string, protocol: string, host: string)
    ensures var links := LinkHeaders(page, limit, currentLength, url, protocol, host);
            var base := Cleanup(FullUrl(protocol, host, CleanUrl(url, page, limit)) + "&");
      && (page > 1 ==> links.prev == Some(base + PageParams(page - 1, limit)))
      && (limit.Some? && currentLength >= limit.value ==> links.next == Some(base + PageParams(page + 1, limit)))
  {
    var fullUrl := FullUrl(protocol, host, CleanUrl(url, page, limit));
    PageLinkEndsWithParams(fullUrl, page - 1, limit);
    PageLinkEndsWithParams(fullUrl, page + 1, limit);
  }

  /**
   * The page number a link carries sits between `page=` and the next `&`,
   * and is read back by `getPage` as the page it names.
   */
  lemma LinkPageReadBack(page: int, limit: Option<int>, firstPageIndex: int)
    requires page != 0
    ensures var p := IntToString(page);
            var t := PageParams(page, limit);
      && t[..5] == "page="
      && t[5..5 + |p|] == p
      && t[5 + |p|] == '&'
      && GetPage(Some(p), firstPageIndex) == page
  {
    var p := IntToString(page);
    var head := "page=" + p;
    var tail := "&perPage=" + LimitText(limit);
    assert PageParams(page, limit) == head + tail;
    assert (head + tail)[..5] == head[..5] == "page=";
    assert (head + tail)[5..5 + |p|] == head[5..] == p;
    assert (head + tail)[5 + |p|] == tail[0] == '&';
    GetPageOfWrittenPage(page, firstPageIndex);
  }

  /** A URL without paging parameters and without `&&` or `?&` is left as it is. */
  lemma CleanUrlUnchanged(url: string, page: int, limit: Option<int>)
    requires forall i :: !Occurs(url, "perPage=" + LimitText(limit), i)
    requires forall i :: !Occurs(url, "page=" + IntToString(page), i)
    requires forall i :: !Occurs(url, "&&", i)
    requires forall i :: !Occurs(url, "?&", i)
    ensures CleanUrl(url, page, limit) == url
  {
    ReplaceFirstAbsent(url, "perPage=" + LimitText(limit), "");
    ReplaceFirstAbsent(url, "page=" + IntToString(page), "");
    ReplaceFirstAbsent(url, "&&", "&");
    ReplaceFirstAbsent(url, "?&", "?");
  }
}
