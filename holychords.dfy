/** The holychords.com parser (src/parsers/holychords/holychords.service.ts):
    the author list, the song list built by visiting each author's page, and
    the song record built from one song page. The HTML queries are not part
    of this model: what they extract is given as values. */
module HolyChords {
  import opened Js
  import opened Records
  import opened Config
  import AbstractParser
  import Normalizer

  const SiteUrl := "https://holychords.com"
  const AuthorUrl := "https://holychords.com/artists"

  /** The widths this parser passes to `parseSongDetails` and `normalize`. */
  const DetailsWidth := 50
  const NormalizeWidth := 100

  /** `x ? SITE_URL + x : null`. */
  function Prefixed(x: Option<string>): (r: Option<string>)
    ensures r.Some? <==> Present(x)
    ensures r.Some? ==> StartsWith(r.value, SiteUrl) && r.value[|SiteUrl|..] == x.value
  {
    if Present(x) then Some(SiteUrl + x.value) else None
  }

  /** A prefixed link determines the extracted one. */
  lemma PrefixedInjective(x: Option<string>, y: Option<string>)
    requires Prefixed(x).Some? && Prefixed(x) == Prefixed(y)
    ensures x == y
  {
    assert x.value == Prefixed(x).value[|SiteUrl|..];
  }

  // ---------------------------------------------------------------------------
  // getAuthorList

  /** One `a.docs_item_name` anchor of the artists page: its text and `href`. */
  datatype AuthorAnchor = AuthorAnchor(name: string, href: Option<string>)

  function AuthorOf(a: AuthorAnchor): Author {
    Author(a.name, Prefixed(a.href), None, None)
  }

  function AuthorsOf(anchors: seq<AuthorAnchor>): seq<Author>
  {
    seq(|anchors|, k requires 0 <= k < |anchors| => AuthorOf(anchors[k]))
  }

  // ---------------------------------------------------------------------------
  // getSongList

  /** What one artist page yields: the `.twoThird.last` text, the first
      `.oneThird img` source, and the `href` of every song link in order. */
  datatype ArtistPage = ArtistPage(description: string, thumbnailImg: Option<string>, songHrefs: seq<Option<string>>)

  /** The author record enriched from its page: an empty description and a
      missing image become `null`. */
  function Enrich(a: Author, p: ArtistPage): (r: Author)
    ensures r.name == a.name && r.uri == a.uri
    ensures r.description.Some? <==> p.description != ""
    ensures r.description.Some? ==> r.description.value == p.description
    ensures r.thumbnailImg == Prefixed(p.thumbnailImg)
  {
    a.(description := if p.description != "" then Some(p.description) else None,
       thumbnailImg := Prefixed(p.thumbnailImg))
  }

  /** One identificator per song link with a non-empty `href`, in page
      order, each carrying the enriched author. */
  function SongsOf(author: Author, hrefs: seq<Option<string>>): (r: seq<SongIdentificator>)
    ensures |r| <= |hrefs|
    ensures forall k :: 0 <= k < |r| ==> r[k].uri != "" && r[k].author == Some(author)
  {
    if hrefs == [] then []
    else
      var rest := SongsOf(author, hrefs[..|hrefs| - 1]);
      var h := hrefs[|hrefs| - 1];
      if Present(h) then rest + [SongIdentificator(h.value, Some(author))] else rest
  }

  /** The links with a present `href` are exactly the identificators' uris. */
  lemma {:induction false} SongsOfUris(author: Author, hrefs: seq<Option<string>>)
    ensures |SongsOf(author, hrefs)| == |Somes(PresentOnly(hrefs))|
    ensures forall k :: 0 <= k < |SongsOf(author, hrefs)| ==> SongsOf(author, hrefs)[k].uri == Somes(PresentOnly(hrefs))[k]
  {
    if hrefs != [] {
      var init := hrefs[..|hrefs| - 1];
      var h := hrefs[|hrefs| - 1];
      SongsOfUris(author, init);
      assert hrefs == init + [h];
      assert PresentOnly(hrefs) == PresentOnly(init) + PresentOnly([h]);
      SomesAppend(PresentOnly(init), PresentOnly([h]));
      assert [h][1..] == [];
    }
  }

  /** A missing or empty `href` dropped. */
  function PresentOnly(hrefs: seq<Option<string>>): seq<Option<string>>
  {
    seq(|hrefs|, k requires 0 <= k < |hrefs| => if Present(hrefs[k]) then hrefs[k] else None)
  }

  /** `this.maxParsedSongs < i`: a `NaN` quota never stops the loop. */
  predicate StopsAfter(quota: Quota, i: int) {
    quota.Finite? && quota.q < i
  }

  /** How a run of `getSongList` ends: the author list, the identificators
      pushed, how many authors were visited, and whether a request threw. */
  datatype SongListOutcome = SongListOutcome(authors: seq<Author>, pushed: seq<SongIdentificator>, visited: nat, threw: bool)

  /** `sendGetRequest(author.uri)`: `fetch` is the artist page answered for
      a uri, `None` a failed request; a `null` uri makes the request reject
      as well. */
  function ArtistRequest(author: Author, fetch: string -> Option<ArtistPage>): Option<ArtistPage> {
    if author.uri.None? then None else fetch(author.uri.value)
  }

  /** The loop from author `i` on; a rejected request rejects the loop. */
  function SongListFrom(authors: seq<Author>, fetch: string -> Option<ArtistPage>, quota: Quota, i: nat,
                        pushed: seq<SongIdentificator>): (r: SongListOutcome)
    requires i <= |authors|
    ensures |r.authors| == |authors| && i <= r.visited <= |authors|
    decreases |authors| - i
  {
    if i == |authors| then SongListOutcome(authors, pushed, i, false)
    else
      match ArtistRequest(authors[i], fetch)
      case None => SongListOutcome(authors, pushed, i, true)
      case Some(p) =>
        var enriched := Enrich(authors[i], p);
        var next := pushed + SongsOf(enriched, p.songHrefs);
        if StopsAfter(quota, i) then SongListOutcome(authors[i := enriched], next, i + 1, false)
        else SongListFrom(authors[i := enriched], fetch, quota, i + 1, next)
  }

  /** The number of authors the loop visits when no request fails: all of
      them for `NaN`; otherwise indices `0..i` where `i` is the first index
      above the quota, which compares an author index with a song count. */
  function Visits(n: nat, quota: Quota): nat {
    if quota.NaN? then n else Min(n, Max(0, quota.q + 1) + 1)
  }

  lemma {:induction false} SongListVisitsFrom(authors: seq<Author>, fetch: string -> Option<ArtistPage>, quota: Quota,
                                              i: nat, pushed: seq<SongIdentificator>)
    requires i <= |authors| && (i == 0 || !StopsAfter(quota, i - 1))
    requires forall j :: i <= j < |authors| ==> ArtistRequest(authors[j], fetch).Some?
    ensures var r := SongListFrom(authors, fetch, quota, i, pushed);
      !r.threw && r.visited == Visits(|authors|, quota)
    decreases |authors| - i
  {
    if i < |authors| {
      var p := ArtistRequest(authors[i], fetch).value;
      var enriched := Enrich(authors[i], p);
      if !StopsAfter(quota, i) {
        var updated := authors[i := enriched];
        forall j | i + 1 <= j < |authors|
          ensures ArtistRequest(updated[j], fetch).Some?
        {
          assert updated[j] == authors[j];
        }
        SongListVisitsFrom(updated, fetch, quota, i + 1, pushed + SongsOf(enriched, p.songHrefs));
      }
    }
  }

  /** An author without an href, reached with every earlier request
      succeeding and no earlier stop, is where the stage throws. */
  lemma {:induction false} SongListThrowsAtMissingHref(authors: seq<Author>, fetch: string -> Option<ArtistPage>,
                                                       quota: Quota, i: nat, pushed: seq<SongIdentificator>, m: nat)
    requires i <= m < |authors| && authors[m].uri.None?
    requires forall j :: i <= j < m ==> ArtistRequest(authors[j], fetch).Some? && !StopsAfter(quota, j)
    ensures var r := SongListFrom(authors, fetch, quota, i, pushed);
      r.threw && r.visited == m
    decreases m - i
  {
    if i < m {
      var p := ArtistRequest(authors[i], fetch).value;
      var enriched := Enrich(authors[i], p);
      var updated := authors[i := enriched];
      forall j | i + 1 <= j < m
        ensures ArtistRequest(updated[j], fetch).Some? && !StopsAfter(quota, j)
      {
        assert updated[j] == authors[j];
      }
      assert updated[m] == authors[m];
      SongListThrowsAtMissingHref(updated, fetch, quota, i + 1, pushed + SongsOf(enriched, p.songHrefs), m);
    }
  }

  /** With every request succeeding the loop visits exactly `Visits` authors:
      all of them for a `NaN` quota, `min(n, max(0, q + 1) + 1)` for `q`. */
  lemma SongListVisits(authors: seq<Author>, fetch: string -> Option<ArtistPage>, quota: Quota)
    requires forall j :: 0 <= j < |authors| ==> ArtistRequest(authors[j], fetch).Some?
    ensures var r := SongListFrom(authors, fetch, quota, 0, []);
      !r.threw && r.visited == Visits(|authors|, quota)
  {
    SongListVisitsFrom(authors, fetch, quota, 0, []);
  }

  /** The visited authors are replaced by their enriched copies, the others
      are kept. */
  lemma {:induction false} SongListAuthorsFrom(authors: seq<Author>, fetch: string -> Option<ArtistPage>, quota: Quota,
                                               i: nat, pushed: seq<SongIdentificator>)
    requires i <= |authors|
    ensures var r := SongListFrom(authors, fetch, quota, i, pushed);
      && (forall j :: i <= j < r.visited ==> ArtistRequest(authors[j], fetch).Some? && r.authors[j] == Enrich(authors[j], ArtistRequest(authors[j], fetch).value))
      && (forall j :: 0 <= j < |authors| && !(i <= j < r.visited) ==> r.authors[j] == authors[j])
    decreases |authors| - i
  {
    if i < |authors| && ArtistRequest(authors[i], fetch).Some? {
      var p := ArtistRequest(authors[i], fetch).value;
      var enriched := Enrich(authors[i], p);
      var next := pushed + SongsOf(enriched, p.songHrefs);
      if !StopsAfter(quota, i) {
        var updated := authors[i := enriched];
        SongListAuthorsFrom(updated, fetch, quota, i + 1, next);
        var r := SongListFrom(updated, fetch, quota, i + 1, next);
        forall j | i <= j < r.visited
          ensures ArtistRequest(authors[j], fetch).Some? && r.authors[j] == Enrich(authors[j], ArtistRequest(authors[j], fetch).value)
        {
          if j > i {
            assert updated[j] == authors[j];
          }
        }
      }
    }
  }

  /** When a request throws it is the one for the author right after the
      visited ones; the identificators pushed before are kept, in order. */
  lemma {:induction false} SongListThrowsFrom(authors: seq<Author>, fetch: string -> Option<ArtistPage>, quota: Quota,
                                              i: nat, pushed: seq<SongIdentificator>)
    requires i <= |authors|
    ensures var r := SongListFrom(authors, fetch, quota, i, pushed);
      && (r.threw ==> r.visited < |authors| && ArtistRequest(authors[r.visited], fetch).None?)
      && |r.pushed| >= |pushed| && r.pushed[..|pushed|] == pushed
    decreases |authors| - i
  {
    if i < |authors| && ArtistRequest(authors[i], fetch).Some? {
      var p := ArtistRequest(authors[i], fetch).value;
      var enriched := Enrich(authors[i], p);
      var next := pushed + SongsOf(enriched, p.songHrefs);
      assert next[..|pushed|] == pushed;
      if !StopsAfter(quota, i) {
        var updated := authors[i := enriched];
        SongListThrowsFrom(updated, fetch, quota, i + 1, next);
        var r := SongListFrom(updated, fetch, quota, i + 1, next);
        assert r.pushed[..|pushed|] == r.pushed[..|next|][..|pushed|];
        if r.threw {
          assert updated[r.visited] == authors[r.visited];
        }
      }
    }
  }

  /** Every identificator has a non-empty uri and the author of one of the
      first `n` entries of `authors`. */
  predicate CarryVisitedAuthors(pushed: seq<SongIdentificator>, authors: seq<Author>, n: nat)
    requires n <= |authors|
  {
    forall k :: 0 <= k < |pushed| ==> pushed[k].uri != "" && HasVisitedAuthor(pushed[k], authors, n)
  }

  predicate HasVisitedAuthor(id: SongIdentificator, authors: seq<Author>, n: nat)
    requires n <= |authors|
  {
    exists j :: 0 <= j < n && id.author == Some(authors[j])
  }

  /** Every identificator pushed has a non-empty uri and the enriched author
      of a visited index. */
  lemma {:induction false} SongListPushedFrom(authors: seq<Author>, fetch: string -> Option<ArtistPage>, quota: Quota,
                                              i: nat, pushed: seq<SongIdentificator>)
    requires i <= |authors|
    requires CarryVisitedAuthors(pushed, authors, i)
    ensures var r := SongListFrom(authors, fetch, quota, i, pushed);
      CarryVisitedAuthors(r.pushed, r.authors, r.visited)
    decreases |authors| - i
  {
    if i < |authors| && ArtistRequest(authors[i], fetch).Some? {
      var p := ArtistRequest(authors[i], fetch).value;
      var enriched := Enrich(authors[i], p);
      var songs := SongsOf(enriched, p.songHrefs);
      var next := pushed + songs;
      var updated := authors[i := enriched];
      forall k | 0 <= k < |next|
        ensures next[k].uri != "" && HasVisitedAuthor(next[k], updated, i + 1)
      {
        if k < |pushed| {
          assert next[k] == pushed[k];
          assert pushed[k].uri != "" && HasVisitedAuthor(pushed[k], authors, i);
          var j :| 0 <= j < i && pushed[k].author == Some(authors[j]);
          assert updated[j] == authors[j];
          assert 0 <= j < i + 1 && next[k].author == Some(updated[j]);
        } else {
          assert next[k] == songs[k - |pushed|];
          assert next[k].author == Some(updated[i]);
          assert 0 <= i < i + 1 && next[k].author == Some(updated[i]);
        }
      }
      assert CarryVisitedAuthors(next, updated, i + 1);
      if !StopsAfter(quota, i) {
        SongListPushedFrom(updated, fetch, quota, i + 1, next);
      } else {
        assert SongListFrom(authors, fetch, quota, i, pushed) == SongListOutcome(updated, next, i + 1, false);
      }
    }
  }

  /** A whole `getSongList` run: the visited authors are enriched in place
      and no other entry changes; a throw names the author whose request
      failed; every identificator pushed has a non-empty uri and carries the
      enriched author of a visited index. */
  lemma SongListShape(authors: seq<Author>, fetch: string -> Option<ArtistPage>, quota: Quota)
    ensures var r := SongListFrom(authors, fetch, quota, 0, []);
      && (forall j :: 0 <= j < r.visited ==> ArtistRequest(authors[j], fetch).Some? && r.authors[j] == Enrich(authors[j], ArtistRequest(authors[j], fetch).value))
      && (forall j :: r.visited <= j < |authors| ==> r.authors[j] == authors[j])
      && (r.threw ==> r.visited < |authors| && ArtistRequest(authors[r.visited], fetch).None?)
      && CarryVisitedAuthors(r.pushed, r.authors, r.visited)
  {
    SongListAuthorsFrom(authors, fetch, quota, 0, []);
    SongListThrowsFrom(authors, fetch, quota, 0, []);
    SongListPushedFrom(authors, fetch, quota, 0, []);
  }

  // ---------------------------------------------------------------------------
  // parsePage

  /** One item of the `.box_style_3` list: its `small` text and link. */
  datatype TranslationItem = TranslationItem(small: string, href: Option<string>)

  /** What the queries of `parsePage` extract from a song page. */
  datatype PageExtract = PageExtract(
    title: string,
    audioMp3: Option<string>,
    songText: Option<string>,
    chordsKey: Option<string>,
    videoAttachment: Option<string>,
    albumName: string,
    albumHref: Option<string>,
    albumImg: Option<string>,
    tags: seq<string>,
    translations: seq<TranslationItem>)

  function TranslationOf(t: TranslationItem): Translation {
    Translation(t.small, Prefixed(t.href))
  }

  function TranslationsOf(items: seq<TranslationItem>): seq<Translation>
  {
    seq(|items|, k requires 0 <= k < |items| => TranslationOf(items[k]))
  }

  /** `parsePage`: `null` for an identificator without uri (no request is
      made) and when the request or an extraction throws (`extract` is
      `None`); otherwise the song record. */
  function ParsePage(id: SongIdentificator, extract: Option<PageExtract>): (r: Option<DetailedSong>)
    ensures r.None? <==> id.uri == "" || extract.None?
  {
    if id.uri == "" || extract.None? then None
    else
      var x := extract.value;
      Some(DetailedSong(
        x.title, x.songText, SiteUrl + id.uri, Prefixed(x.audioMp3), x.videoAttachment, Some(x.tags),
        x.chordsKey, TranslationsOf(x.translations),
        Some(DetailedAlbum(x.albumName, id.author, Prefixed(x.albumImg), Prefixed(x.albumHref)))))
  }

  /** The song record: its url is the site URL followed by the uri; links
      are site-prefixed or `null`; the album author is the identificator's;
      video, chords key, text and tags pass through; one translation per
      list item, in order. */
  lemma ParsePageFields(id: SongIdentificator, x: PageExtract)
    requires id.uri != ""
    ensures var s := ParsePage(id, Some(x)).value;
      && s.url == SiteUrl + id.uri && s.title == x.title
      && s.audioMp3 == Prefixed(x.audioMp3)
      && s.videoAttachment == x.videoAttachment && s.chordsKey == x.chordsKey && s.songText == x.songText
      && s.tags == Some(x.tags)
      && |s.translations| == |x.translations|
      && (forall k :: 0 <= k < |x.translations| ==>
            s.translations[k].title == x.translations[k].small && s.translations[k].href == Prefixed(x.translations[k].href))
      && s.album.Some? && s.album.value.author == id.author && s.album.value.title == x.albumName
      && s.album.value.thumbnailImg == Prefixed(x.albumImg) && s.album.value.href == Prefixed(x.albumHref)
  {
  }

  /** Every song this parser produces has an album, so `normalizeSong`
      never throws on it. */
  lemma ParsePageNormalizes(id: SongIdentificator, extract: Option<PageExtract>)
    requires ParsePage(id, extract).Some?
    ensures Normalizer.NormalizeSong(ParsePage(id, extract).value).Some?
  {
  }

  /** The page function of this parser. */
  function Pages(extract: SongIdentificator -> Option<PageExtract>): SongIdentificator -> Option<DetailedSong> {
    id => ParsePage(id, extract(id))
  }

  /** The normalization stage of a holychords run keeps every parsed song:
      no chunk is ever dropped. */
  lemma NormalizeKeepsEverySong(urls: seq<SongIdentificator>, extract: SongIdentificator -> Option<PageExtract>, quota: Quota)
    ensures var d := AbstractParser.DetailsFrom(AbstractParser.Responses(urls, Pages(extract)), DetailsWidth, quota, 0, []);
      && AbstractParser.AllNormalize(d.list)
      && AbstractParser.NormalizeFrom(d.list, NormalizeWidth, 0) == AbstractParser.NormalizedAll(d.list)
  {
    var rs := AbstractParser.Responses(urls, Pages(extract));
    forall k | 0 <= k < |rs| && rs[k].Some?
      ensures rs[k].value.album.Some?
    {
      assert rs[k] == ParsePage(urls[k], extract(urls[k]));
    }
    AbstractParser.DetailsKeepsAlbums(rs, DetailsWidth, quota, 0, []);
    var d := AbstractParser.DetailsFrom(rs, DetailsWidth, quota, 0, []);
    AbstractParser.NormalizeAll(d.list, NormalizeWidth);
  }

  // ---------------------------------------------------------------------------
  // The service

  class HolyChordsService {
    /** The accumulated author list; `start()` never clears it. */
    var authors: seq<Author>
    /** `Number(config.get('parser.maxSongs'))`, read once at construction. */
    const maxParsedSongs: Quota
    /** The base parser this service extends. */
    const parser: AbstractParser.Parser

    constructor(parser: AbstractParser.Parser, maxParsedSongs: Quota)
      ensures this.parser == parser && this.maxParsedSongs == maxParsedSongs && authors == []
    {
      this.parser := parser;
      this.maxParsedSongs := maxParsedSongs;
      authors := [];
    }

    /** `getAuthorList()`; `anchors` is `None` when the response has no data
        or the request throws, and then nothing is pushed and `null` returned. */
    method GetAuthorList(anchors: Option<seq<AuthorAnchor>>) returns (r: Option<seq<Author>>)
      modifies this
      ensures anchors.None? ==> r.None? && authors == old(authors)
      ensures anchors.Some? ==> authors == old(authors) + AuthorsOf(anchors.value) && r == Some(authors)
    {
      if anchors.None? {
        return None;
      }
      var list := anchors.value;
      for i := 0 to |list|
        invariant authors == old(authors) + AuthorsOf(list[..i])
      {
        var href := list[i].href;
        authors := authors + [Author(list[i].name, if Present(href) then Some(SiteUrl + href.value) else None, None, None)];
        assert AuthorsOf(list[..i + 1]) == AuthorsOf(list[..i]) + [AuthorOf(list[i])];
      }
      assert list[..|list|] == list;
      r := Some(authors);
    }

    /** `getSongList()`: visits the authors in order, replaces each with its
        enriched copy, collects its song identificators, and stops after
        author `i` once `maxParsedSongs < i`. A failed request throws out of
        the loop (there is no `try` here). */
    method GetSongList(fetch: string -> Option<ArtistPage>) returns (pushed: seq<SongIdentificator>, threw: bool)
      modifies this
      ensures var r := SongListFrom(old(authors), fetch, maxParsedSongs, 0, []);
        authors == r.authors && pushed == r.pushed && threw == r.threw
    {
      pushed := [];
      threw := false;
      ghost var target := SongListFrom(authors, fetch, maxParsedSongs, 0, []);
      var i := 0;
      while i < |authors|
        invariant i <= |authors|
        invariant SongListFrom(authors, fetch, maxParsedSongs, i, pushed) == target
        invariant !threw
        decreases |authors| - i
      {
        if authors[i].uri.None? {
          threw := true;
          return;
        }
        var response := fetch(authors[i].uri.value);
        if response.None? {
          threw := true;
          return;
        }
        var page := response.value;
        var enriched := Enrich(authors[i], page);
        authors := authors[i := enriched];
        var hrefs := page.songHrefs;
        ghost var before := pushed;
        for j := 0 to |hrefs|
          invariant pushed == before + SongsOf(enriched, hrefs[..j])
        {
          var uri := hrefs[j];
          if Present(uri) {
            pushed := pushed + [SongIdentificator(uri.value, Some(authors[i]))];
          }
          assert hrefs[..j + 1][..j] == hrefs[..j];
        }
        assert hrefs[..|hrefs|] == hrefs;
        if StopsAfter(maxParsedSongs, i) {
          break;
        }
        i := i + 1;
      }
    }

    /** `start()`: the base run, whose list stage is `getAuthorList` and then
        `getSongList`; this parser's widths are 50 and 100. A song list that
        throws rejects the run before any page is requested or anything sent. */
    method Start(anchors: Option<seq<AuthorAnchor>>, fetch: string -> Option<ArtistPage>,
                 extract: SongIdentificator -> Option<PageExtract>)
      modifies this, parser, parser.sink
      ensures var listed := old(authors) + (if anchors.Some? then AuthorsOf(anchors.value) else []);
        var r := SongListFrom(listed, fetch, maxParsedSongs, 0, []);
        && authors == r.authors
        && parser.songUrlList == (if r.threw then Some(r.pushed) else None)
        && (r.threw ==>
              && parser.stages == old(parser.stages) + [AbstractParser.Cleared, AbstractParser.Listed]
              && parser.normalizedSongs == []
              && parser.pageRequests == old(parser.pageRequests)
              && parser.sink.trace == old(parser.sink.trace))
        && (!r.threw ==>
              parser.stages == old(parser.stages) + AbstractParser.FullRun)
        && (!r.threw ==>
              var d := AbstractParser.DetailsFrom(AbstractParser.Responses(r.pushed, Pages(extract)), DetailsWidth, maxParsedSongs, 0, []);
              && AbstractParser.AllNormalize(d.list)
              && parser.normalizedSongs == AbstractParser.NormalizedAll(d.list)
              && parser.sink.trace == old(parser.sink.trace) + AbstractParser.RunTrace(parser.normalizedSongs))
    {
      var _ := GetAuthorList(anchors);
      assert authors == old(authors) + (if anchors.Some? then AuthorsOf(anchors.value) else []);
      var pushed, threw := GetSongList(fetch);
      parser.Start(AbstractParser.ListOutcome(pushed, threw), Pages(extract), maxParsedSongs, DetailsWidth, NormalizeWidth);
      if !threw {
        NormalizeKeepsEverySong(pushed, extract, maxParsedSongs);
      }
    }
  }
}
