/** The normalizer service (src/normalizer/normalizer.service.ts): record
    mapping, content-addressed re-hosting of asset links, the streaming
    hash with its abort rule, and the slug and href helpers. */
module Normalizer {
  import opened Js
  import opened Records
  import opened Http
  import opened FileUploader

  /** File extensions whose files are re-hosted; any other type is passed through. */
  const ValidTypes: seq<string> := ["jpg", "png", "gif", "mp4", "pdf", "docx", "pptx"]

  /** The file size handed to the hash for an inline `data:` image. */
  const DataUrlFileSize: FileSize := Ratio(1, 10)

  /** The throughput floor of the hash, in bytes per millisecond. */
  const MinSpeed: int := 15

  // ---------------------------------------------------------------------------
  // normalizeSong

  /** `normalizeSong`: copies the song's own fields and rebuilds the album
      with `year` and `text` set to null and no `href`. Reading `album.title`
      of a song without an album throws, so that song yields `None`. */
  function NormalizeSong(song: DetailedSong): (r: Option<NormalizedSong>)
    ensures r.None? <==> song.album.None?
    ensures r.Some? ==>
      var n := r.value;
      var a := song.album.value;
      && n.title == song.title && n.songText == song.songText && n.url == song.url
      && n.audioMp3 == song.audioMp3 && n.videoAttachment == song.videoAttachment
      && n.tags == song.tags && n.translations == song.translations && n.chordsKey == song.chordsKey
      && n.album.title == a.title && n.album.thumbnailImg == a.thumbnailImg && n.album.author == a.author
      && n.album.year.None? && n.album.text.None? && n.album.href.None?
  {
    match song.album
    case None => None
    case Some(a) =>
      Some(NormalizedSong(song.title, song.songText, song.url, song.audioMp3, song.videoAttachment,
                          song.tags, song.translations, song.chordsKey,
                          NormalizedAlbum(a.title, a.thumbnailImg, a.author, None, None, None)))
  }

  /** The album link is the only information normalization loses: two songs
      with the same normalized form differ at most in their album's `href`. */
  lemma NormalizeSongLosesOnlyAlbumHref(s1: DetailedSong, s2: DetailedSong)
    requires NormalizeSong(s1).Some? && NormalizeSong(s1) == NormalizeSong(s2)
    ensures s1 == s2.(album := Some(s2.album.value.(href := s1.album.value.href)))
  {
    var n1, n2 := NormalizeSong(s1).value, NormalizeSong(s2).value;
    assert n1.album == n2.album;
  }

  // ---------------------------------------------------------------------------
  // hashFile: a fold over the stream's chunks with an abort rule

  datatype HashResult = Aborted | Digest(hex: string) | StreamError

  /** `progress / elapsed < 15` for a JavaScript number division: a zero
      elapsed time gives Infinity or NaN (never slow), a negative one a
      negative speed (always slow). */
  predicate Slow(progress: int, elapsed: int) {
    elapsed < 0 || (elapsed > 0 && progress < MinSpeed * elapsed)
  }

  /** `progress / fileSize < 0.9`: false for NaN and for a zero size
      (Infinity or NaN), true for a negative size. */
  predicate BelowNinetyPercent(progress: int, size: FileSize) {
    size.Ratio? && (size.num < 0 || (size.num > 0 && 10 * progress * size.den < 9 * size.num))
  }

  /** The `data` handler of chunk `k` destroys the stream. */
  predicate AbortsAt(chunks: seq<Chunk>, size: FileSize, k: int)
    requires 0 <= k < |chunks|
  {
    var progress := |Bytes(chunks[..k + 1])|;
    Slow(progress, chunks[k].at) && BelowNinetyPercent(progress, size)
  }

  /** What `hashFile` resolves with: null once some chunk trips the abort
      rule, a rejection when the stream errors, otherwise the digest of every
      byte on `end`. */
  function HashOutcome(stream: Stream, size: FileSize, sha256Hex: seq<byte> -> string): HashResult {
    if exists k :: 0 <= k < |stream.chunks| && AbortsAt(stream.chunks, size, k) then Aborted
    else if stream.failed then StreamError
    else Digest(sha256Hex(Bytes(stream.chunks)))
  }

  /** `hashFile`: adds each chunk's length to `progress` and aborts as soon as
      the transfer is slow while less than 90% of `fileSize` has arrived. */
  method HashFile(stream: Stream, fileSize: FileSize, sha256Hex: seq<byte> -> string) returns (r: HashResult)
    ensures r == HashOutcome(stream, fileSize, sha256Hex)
  {
    var chunks := stream.chunks;
    var progress := 0;
    var k := 0;
    while k < |chunks|
      invariant 0 <= k <= |chunks|
      invariant progress == |Bytes(chunks[..k])|
      invariant forall j :: 0 <= j < k ==> !AbortsAt(chunks, fileSize, j)
    {
      assert chunks[..k + 1][..k] == chunks[..k];
      progress := progress + |chunks[k].data|;
      if Slow(progress, chunks[k].at) && BelowNinetyPercent(progress, fileSize) {
        assert AbortsAt(chunks, fileSize, k);
        return Aborted;
      }
      k := k + 1;
    }
    if stream.failed {
      return StreamError;
    }
    r := Digest(sha256Hex(Bytes(chunks)));
  }

  /** The integer form of the speed test is the division the source performs. */
  lemma SlowIsSpeedBelowFloor(progress: nat, elapsed: int)
    requires elapsed > 0
    ensures Slow(progress, elapsed) <==> (progress as real) / (elapsed as real) < MinSpeed as real
  {
    var e := elapsed as real;
    var speed := (progress as real) / e;
    assert speed * e == progress as real;
    if speed < MinSpeed as real {
      assert speed * e < (MinSpeed as real) * e;
    } else {
      assert speed * e >= (MinSpeed as real) * e;
    }
  }

  /** The integer form of the size test is the division the source performs. */
  lemma BelowNinetyIsFraction(progress: nat, num: int, den: pos)
    requires num > 0
    ensures BelowNinetyPercent(progress, Ratio(num, den)) <==>
      (progress as real) / ((num as real) / (den as real)) < 0.9
  {
    var size := (num as real) / (den as real);
    var d := den as real;
    assert size > 0.0 && size * d == num as real;
    var fraction := (progress as real) / size;
    assert fraction * size == progress as real;
    if fraction < 0.9 {
      MulMonotone(fraction, 0.9, size);
      MulMonotone(progress as real, 0.9 * size, d);
      assert 0.9 * size * d == 0.9 * (num as real);
    } else {
      MulMonotone(0.9, fraction, size);
      if (progress as real) * d < 0.9 * (num as real) {
        MulMonotone(progress as real, 0.9 * size, d);
      }
      assert (progress as real) * d >= 0.9 * (num as real);
    }
  }

  lemma MulMonotone(a: real, b: real, c: real)
    requires c > 0.0
    ensures a < b <==> a * c < b * c
  {
    if a < b {
      assert (b - a) * c > 0.0;
    } else {
      assert (a - b) * c >= 0.0;
    }
  }

  lemma {:induction false} BytesPrefixGrows(cs: seq<Chunk>, i: nat, j: nat)
    requires i <= j <= |cs|
    ensures |Bytes(cs[..i])| <= |Bytes(cs[..j])|
    decreases j - i
  {
    if i < j {
      assert cs[..j][..j - 1] == cs[..j - 1];
      BytesPrefixGrows(cs, i, j - 1);
    }
  }

  /** Once 90% of the expected size has arrived the stream can no longer be
      aborted, whatever the speed of later chunks. */
  lemma NoAbortOnceNinetyPercent(chunks: seq<Chunk>, size: FileSize, k: nat, j: nat)
    requires k <= j < |chunks|
    requires !BelowNinetyPercent(|Bytes(chunks[..k + 1])|, size)
    ensures !AbortsAt(chunks, size, j)
  {
    var p, q := |Bytes(chunks[..k + 1])|, |Bytes(chunks[..j + 1])|;
    BytesPrefixGrows(chunks, k + 1, j + 1);
    if size.Ratio? && size.num > 0 {
      assert 10 * p * size.den <= 10 * q * size.den;
    }
  }

  /** With a size that is NaN (missing or non-numeric content-length) or 0
      the 90% test always fails, so the stream is never aborted. */
  lemma NeverAbortsWithoutUsableSize(stream: Stream, size: FileSize, sha256Hex: seq<byte> -> string)
    requires size.NaN? || size.num == 0
    ensures HashOutcome(stream, size, sha256Hex) != Aborted
  {
  }

  /** With the 0.1 size used for data URLs, any delivered byte puts the
      transfer past 90%, so a stream of non-empty chunks is never aborted. */
  lemma {:induction false} DataUrlSizeNeverAborts(stream: Stream, sha256Hex: seq<byte> -> string)
    requires forall k :: 0 <= k < |stream.chunks| ==> stream.chunks[k].data != []
    ensures HashOutcome(stream, DataUrlFileSize, sha256Hex) != Aborted
  {
    var cs := stream.chunks;
    forall k | 0 <= k < |cs|
      ensures !AbortsAt(cs, DataUrlFileSize, k)
    {
      assert cs[..k + 1][..k] == cs[..k];
      assert |Bytes(cs[..k + 1])| >= 1;
    }
  }

  /** A slow transfer below 90% aborts; the same transfer already at 90%
      does not, although its next chunk is slower still. */
  lemma AbortExamples(sha256Hex: seq<byte> -> string)
    ensures HashOutcome(Stream([Chunk(seq(100, _ => 0), 1000)], false), Ratio(1000, 1), sha256Hex) == Aborted
    ensures HashOutcome(Stream([Chunk(seq(900, _ => 0), 1000), Chunk(seq(10, _ => 0), 100000)], false),
                        Ratio(1000, 1), sha256Hex).Digest?
  {
    var slow := [Chunk(seq(100, _ => 0), 1000)];
    assert slow[..1] == slow;
    assert AbortsAt(slow, Ratio(1000, 1), 0);
    var c0, c1 := Chunk(seq(900, _ => 0), 1000), Chunk(seq(10, _ => 0), 100000);
    var late := [c0, c1];
    assert late[..1] == [c0] && late[..2] == late;
    assert late[..1][..0] == [];
    assert Bytes(late[..1]) == c0.data;
    assert !BelowNinetyPercent(|Bytes(late[..1])|, Ratio(1000, 1));
    NoAbortOnceNinetyPercent(late, Ratio(1000, 1), 0, 0);
    NoAbortOnceNinetyPercent(late, Ratio(1000, 1), 0, 1);
  }

  // ---------------------------------------------------------------------------
  // data URLs: /^data:([A-Za-z-+\/]+);base64,(.+)$/

  predicate MediaTypeChar(c: char) {
    'A' <= c <= 'Z' || 'a' <= c <= 'z' || c == '-' || c == '+' || c == '/'
  }

  /** The characters `.` does not match. */
  predicate LineTerminator(c: char) {
    c == '\n' || c == '\r' || c == '\U{2028}' || c == '\U{2029}'
  }

  function MediaTypeRun(s: string): (n: nat)
    ensures n <= |s|
    ensures forall k :: 0 <= k < n ==> MediaTypeChar(s[k])
    ensures n < |s| ==> !MediaTypeChar(s[n])
  {
    if s == [] || !MediaTypeChar(s[0]) then 0 else 1 + MediaTypeRun(s[1..])
  }

  const Base64Marker: string := ";base64,"

  /** The second capture group of the data-URL pattern, or `None` when the
      pattern does not match. Since ';' is not a media-type character, the
      first group is exactly the longest run of them after "data:". */
  function DataUrlPayload(u: string): Option<string> {
    if !StartsWith(u, "data:") then None
    else
      var rest := u[5..];
      var n := MediaTypeRun(rest);
      var tail := rest[n..];
      if n > 0 && StartsWith(tail, Base64Marker) && |tail| > 8 &&
         forall k :: 8 <= k < |tail| ==> !LineTerminator(tail[k])
      then Some(tail[8..])
      else None
  }

  lemma {:induction false} MediaTypeRunOf(t: string, rest: string)
    requires forall k :: 0 <= k < |t| ==> MediaTypeChar(t[k])
    requires rest != [] && !MediaTypeChar(rest[0])
    ensures MediaTypeRun(t + rest) == |t|
  {
    if t != [] {
      assert (t + rest)[1..] == t[1..] + rest;
      MediaTypeRunOf(t[1..], rest);
    }
  }

  /** Decoding a data URL built from a media type and a payload gives the payload back. */
  lemma DataUrlRoundTrip(mediaType: string, payload: string)
    requires IsMediaType(mediaType)
    requires payload != [] && forall k :: 0 <= k < |payload| ==> !LineTerminator(payload[k])
    ensures DataUrlPayload("data:" + mediaType + Base64Marker + payload) == Some(payload)
  {
    var u := "data:" + mediaType + Base64Marker + payload;
    assert u[..5] == "data:";
    var rest := u[5..];
    assert rest == mediaType + (Base64Marker + payload);
    MediaTypeRunOf(mediaType, Base64Marker + payload);
    var tail := rest[|mediaType|..];
    assert tail == Base64Marker + payload;
    assert tail[..8] == Base64Marker;
    assert tail[8..] == payload;
  }

  /** Conversely, every accepted URL has that shape. */
  lemma DataUrlPayloadShape(u: string, payload: string)
    requires DataUrlPayload(u) == Some(payload)
    ensures payload != [] && forall k :: 0 <= k < |payload| ==> !LineTerminator(payload[k])
    ensures exists mediaType :: IsMediaType(mediaType) && u == "data:" + mediaType + Base64Marker + payload
  {
    var rest := u[5..];
    var n := MediaTypeRun(rest);
    var mediaType := rest[..n];
    var tail := rest[n..];
    assert tail[8..] == payload;
    assert tail[..8] == Base64Marker;
    assert tail == Base64Marker + payload by {
      assert tail == tail[..8] + tail[8..];
    }
    forall k | 0 <= k < |payload|
      ensures !LineTerminator(payload[k])
    {
      assert payload[k] == tail[k + 8];
    }
    assert IsMediaType(mediaType);
    assert rest == mediaType + tail;
    assert u == u[..5] + rest;
  }

  predicate IsMediaType(t: string) {
    t != [] && forall k :: 0 <= k < |t| ==> MediaTypeChar(t[k])
  }

  // ---------------------------------------------------------------------------
  // changeRelativeHref, per href

  /** `/^(http|ftp)/i` against the value turned into a string. */
  predicate IsAbsoluteHref(s: string) {
    StartsWithIgnoreCase(s, "http") || StartsWithIgnoreCase(s, "ftp")
  }

  /** The rule `changeRelativeHref` applies to each anchor: an http or ftp
      link is kept, anything else (a missing href reads as "undefined") is
      prefixed with the host. */
  function RelativeHref(href: Option<string>, host: string): (r: string)
    ensures IsAbsoluteHref(Stringify(href)) ==> href.Some? && r == href.value
    ensures !IsAbsoluteHref(Stringify(href)) ==> r == host + Stringify(href)
  {
    UndefinedIsRelative();
    if IsAbsoluteHref(Stringify(href)) then Stringify(href) else host + Stringify(href)
  }

  lemma UndefinedIsRelative()
    ensures !IsAbsoluteHref("undefined")
  {
    assert LowerAscii("undefined"[0]) != LowerAscii("http"[0]);
    assert LowerAscii("undefined"[0]) != LowerAscii("ftp"[0]);
  }

  lemma PrefixIgnoreCaseExtends(s: string, x: string, prefix: string)
    requires StartsWithIgnoreCase(s, prefix)
    ensures StartsWithIgnoreCase(s + x, prefix)
  {
    assert (s + x)[..|prefix|] == s[..|prefix|];
  }

  /** With an absolute host the rule is idempotent: a rewritten href is
      left alone by a second pass. */
  lemma RelativeHrefIdempotent(href: Option<string>, host: string)
    requires IsAbsoluteHref(host)
    ensures RelativeHref(Some(RelativeHref(href, host)), host) == RelativeHref(href, host)
  {
    var s := Stringify(href);
    if !IsAbsoluteHref(s) {
      if StartsWithIgnoreCase(host, "http") {
        PrefixIgnoreCaseExtends(host, s, "http");
      } else {
        PrefixIgnoreCaseExtends(host, s, "ftp");
      }
    }
  }

  // ---------------------------------------------------------------------------
  // normalizeIndustryToSlug

  /** One entry of the industries table: a slug and the patterns that select it. */
  datatype Industry = Industry(key: string, patterns: seq<string>)

  /** `String.prototype.split` with a one-character separator. */
  function Split(s: string, sep: char): (parts: seq<string>)
    ensures |parts| >= 1
    ensures forall i :: 0 <= i < |parts| ==> sep !in parts[i]
  {
    if s == [] then [""]
    else
      var tail := Split(s[1..], sep);
      if s[0] == sep then [""] + tail
      else [[s[0]] + tail[0]] + tail[1..]
  }

  /** `Array.prototype.join` with a one-character separator. */
  function Join(parts: seq<string>, sep: char): string {
    if parts == [] then ""
    else if |parts| == 1 then parts[0]
    else parts[0] + [sep] + Join(parts[1..], sep)
  }

  lemma {:induction false} JoinSplit(s: string, sep: char)
    ensures Join(Split(s, sep), sep) == s
  {
    if s != [] {
      var tail := Split(s[1..], sep);
      JoinSplit(s[1..], sep);
      if s[0] != sep {
        var parts := Split(s, sep);
        if |tail| == 1 {
          assert parts == [[s[0]] + tail[0]];
        } else {
          assert parts[1..] == tail[1..];
          assert Join(tail, sep) == tail[0] + [sep] + Join(tail[1..], sep);
        }
      }
    }
  }

  predicate AnyPatternMatches(patterns: seq<string>, text: string, matches: (string, string) -> bool) {
    exists q :: 0 <= q < |patterns| && matches(patterns[q], text)
  }

  /** The key of the first table entry, in key order, with a pattern that matches. */
  function FirstMatchingKey(table: seq<Industry>, text: string, matches: (string, string) -> bool): Option<string> {
    if table == [] then None
    else
      var earlier := FirstMatchingKey(table[..|table| - 1], text, matches);
      if earlier.Some? then earlier
      else if AnyPatternMatches(table[|table| - 1].patterns, text, matches) then Some(table[|table| - 1].key)
      else None
  }

  /** The first matching key wins: it belongs to an entry with a matching
      pattern and no earlier entry has one; and there is a key exactly when
      some entry matches. */
  lemma {:induction false} FirstMatchingKeyIsFirst(table: seq<Industry>, text: string, matches: (string, string) -> bool)
    ensures FirstMatchingKey(table, text, matches).Some? <==>
      exists i :: 0 <= i < |table| && AnyPatternMatches(table[i].patterns, text, matches)
    ensures FirstMatchingKey(table, text, matches).Some? ==>
      exists i :: 0 <= i < |table| && table[i].key == FirstMatchingKey(table, text, matches).value &&
        AnyPatternMatches(table[i].patterns, text, matches) &&
        forall j :: 0 <= j < i ==> !AnyPatternMatches(table[j].patterns, text, matches)
  {
    if table != [] {
      var init := table[..|table| - 1];
      FirstMatchingKeyIsFirst(init, text, matches);
      assert forall i :: 0 <= i < |init| ==> init[i] == table[i];
      if FirstMatchingKey(init, text, matches).None? && AnyPatternMatches(table[|table| - 1].patterns, text, matches) {
        assert forall j :: 0 <= j < |table| - 1 ==> !AnyPatternMatches(table[j].patterns, text, matches);
      }
    }
  }

  /** The slug of one part: the first matching key when it is truthy, else 'other'. */
  function Classify(table: seq<Industry>, text: string, matches: (string, string) -> bool): string {
    match FirstMatchingKey(table, text, matches)
    case Some(k) => if k != "" then k else "other"
    case None => "other"
  }

  function Classes(table: seq<Industry>, parts: seq<string>, matches: (string, string) -> bool): (cs: seq<string>)
    ensures |cs| == |parts|
  {
    if parts == [] then []
    else Classes(table, parts[..|parts| - 1], matches) + [Classify(table, parts[|parts| - 1], matches)]
  }

  /** The elements in first-occurrence order, each once (push unless included). */
  function Distinct(xs: seq<string>): seq<string> {
    if xs == [] then []
    else
      var d := Distinct(xs[..|xs| - 1]);
      if xs[|xs| - 1] in d then d else d + [xs[|xs| - 1]]
  }

  /** Distinct keeps each element once and loses none. */
  lemma {:induction false} DistinctIsSet(xs: seq<string>)
    ensures forall i, j :: 0 <= i < j < |Distinct(xs)| ==> Distinct(xs)[i] != Distinct(xs)[j]
    ensures forall x :: x in Distinct(xs) <==> x in xs
  {
    if xs != [] {
      var init := xs[..|xs| - 1];
      DistinctIsSet(init);
      assert xs == init + [xs[|xs| - 1]];
    }
  }

  function IndustrySlug(parsed: Option<string>, table: seq<Industry>, matches: (string, string) -> bool): string {
    if !Present(parsed) then "other"
    else Join(Distinct(Classes(table, Split(parsed.value, '|'), matches)), ',')
  }

  /** `normalizeIndustryToSlug`, with the industries table and the
      case-insensitive regular expression test as parameters. The counter
      update `matches[key] = matches[key] ? matches[key]++ : (matches[key] = 1)`
      keeps every count at 1, so only the first match can raise `max`. */
  method NormalizeIndustryToSlug(parsed: Option<string>, table: seq<Industry>, matches: (string, string) -> bool)
    returns (slug: string)
    ensures slug == IndustrySlug(parsed, table, matches)
  {
    if !Present(parsed) {
      return "other";
    }
    var parts := Split(parsed.value, '|');
    var result: seq<string> := [];
    for i := 0 to |parts|
      invariant result == Distinct(Classes(table, parts[..i], matches))
    {
      var normalized := ClassifyPart(parts[i], table, matches);
      if normalized !in result {
        result := result + [normalized];
      }
      assert parts[..i + 1][..i] == parts[..i];
    }
    assert parts[..|parts|] == parts;
    slug := Join(result, ',');
  }

  /** The `forEach` callback for one part: scans every pattern of every key,
      in table order. */
  method ClassifyPart(part: string, table: seq<Industry>, matches: (string, string) -> bool)
    returns (normalized: string)
    ensures normalized == Classify(table, part, matches)
  {
    var max := 0;
    var maxKey: Option<string> := None;
    var counts: map<string, int> := map[];
    for j := 0 to |table|
      invariant forall k :: k in counts ==> counts[k] == 1
      invariant max == (if maxKey.Some? then 1 else 0)
      invariant maxKey == FirstMatchingKey(table[..j], part, matches)
    {
      var key := table[j].key;
      var patterns := table[j].patterns;
      ghost var before := maxKey;
      for l := 0 to |patterns|
        invariant forall k :: k in counts ==> counts[k] == 1
        invariant max == (if maxKey.Some? then 1 else 0)
        invariant maxKey == if before.None? && AnyPatternMatches(patterns[..l], part, matches) then Some(key) else before
      {
        if matches(patterns[l], part) {
          if key in counts && counts[key] != 0 {
            var v := counts[key];
            counts := counts[key := v + 1];
            counts := counts[key := v];
          } else {
            counts := counts[key := 1];
          }
          if counts[key] > max {
            max := counts[key];
            maxKey := Some(key);
          }
        }
        assert patterns[..l + 1][..l] == patterns[..l];
        assert matches(patterns[..l + 1][l], part) == matches(patterns[l], part);
      }
      assert patterns[..|patterns|] == patterns;
      assert table[..j + 1][..j] == table[..j];
    }
    assert table[..|table|] == table;
    normalized := if maxKey.Some? && maxKey.value != "" then maxKey.value else "other";
  }

  lemma IndustrySlugOfEmpty(table: seq<Industry>, matches: (string, string) -> bool)
    ensures IndustrySlug(None, table, matches) == "other"
    ensures IndustrySlug(Some(""), table, matches) == "other"
  {
  }

  // ---------------------------------------------------------------------------
  // normalizeLink, generateNewUrl, changeLinks

  /** The pure collaborators of the link normalizer: SHA-256 as lowercase
      hex, base64 decoding, and file-type sniffing (an extension or nothing). */
  datatype Codecs = Codecs(
    sha256Hex: seq<byte> -> string,
    base64: string -> seq<byte>,
    fileType: seq<byte> -> Option<string>)

  /** The bytes an upload reads from an optional stream. */
  function StreamBody(s: Option<Stream>): (b: Option<seq<byte>>)
    ensures b.Some? <==> s.Some? && !s.value.failed
  {
    if s.Some? then Body(s.value) else None
  }

  /** The body `generateNewUrl` uploads on a miss: a fresh download of a
      truthy `url`, else the readable it was given. */
  function UploadBody(url: JsString, readable: Option<seq<byte>>, tape: seq<Option<HttpResponse>>): Option<seq<byte>> {
    if Truthy(url) then
      match TapeDownload(url, tape)
      case None => None
      case Some(d) => StreamBody(d.fileStream)
    else readable
  }

  predicate IsDataImage(url: JsString) {
    Truthy(url) && StartsWith(url.s, "data:image")
  }

  /** The stream `normalizeLink` hashes for an inline image: the decoded
      buffer as a single chunk (an empty buffer pushes nothing). */
  function InlineStream(buffer: seq<byte>, at: int): Stream {
    if buffer == [] then Stream([], false) else Stream([Chunk(buffer, at)], false)
  }

  /** `fileType.stream` rejects for a stream that errors before it has
      delivered anything: no sample is ever read. */
  predicate FailsBeforeData(s: Stream) {
    s.failed && s.chunks == []
  }

  /** A DOM element selected for relinking, seen through the one attribute
      that is rewritten; `remove()` detaches it. */
  datatype Element = Element(attr: JsString, attached: bool)

  /** The per-element rule of `changeLinks`: an unchanged value (`===`)
      leaves the element alone, a different truthy value replaces the
      attribute, a different falsy value removes the element. */
  function Relink(e: Element, newValue: JsString): (r: Element)
    ensures r.attr == e.attr || r.attr == newValue
    ensures r.attached ==> e.attached
  {
    if newValue == e.attr then e
    else if Truthy(newValue) then e.(attr := newValue)
    else e.(attached := false)
  }

  /** An element without the attribute is removed: `normalizeLink(undefined)`
      returns `null`, and `null !== undefined`. */
  lemma RelinkMissingAttribute(e: Element)
    requires e.attr == Undefined
    ensures Relink(e, Null) == e.(attached := false)
  {
  }

  /** Relinking only ever keeps, rewrites to the new value, or detaches. */
  lemma RelinkCases(e: Element, newValue: JsString)
    ensures Relink(e, newValue) == e <==> newValue == e.attr || (!Truthy(newValue) && !e.attached)
    ensures Relink(e, newValue).attr == newValue && newValue != e.attr ==> Truthy(newValue)
  {
  }

  class NormalizerService {
    const uploader: FileUploaderService

    constructor(uploader: FileUploaderService)
      ensures this.uploader == uploader
    {
      this.uploader := uploader;
    }

    function Canonical(key: string): string {
      CanonicalUrl(uploader.bucket, uploader.endpoint, key)
    }

    /** `generateNewUrl`: a key already in the bucket is a hit and returns its
        canonical URL with no download and no upload; otherwise the body is
        uploaded once under `hash` and the URL is built from the returned key.
        A null hash finds nothing and its upload is refused. */
    method GenerateNewUrl(hash: Option<string>, url: JsString, readable: Option<seq<byte>>) returns (r: Settled<string>)
      modifies uploader, uploader.net
      ensures hash.Some? && hash.value in old(uploader.objects) ==>
        r == Resolved(Canonical(hash.value)) && unchanged(uploader, uploader.net)
      ensures !(hash.Some? && hash.value in old(uploader.objects)) ==>
        var body := UploadBody(url, readable, old(uploader.net.responses));
        && (r.Resolved? <==> hash.Some? && body.Some?)
        && (r.Resolved? ==>
              r.value == Canonical(hash.value) &&
              uploader.objects == old(uploader.objects)[hash.value := S3Object(body.value, PublicRead)] &&
              uploader.uploads == old(uploader.uploads) + [hash.value])
        && (r.Rejected? ==> uploader.objects == old(uploader.objects) && uploader.uploads == old(uploader.uploads))
      ensures !(hash.Some? && hash.value in old(uploader.objects)) && !Truthy(url) ==> unchanged(uploader.net)
      ensures !(hash.Some? && hash.value in old(uploader.objects)) && Truthy(url) ==>
        uploader.net.responses == TapeAfterDownload(url, old(uploader.net.responses)) &&
        uploader.net.sent == old(uploader.net.sent) +
          (if RequestsDownload(url) then [HttpRequest(url.s, DownloadTimeoutMs)] else [])
      ensures r.Resolved? ==> hash.Some? && hash.value in uploader.objects && r.value == Canonical(hash.value)
    {
      var isUploaded := uploader.GetFromOceanSpaces(hash);
      if isUploaded.Some? {
        return Resolved(CanonicalUrl(uploader.bucket, uploader.endpoint, hash.value));
      }
      var body: Option<seq<byte>>;
      if Truthy(url) {
        var file := uploader.DownloadFileFromUrl(url);
        if file.None? {
          // destructuring `undefined` throws
          return Rejected;
        }
        body := StreamBody(file.value.fileStream);
      } else {
        body := readable;
      }
      var key := uploader.UploadToS3(body, hash);
      if key.None? {
        return Rejected;
      }
      r := Resolved(CanonicalUrl(uploader.bucket, uploader.endpoint, key.value));
    }

    /** Dedup is idempotent: once a call has hosted an asset under its
        digest, a second call for the same digest returns the same URL and
        uploads nothing. */
    method GenerateTwice(hash: string, url: JsString, readable: Option<seq<byte>>)
      returns (first: Settled<string>, second: Settled<string>)
      modifies uploader, uploader.net
      ensures first.Resolved? ==> second == first
      ensures first.Resolved? ==> |uploader.uploads| <= |old(uploader.uploads)| + 1
    {
      first := GenerateNewUrl(Some(hash), url, readable);
      ghost var uploadsBetween := uploader.uploads;
      second := GenerateNewUrl(Some(hash), url, readable);
      if first.Resolved? {
        assert uploader.uploads == uploadsBetween;
      }
    }

    /** `normalizeLink`: the decision tree over one asset URL. `null` for a
        falsy URL or a failed download; the URL itself for an undetected or
        disallowed file type; otherwise the canonical URL of the hosted copy,
        or `undefined` when anything on that path throws (a malformed data
        URL, a stream that errors before its first chunk, a stream error, an
        aborted hash, a failed re-download or upload). No object is ever
        removed from the bucket. */
    method NormalizeLink(url: JsString, codecs: Codecs, dataAt: int) returns (r: JsString)
      modifies uploader, uploader.net
      ensures !Truthy(url) ==> r == Null && unchanged(uploader, uploader.net)
      ensures IsDataImage(url) && DataUrlPayload(url.s).None? ==> r == Undefined && unchanged(uploader, uploader.net)
      ensures IsDataImage(url) && DataUrlPayload(url.s).Some? ==>
        var buffer := codecs.base64(DataUrlPayload(url.s).value);
        var hash := codecs.sha256Hex(buffer);
        && r == Str(Canonical(hash))
        && unchanged(uploader.net)
        && uploader.objects == (if hash in old(uploader.objects) then old(uploader.objects)
                                else old(uploader.objects)[hash := S3Object(buffer, PublicRead)])
      ensures Truthy(url) && !IsDataImage(url) ==>
        var d := TapeDownload(url, old(uploader.net.responses));
        && (d.None? || d.value.fileStream.None? ==>
              r == Null && unchanged(uploader))
        && (d.Some? && d.value.fileStream.Some? ==>
              var s := d.value.fileStream.value;
              var ext := codecs.fileType(Bytes(s.chunks));
              && (FailsBeforeData(s) ==>
                    r == Undefined && unchanged(uploader) &&
                    uploader.net.responses == TapeAfterDownload(url, old(uploader.net.responses)))
              && (!FailsBeforeData(s) && (ext.None? || ext.value !in ValidTypes) ==>
                    r == url && unchanged(uploader) &&
                    uploader.net.responses == TapeAfterDownload(url, old(uploader.net.responses)))
              && (!FailsBeforeData(s) && ext.Some? && ext.value in ValidTypes ==>
                    var h := HashOutcome(s, d.value.fileSize, codecs.sha256Hex);
                    && (!h.Digest? ==> r == Undefined && uploader.objects == old(uploader.objects))
                    && (h.Digest? && h.hex in old(uploader.objects) ==>
                          r == Str(Canonical(h.hex)) && unchanged(uploader))
                    && (h.Digest? && h.hex !in old(uploader.objects) ==>
                          var body := UploadBody(url, None, TapeAfterDownload(url, old(uploader.net.responses)));
                          && (body.Some? ==>
                                r == Str(Canonical(h.hex)) &&
                                uploader.objects == old(uploader.objects)[h.hex := S3Object(body.value, PublicRead)])
                          && (body.None? ==> r == Undefined && uploader.objects == old(uploader.objects)))))
      ensures r.Str? && r != url ==> exists key :: key in uploader.objects && r.s == Canonical(key)
      ensures old(uploader.objects).Keys <= uploader.objects.Keys
    {
      if !Truthy(url) {
        return Null;
      }
      if StartsWith(url.s, "data:image") {
        var payload := DataUrlPayload(url.s);
        if payload.None? {
          // `dataMatch[2]` of a failed match throws
          return Undefined;
        }
        var buffer := codecs.base64(payload.value);
        var readable := InlineStream(buffer, dataAt);
        DataUrlSizeNeverAborts(readable, codecs.sha256Hex);
        assert readable.chunks != [] ==> readable.chunks[..0] == [] && Bytes(readable.chunks) == buffer;
        var hashed := HashFile(readable, DataUrlFileSize, codecs.sha256Hex);
        var g := GenerateNewUrl(Some(hashed.hex), Null, Some(buffer));
        return Str(g.value);
      }
      var file := uploader.DownloadFileFromUrl(url);
      if file.None? || file.value.fileStream.None? {
        return Null;
      }
      var stream := file.value.fileStream.value;
      if stream.failed && stream.chunks == [] {
        // `await fileType.stream(fileStream)` rejects into the `catch`
        return Undefined;
      }
      var ext := codecs.fileType(Bytes(stream.chunks));
      if ext.None? {
        return url;
      }
      if ext.value in ValidTypes {
        var hashed := HashFile(stream, file.value.fileSize, codecs.sha256Hex);
        if hashed.StreamError? {
          return Undefined;
        }
        var hash := if hashed.Digest? then Some(hashed.hex) else None;
        var g := GenerateNewUrl(hash, url, None);
        if g.Rejected? {
          return Undefined;
        }
        r := Str(g.value);
      } else {
        r := url;
      }
    }

    /** `s` is the public URL of an object of `objects`. */
    predicate HostedIn(objects: map<string, S3Object>, s: string) {
      exists key :: key in objects && s == Canonical(key)
    }

    /** What `normalizeLink` can give for an attribute, given the objects in
        the bucket afterwards: `null` for a falsy one; for an inline image,
        `undefined` when malformed and otherwise the URL named by the digest of
        its decoded bytes; in every case the attribute itself, a non-string,
        or the URL of a hosted object. */
    predicate NewLink(attr: JsString, result: JsString, objects: map<string, S3Object>, codecs: Codecs) {
      && (!Truthy(attr) ==> result == Null)
      && (IsDataImage(attr) && DataUrlPayload(attr.s).None? ==> result == Undefined)
      && (IsDataImage(attr) && DataUrlPayload(attr.s).Some? ==>
            result == Str(Canonical(codecs.sha256Hex(codecs.base64(DataUrlPayload(attr.s).value)))))
      && (result == attr || !result.Str? || HostedIn(objects, result.s))
    }

    /** Later uploads never invalidate an earlier link: the bucket only grows. */
    lemma NewLinkGrows(attr: JsString, result: JsString, before: map<string, S3Object>,
                       after: map<string, S3Object>, codecs: Codecs)
      requires before.Keys <= after.Keys && NewLink(attr, result, before, codecs)
      ensures NewLink(attr, result, after, codecs)
    {
      if result != attr && result.Str? {
        var key :| key in before && result.s == Canonical(key);
        assert key in after;
      }
    }

    /** The first `|results|` elements of `elements` have links `results`. */
    predicate NewLinks(elements: seq<Element>, results: seq<JsString>, objects: map<string, S3Object>, codecs: Codecs) {
      forall k :: 0 <= k < |results| && k < |elements| ==> NewLink(elements[k].attr, results[k], objects, codecs)
    }

    /** `NewLinkGrows` for every link made so far. */
    lemma NewLinksGrow(elements: seq<Element>, results: seq<JsString>, before: map<string, S3Object>,
                       after: map<string, S3Object>, codecs: Codecs)
      requires before.Keys <= after.Keys && NewLinks(elements, results, before, codecs)
      ensures NewLinks(elements, results, after, codecs)
    {
      forall k | 0 <= k < |results| && k < |elements|
        ensures NewLink(elements[k].attr, results[k], after, codecs)
      {
        NewLinkGrows(elements[k].attr, results[k], before, after, codecs);
      }
    }

    /** `changeLinks`: each element's attribute goes through `normalizeLink`,
        in order, and the element is kept, rewritten or removed by `Relink`;
        an element that has no attribute is removed. */
    method ChangeLinks(elements: array<Element>, codecs: Codecs, dataAt: int) returns (ghost results: seq<JsString>)
      modifies elements, uploader, uploader.net
      ensures |results| == elements.Length
      ensures forall k :: 0 <= k < elements.Length ==> elements[k] == Relink(old(elements[k]), results[k])
      ensures forall k :: 0 <= k < elements.Length ==> NewLink(old(elements[k]).attr, results[k], uploader.objects, codecs)
      ensures old(uploader.objects).Keys <= uploader.objects.Keys
    {
      ghost var original := elements[..];
      results := [];
      for i := 0 to elements.Length
        invariant |results| == i
        invariant forall k :: 0 <= k < i ==> elements[k] == Relink(original[k], results[k])
        invariant forall k :: i <= k < elements.Length ==> elements[k] == original[k]
        invariant NewLinks(original, results, uploader.objects, codecs)
        invariant old(uploader.objects).Keys <= uploader.objects.Keys
      {
        var element := elements[i];
        ghost var objectsBefore := uploader.objects;
        var newSrc := NormalizeLink(element.attr, codecs, dataAt);
        NewLinksGrow(original, results, objectsBefore, uploader.objects, codecs);
        elements[i] := Relink(element, newSrc);
        results := results + [newSrc];
      }
      assert forall k :: 0 <= k < elements.Length ==> original[k] == old(elements[k]);
    }
  }
}
