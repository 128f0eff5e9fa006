# sheep-parser, modelled in Dafny

sheep-parser is a scheduled scraper. A parser lists the songs of a site (here
holychords.com), fetches each song page into a detailed song record, normalizes
the records, and pushes them one by one to a socket sink. Around that run sit:

- a normalizer that re-hosts asset links in an S3-compatible bucket. The object
  key is the SHA-256 of the file, so the same file is uploaded once;
- a streaming hash that gives up on slow downloads;
- a few string helpers (relative hrefs, industry slugs);
- a configuration switch that decides whether a run starts with the server.

The project models these pieces module by module:

- `Js`: the JavaScript values the code depends on: `undefined` versus `null`,
  truthiness, `String(x)`, `startsWith` and ASCII case folding.
- `Records`: the record interfaces (author, song identificator, detailed song,
  album, normalized song).
- `Config`: `MAX_PARSED_SONGS` read through `Number(...)`, which gives `NaN` or
  an integer, and the anchored, case-insensitive `START_WITH_SERVER` test.
- `Http`: the remote side, as a tape of responses consumed one request at a
  time, plus a log of the requests sent. A response stream is a list of timed
  chunks, optionally ending in an error.
- `FileUploader`: the bucket as a map from key to object, as a class with
  get / upload / delete / download methods.
- `Normalizer`:
  - the song record mapping;
  - the hash together with its abort rule;
  - data-URL decoding;
  - `generateNewUrl` (content-addressed dedup);
  - `normalizeLink` (the decision tree for one asset URL);
  - `changeLinks` over an array of elements;
  - the relative-href rule and the industry slug.
- `AbstractParser`: the base parser class. It holds the chunked detail
  parsing with its quota, the chunked normalization that stops at the first
  failing chunk, and the stage order of `start()`. A `Sink` class records
  what goes to the socket.
- `HolyChords`: the holychords parser. It covers the author list, the song
  list with its early stop, and the page-to-record mapping. It also shows
  that this parser's runs normalize every parsed song.

Each loop that updates the parsers' mutable state, the sink or the bucket is
a method with a `while`/`for` loop. It is proved against a recursive
specification function, and the properties are lemmas about that function.
Pure code is modelled as functions; a mapping over a list (`map`, or the
`.each` that fills a fresh array in `parsePage`) is a sequence comprehension. The two chunk loops
of the base parser count chunk starts `lo = i * threads` instead of the
chunk index `i`; `LoopTestIsChunkStart` shows that the loop test
`i < length / threads` is then `lo < length`.

Where the code and its description differ, the model follows the code.
`normalizeSong` does not re-host any link: its `normalizeLink` calls are
commented out (src/normalizer/normalizer.service.ts:34-57). So `NormalizeSong`
only maps fields, and link re-hosting is modelled separately through
`NormalizeLink` and `ChangeLinks`.

## Model

| member | source | states |
|---|---|---|
| Config.StartWithServerExactly | src/config/parser.ts:6-8 | the switch is on exactly when the variable is "1" or, ignoring ASCII case, "true" |
| Config.StartWithServerExamples | src/config/parser.ts:7 | "true", "TRUE", "True", "1" are accepted; "", "0", "yes", " true", "true1", "false" are refused |
| Config.StartWithServerUnset | src/config/parser.ts:7 | an unset variable tests the string "undefined" and is refused |
| Http.Network.Send | src/file-uploader/file-uploader.service.ts:70-75 | a request is logged and consumes the next response on the tape; an exhausted tape fails |
| FileUploader.DownloadGuardExamples | src/file-uploader/file-uploader.service.spec.ts:25-33 | null, undefined, "" and "/test" send no request; an absolute URL does |
| FileUploader.CanonicalUrl | src/normalizer/normalizer.service.ts:179-181 | the public URL starts with https:// and ends with the key |
| FileUploader.CanonicalUrlInjective | src/normalizer/normalizer.service.ts:179-181 | within one bucket and endpoint, different keys give different URLs |
| FileUploader.FileUploaderService.constructor | src/file-uploader/file-uploader.service.ts:36-95 | the service starts from the given bucket, endpoint, objects and network, with no uploads |
| FileUploader.FileUploaderService.GetFromOceanSpaces | src/file-uploader/file-uploader.service.ts:36-50 | an object is found exactly when the key is given and stored; a missing key yields nothing |
| FileUploader.FileUploaderService.UploadToS3 | src/file-uploader/file-uploader.service.ts:87-95 | with a body and a key the object is stored public-read under the key, which is returned; otherwise the store is unchanged |
| FileUploader.FileUploaderService.DeleteFromOceanSpaces | src/file-uploader/file-uploader.service.ts:56-62 | a given key is removed from the store; no key changes nothing |
| FileUploader.FileUploaderService.DownloadFileFromUrl | src/file-uploader/file-uploader.service.ts:64-85 | the result and the tape are those of TapeDownload; a GET with a 5000 ms timeout is sent only when the guard passes |
| Normalizer.NormalizeSong | src/normalizer/normalizer.service.ts:59-77 | a song without an album fails; otherwise every song field is copied, the album keeps title, image and author, and year, text and href are empty |
| Normalizer.NormalizeSongLosesOnlyAlbumHref | src/normalizer/normalizer.service.ts:59-77 | two songs with the same normalized form differ at most in the album's href |
| Normalizer.HashFile | src/normalizer/normalizer.service.ts:128-157 | the hash is null when some chunk trips the abort rule, a rejection on a stream error, otherwise the digest of all bytes |
| Normalizer.SlowIsSpeedBelowFloor | src/normalizer/normalizer.service.ts:139-141 | the integer speed test equals progress / elapsed < 15 for a positive elapsed time |
| Normalizer.BelowNinetyIsFraction | src/normalizer/normalizer.service.ts:141 | the integer size test equals progress / fileSize < 0.9 for a positive size |
| Normalizer.NoAbortOnceNinetyPercent | src/normalizer/normalizer.service.ts:137-145 | once 90% of the size has arrived, no later chunk can abort, however slow |
| Normalizer.NeverAbortsWithoutUsableSize | src/normalizer/normalizer.service.ts:141 | with a NaN or zero size the hash is never aborted |
| Normalizer.DataUrlSizeNeverAborts | src/normalizer/normalizer.service.ts:92 | with the 0.1 size given to inline images, non-empty chunks never abort the hash |
| Normalizer.AbortExamples | src/normalizer/normalizer.service.ts:137-145 | a slow first chunk at 10% of the size aborts; a slow first chunk at 90% does not, and neither does a slower second chunk |
| Normalizer.DataUrlRoundTrip | src/normalizer/normalizer.service.ts:85 | "data:" + media type + ";base64," + payload decodes to the payload |
| Normalizer.DataUrlPayloadShape | src/normalizer/normalizer.service.ts:85 | every accepted URL is "data:" + a media type + ";base64," + a non-empty payload with no line terminator |
| Normalizer.RelativeHref | src/normalizer/normalizer.service.ts:247-250 | an http/ftp link (any case) is kept; anything else, a missing href included, is prefixed with the host |
| Normalizer.UndefinedIsRelative | src/normalizer/normalizer.service.ts:248 | a missing href tests "undefined", which the pattern does not match |
| Normalizer.RelativeHrefIdempotent | src/normalizer/normalizer.service.ts:244-254 | with an absolute host, a second pass leaves a rewritten href alone |
| Normalizer.Split | src/normalizer/normalizer.service.ts:289 | splitting gives at least one part and no part contains the separator |
| Normalizer.JoinSplit | src/normalizer/normalizer.service.ts:289-313 | joining the parts with the separator gives back the original string |
| Normalizer.FirstMatchingKeyIsFirst | src/normalizer/normalizer.service.ts:296-307 | a key is chosen exactly when some entry matches, and it is the first matching entry in table order |
| Normalizer.DistinctIsSet | src/normalizer/normalizer.service.ts:310 | the collected slugs have no duplicates and are exactly the classified slugs |
| Normalizer.ClassifyPart | src/normalizer/normalizer.service.ts:291-309 | one part's slug is the first table key with a matching pattern, or "other" when none matches or that key is empty |
| Normalizer.NormalizeIndustryToSlug | src/normalizer/normalizer.service.ts:286-314 | the slug list is the comma-joined distinct classes of the "|"-separated parts, in first-occurrence order |
| Normalizer.IndustrySlugOfEmpty | src/normalizer/normalizer.service.ts:287 | a missing or empty input gives "other" |
| Normalizer.StreamBody | src/normalizer/normalizer.service.ts:168-177 | the upload has a body exactly when there is a stream and it does not fail |
| Normalizer.Relink | src/normalizer/normalizer.service.ts:263-269 | an element keeps its attribute or gets the new value, and is never re-attached |
| Normalizer.RelinkMissingAttribute | src/normalizer/normalizer.service.ts:260-267 | an element without the attribute is removed, because null !== undefined |
| Normalizer.RelinkCases | src/normalizer/normalizer.service.ts:263-269 | an element is unchanged exactly when the value is the same or it was already detached by a falsy value; a rewrite is always truthy |
| Normalizer.NormalizerService.constructor | src/normalizer/normalizer.service.ts:159-183 | the service uses the given uploader |
| Normalizer.NormalizerService.GenerateNewUrl | src/normalizer/normalizer.service.ts:159-183 | a stored key returns its URL with no download or upload; otherwise one upload under the hash, of a fresh download or of the given stream; a null hash or missing body rejects and stores nothing |
| Normalizer.NormalizerService.GenerateTwice | src/normalizer/normalizer.service.ts:159-183 | once an asset is hosted, a second call for its digest gives the same URL and uploads nothing |
| Normalizer.NormalizerService.NormalizeLink | src/normalizer/normalizer.service.ts:80-126 | falsy leads to null; a malformed data URL leads to undefined; a data image leads to the URL of its decoded bytes; a failed download leads to null; a stream that errors before its first chunk leads to undefined; an unknown or disallowed type keeps the URL; otherwise the hosted URL, or undefined when hashing or uploading fails; the bucket only gains keys |
| Normalizer.NormalizerService.NewLinkGrows | src/normalizer/normalizer.service.ts:256-276 | a link that names a hosted object still does after later uploads, as keys are never removed |
| Normalizer.NormalizerService.NewLinksGrow | src/normalizer/normalizer.service.ts:257-275 | the same for every link made so far by the loop |
| Normalizer.NormalizerService.ChangeLinks | src/normalizer/normalizer.service.ts:256-276 | every element is relinked with the link normalized from its own attribute, and each link is null for a falsy attribute, undefined for a malformed data image, the URL of the digest for a well-formed one, and otherwise the attribute, a non-string or the URL of an object still in the bucket at the end; the bucket only gains keys |
| AbstractParser.Sink.constructor | src/socket/socket.service.ts:13-15 | the socket connects on creation |
| AbstractParser.Sink.Reconnect | src/socket/socket.service.ts:38-40 | reconnecting adds one connect |
| AbstractParser.Sink.SendData | src/socket/socket.service.ts:29-31 | one "new parsed song" event carrying the song |
| AbstractParser.Sink.FinishSending | src/socket/socket.service.ts:33-36 | a "last parsed song" event with an empty payload, then a disconnect |
| AbstractParser.PackagesEmitCount | src/parsers/abstract/parser.abstract.ts:129-130 | sending emits exactly one event per song |
| AbstractParser.RunTracePackages | src/parsers/abstract/parser.abstract.ts:68-72 | a run emits one more event than there are songs; the terminal event is second-last and the disconnect last; the songs are in order between |
| AbstractParser.Chunk | src/parsers/abstract/parser.abstract.ts:83-85 | chunk i is the slice [i*w, (i+1)*w) clamped to the list, empty past the end |
| AbstractParser.LoopTestIsChunkStart | src/parsers/abstract/parser.abstract.ts:81 | the test i < n / w over real division holds exactly when chunk i starts inside the list |
| AbstractParser.ChunkStartsBelowCount | src/parsers/abstract/parser.abstract.ts:81 | the loop runs ceil(n / w) times |
| AbstractParser.ChunkIndices | src/parsers/abstract/parser.abstract.ts:83-85 | element k is in chunk i exactly when i*w <= k < (i+1)*w, at offset k - i*w |
| AbstractParser.ChunkExample | src/parsers/abstract/parser.abstract.ts:81-85 | 125 urls with width 50 make chunks of 50, 50 and 25 that put the list back together |
| AbstractParser.DetailsFrom | src/parsers/abstract/parser.abstract.ts:78-105 | the parse never consumes more urls than there are |
| AbstractParser.AbsorbExtends | src/parsers/abstract/parser.abstract.ts:88-94 | absorbing a chunk only appends to the detailed list |
| AbstractParser.AbsorbUncapped | src/parsers/abstract/parser.abstract.ts:89-92 | with a NaN or zero quota every non-null response is appended |
| AbstractParser.AbsorbNegative | src/parsers/abstract/parser.abstract.ts:91 | with a negative quota nothing is appended |
| AbstractParser.AbsorbCapped | src/parsers/abstract/parser.abstract.ts:89-92 | with a positive quota the list becomes the first q songs of the list followed by the responses |
| AbstractParser.ChunksParsed | src/parsers/abstract/parser.abstract.ts:81-102 | the number of chunks parsed under a positive quota is at least the starting chunk |
| AbstractParser.ChunksParsedIsFirst | src/parsers/abstract/parser.abstract.ts:81-102 | the parse stops at the first chunk boundary where the list is exhausted or the quota is reached |
| AbstractParser.StopAt | src/parsers/abstract/parser.abstract.ts:81-102 | under a positive quota the loop stops between its starting position and the end of the list |
| AbstractParser.StopAtChunkEnd | src/parsers/abstract/parser.abstract.ts:81-102 | the stopping position is the end of the last chunk parsed, clamped to the list |
| AbstractParser.CappedStep | src/parsers/abstract/parser.abstract.ts:88-102 | under a positive quota one chunk leaves the first q non-null responses up to its end, and the loop breaks exactly when q of them exist |
| AbstractParser.DetailsCappedFrom | src/parsers/abstract/parser.abstract.ts:78-105 | under a positive quota, from any chunk start on, the result is the first q non-null responses up to where the loop stops, and the urls consumed are those up to there |
| AbstractParser.NoQuotaStep | src/parsers/abstract/parser.abstract.ts:88-102 | with a NaN quota a chunk appends all its non-null responses and the loop goes on |
| AbstractParser.DetailsNoQuotaFrom | src/parsers/abstract/parser.abstract.ts:78-105 | with a NaN quota every remaining url is parsed and every non-null response kept |
| AbstractParser.DetailsNoQuota | src/parsers/abstract/parser.abstract.ts:78-105 | with a NaN quota the list is all non-null responses and every url is requested |
| AbstractParser.DetailsZeroQuota | src/parsers/abstract/parser.abstract.ts:91-102 | with quota 0 only the first chunk is parsed, in full, and then the loop breaks |
| AbstractParser.DetailsNegativeQuota | src/parsers/abstract/parser.abstract.ts:91-102 | with a negative quota the first chunk is requested and nothing is kept |
| AbstractParser.DetailsPositiveQuota | src/parsers/abstract/parser.abstract.ts:78-105 | with a positive quota at most q songs, the first q responses, and the parse stops early only once q is reached |
| AbstractParser.AbsorbIsSubsequence | src/parsers/abstract/parser.abstract.ts:88-94 | the appended songs are a subsequence of the responses: order is kept and nothing is invented |
| AbstractParser.AbsorbKeepsAlbums | src/parsers/abstract/parser.abstract.ts:88-94 | if every response has an album, so does every absorbed song |
| AbstractParser.DetailsKeepsAlbums | src/parsers/abstract/parser.abstract.ts:78-105 | if every response has an album, every parsed song has one and normalizes |
| AbstractParser.NormalizeStep | src/parsers/abstract/parser.abstract.ts:110-119 | a chunk in which every song normalizes is appended and the loop goes on |
| AbstractParser.NormalizeStopsAt | src/parsers/abstract/parser.abstract.ts:110-124 | a chunk holding a song that fails appends nothing and ends the loop |
| AbstractParser.NormalizeAllFrom | src/parsers/abstract/parser.abstract.ts:107-125 | when every song normalizes, the remaining chunks contribute all remaining songs, normalized |
| AbstractParser.NormalizeAll | src/parsers/abstract/parser.abstract.ts:107-125 | when every song normalizes, the result is all songs normalized, in order |
| AbstractParser.NormalizeFailureFrom | src/parsers/abstract/parser.abstract.ts:107-125 | a song that fails drops its whole chunk and every later one |
| AbstractParser.NormalizeFirstFailure | src/parsers/abstract/parser.abstract.ts:107-125 | with the first failure at index k, the result is the songs before k's chunk, normalized |
| AbstractParser.Parser.constructor | src/parsers/abstract/parser.abstract.ts:45-49 | a parser starts with empty lists and no history |
| AbstractParser.Parser.Clear | src/parsers/abstract/parser.abstract.ts:45-49 | the three lists are reset to empty |
| AbstractParser.Parser.ParseChunk | src/parsers/abstract/parser.abstract.ts:82-94 | the chunk's urls are requested in order and the detailed list becomes Absorb of their responses; nothing else changes |
| AbstractParser.Parser.ParseSongDetails | src/parsers/abstract/parser.abstract.ts:78-105 | the detailed list is DetailsFrom of the page responses, and exactly the consumed urls are requested, in order |
| AbstractParser.Parser.Normalize | src/parsers/abstract/parser.abstract.ts:107-125 | a null detailed list is caught and changes nothing; otherwise NormalizeFrom is appended |
| AbstractParser.Parser.SendUpdates | src/parsers/abstract/parser.abstract.ts:127-139 | the sink receives one package per normalized song, in order |
| AbstractParser.Parser.Process | src/parsers/abstract/parser.abstract.ts:58-62 | details are parsed, the url list dropped, the songs normalized, the detailed list dropped, in that order |
| AbstractParser.Parser.Report | src/parsers/abstract/parser.abstract.ts:68-72 | reconnect, one package per song, the terminal event and the disconnect |
| AbstractParser.Parser.Start | src/parsers/abstract/parser.abstract.ts:51-73 | a failing list stage ends the run; otherwise the full stage order, both lists null, normalized songs from the parsed details, and the run's trace on the sink |
| HolyChords.Prefixed | src/parsers/holychords/holychords.service.ts:45 | a truthy path becomes the site URL followed by the path; a falsy one becomes null |
| HolyChords.PrefixedInjective | src/parsers/holychords/holychords.service.ts:45 | different paths give different links |
| HolyChords.Enrich | src/parsers/holychords/holychords.service.ts:42-46 | name and uri are kept; the description is null exactly when empty; the image is prefixed |
| HolyChords.SongsOf | src/parsers/holychords/holychords.service.ts:47-52 | every collected song has a non-empty uri and the enriched author |
| HolyChords.SongsOfUris | src/parsers/holychords/holychords.service.ts:47-52 | the collected uris are exactly the truthy hrefs, in order |
| HolyChords.SongListFrom | src/parsers/holychords/holychords.service.ts:35-59 | the author list keeps its length and the loop visits a prefix of it; an author without an href is a rejected request |
| HolyChords.SongListVisitsFrom | src/parsers/holychords/holychords.service.ts:36-57 | when every request succeeds, the loop visits all authors under a NaN quota, else min(n, max(0, q+1) + 1) |
| HolyChords.SongListVisits | src/parsers/holychords/holychords.service.ts:36-57 | the same from the first author: the loop breaks after the author at index q+1, or after the first one when q+1 < 0 |
| HolyChords.SongListAuthorsFrom | src/parsers/holychords/holychords.service.ts:36-46 | visited authors are replaced by their enriched copies, the others kept |
| HolyChords.SongListThrowsFrom | src/parsers/holychords/holychords.service.ts:36-52 | a failing request, including the one for an author without an href, is the one for the author after the visited ones, and songs pushed earlier are never changed or removed |
| HolyChords.SongListThrowsAtMissingHref | src/parsers/holychords/holychords.service.ts:36-38 | when every request before an author without an href succeeds and the quota does not stop the loop, the stage throws exactly at that author |
| HolyChords.SongListPushedFrom | src/parsers/holychords/holychords.service.ts:47-52 | every pushed song has a non-empty uri and one of the visited, enriched authors |
| HolyChords.SongListShape | src/parsers/holychords/holychords.service.ts:35-59 | the whole song-list stage: enriched prefix, untouched rest, where it throws, and what it pushes |
| HolyChords.ParsePage | src/parsers/holychords/holychords.service.ts:85-133 | no record exactly when the uri is empty or the page cannot be read |
| HolyChords.ParsePageFields | src/parsers/holychords/holychords.service.ts:113-128 | every field of the record comes from the page, links are prefixed, and the album carries the identificator's author |
| HolyChords.ParsePageNormalizes | src/parsers/holychords/holychords.service.ts:122-127 | every parsed record has an album, so normalizeSong accepts it |
| HolyChords.NormalizeKeepsEverySong | src/parsers/holychords/holychords.service.ts:135-137 | the normalize stage of a holychords run keeps every parsed song, in order |
| HolyChords.HolyChordsService.constructor | src/parsers/holychords/holychords.service.ts:16-27 | the service starts with no authors |
| HolyChords.HolyChordsService.GetAuthorList | src/parsers/holychords/holychords.service.ts:61-79 | a listing that cannot be read gives null and no authors; otherwise one author per anchor is appended |
| HolyChords.HolyChordsService.GetSongList | src/parsers/holychords/holychords.service.ts:35-59 | authors, pushed songs and the failure are those of SongListFrom, where an author without an href rejects like a failed request |
| HolyChords.HolyChordsService.Start | src/parsers/holychords/holychords.service.ts:139-141 | author list, song list, then the base run with widths 50 and 100; a song list that throws stops the run after the clear and list stages, with no page requested, nothing normalized and nothing sent; otherwise the full stage order, and every parsed song is sent normalized |

## Left out

- Network, S3, socket and file-system I/O are parameters of the model.
  - HTTP responses are a pre-recorded tape.
  - Artist pages and song pages are functions from a link to the extracted content (or nothing when the request fails).
  - The bucket is a map.
  - The socket is a trace of events.
- HTML parsing with cheerio is left out. The model starts from what the selectors extract (`AuthorAnchor`, `ArtistPage`, `PageExtract`, `Element`).
- SHA-256, base64 decoding and file-type sniffing are opaque functions in `Codecs`.
- The industry table (`industries.json`) and `RegExp(subIndustry, 'i').test` are parameters of `NormalizeIndustryToSlug`.
- Concurrency is left out. `Promise.all` is modelled as its result: the responses in request order. Interleaving of requests within a chunk is left out.
- Clocks are left out. The elapsed time of each stream chunk is a given integer number of milliseconds.
- Floating point is left out:
  - `fileSize` is an exact rational (`content-length` parsed to a number, or NaN);
  - `MAX_PARSED_SONGS` is NaN or an integer; fractional and infinite values are left out;
  - rounding in `progress / elapsed` and `progress / fileSize` is left out.
- Normalizer.NormalizerService.GenerateNewUrl: a null hash (an aborted transfer) finds no stored object and is refused by the upload. This assumes the S3 client rejects a request without a key.
- Normalizer.NormalizerService.ChangeLinks: the `catch` that removes an element cannot be reached, because `normalizeLink` catches everything itself.
- `normalizeHtml`, `clearHtmlFromAttribs`, `cleanAllTags`, `normalizeTime` and the other slug helpers are left out. No core operation calls them: `normalizeSong` has these calls commented out.
- `changeRelativeHref` is modelled as the rule applied to each href (`RelativeHref`). Loading and serialising the cheerio document is left out.
- `writeNormalizingListToFile`, the development-mode logging, `watchProcess` spinners, heap logs and the logger are left out. They do not affect the data.
- In `sendUpdates`, the logging test `i + 1 % 100 === 0` (which reads as `i + (1 % 100)`) only decides when a log line is written, so it is left out.
- AbstractParser.Parser.ParseSongDetails: requires both lists to be present. `start()` always provides them, and the null case of a direct call is left out.
- AbstractParser.Parser.ParseSongDetails: the page function always answers, with a record or null, so a `parsePage` that rejects, and with it `Promise.all` and the whole run, is not modelled. The holychords `parsePage` catches every error and gives null, so this parser never rejects there.
- HolyChords.ParsePage: the page request is a deterministic function. A page may fail (caught as null), but the same link gives the same result each time.
- AbstractParser.Sink.FinishSending: the acknowledgement of the last event is assumed. A server that never answers would leave the run hanging, and that case is left out.
- The scheduler (`schedule.service.ts`), dependency injection, `getAllFromOceanSpaces`, the user agent and the transport errors of `deleteObject` are left out.
- `sendGetRequest(null)` for an author without an href is a failed request in the model (`ArtistRequest`), as axios rejects a request without a URL. That failure ends the song-list stage, as the uncaught error does in the code.
