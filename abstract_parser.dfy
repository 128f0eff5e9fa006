/** The run of a parser (src/parsers/abstract/parser.abstract.ts): three list
    fields filled stage by stage, chunked page parsing under a song quota,
    chunked normalization, and the socket packages sent at the end. */
module AbstractParser {
  import opened Js
  import opened Records
  import opened Config
  import Normalizer

  // ---------------------------------------------------------------------------
  // The socket the parser reports to

  const NewParsedSong := "new parsed song"
  const LastParsedSong := "last parsed song"

  datatype Payload = SongPayload(song: NormalizedSong) | EmptyPayload

  datatype SinkEvent = Connect | Emit(event: string, payload: Payload) | Disconnect

  /** The socket service seen through what it sends: a trace of connections,
      emitted events and disconnections. */
  class Sink {
    var trace: seq<SinkEvent>

    /** The service connects when it is constructed. */
    constructor()
      ensures trace == [Connect]
    {
      trace := [Connect];
    }

    method Reconnect()
      modifies this
      ensures trace == old(trace) + [Connect]
    {
      trace := trace + [Connect];
    }

    method SendData(song: NormalizedSong)
      modifies this
      ensures trace == old(trace) + [Emit(NewParsedSong, SongPayload(song))]
    {
      trace := trace + [Emit(NewParsedSong, SongPayload(song))];
    }

    /** The terminal package `{}`, then the disconnection. */
    method FinishSending()
      modifies this
      ensures trace == old(trace) + [Emit(LastParsedSong, EmptyPayload), Disconnect]
    {
      trace := trace + [Emit(LastParsedSong, EmptyPayload), Disconnect];
    }
  }

  /** One `new parsed song` package per song, in list order. */
  function Packages(songs: seq<NormalizedSong>): seq<SinkEvent>
  {
    seq(|songs|, k requires 0 <= k < |songs| => Emit(NewParsedSong, SongPayload(songs[k])))
  }

  /** What the socket sees from the end of a successful run. */
  function RunTrace(songs: seq<NormalizedSong>): seq<SinkEvent> {
    [Connect] + Packages(songs) + [Emit(LastParsedSong, EmptyPayload), Disconnect]
  }

  function EmitCount(t: seq<SinkEvent>): nat {
    if t == [] then 0 else (if t[0].Emit? then 1 else 0) + EmitCount(t[1..])
  }

  lemma {:induction false} EmitCountAppend(a: seq<SinkEvent>, b: seq<SinkEvent>)
    ensures EmitCount(a + b) == EmitCount(a) + EmitCount(b)
  {
    if a == [] {
      assert a + b == b;
    } else {
      assert (a + b)[1..] == a[1..] + b;
      EmitCountAppend(a[1..], b);
    }
  }

  lemma {:induction false} PackagesEmitCount(songs: seq<NormalizedSong>)
    ensures EmitCount(Packages(songs)) == |songs|
  {
    if songs != [] {
      assert Packages(songs) == [Packages(songs)[0]] + Packages(songs[1..]);
      EmitCountAppend([Packages(songs)[0]], Packages(songs[1..]));
      PackagesEmitCount(songs[1..]);
    }
  }

  /** K normalized songs make K + 1 packages: one per song, in order, and the
      terminal `last parsed song`, which is the last package and the only one
      of its kind, followed by the disconnection. */
  lemma RunTracePackages(songs: seq<NormalizedSong>)
    ensures var t := RunTrace(songs);
      && EmitCount(t) == |songs| + 1
      && t[|t| - 2] == Emit(LastParsedSong, EmptyPayload) && t[|t| - 1] == Disconnect
      && (forall k :: 0 < k < |t| - 2 ==> t[k] == Emit(NewParsedSong, SongPayload(songs[k - 1])))
  {
    var t := RunTrace(songs);
    EmitCountAppend([Connect] + Packages(songs), [Emit(LastParsedSong, EmptyPayload), Disconnect]);
    EmitCountAppend([Connect], Packages(songs));
    PackagesEmitCount(songs);
    assert EmitCount([Emit(LastParsedSong, EmptyPayload), Disconnect]) == 1 by {
      assert [Emit(LastParsedSong, EmptyPayload), Disconnect][1..] == [Disconnect];
      assert [Disconnect][1..] == [];
    }
    assert EmitCount([Connect]) == 0 by {
      assert [Connect][1..] == [];
    }
  }

  // ---------------------------------------------------------------------------
  // Chunking: `for (let i = 0; i < list.length / threads; i++)` over
  // `list.slice(i * threads, (i + 1) * threads)`

  /** `list.slice(i * w, (i + 1) * w)`: slice bounds past the end are clamped. */
  function Chunk<T>(s: seq<T>, i: nat, w: int): (c: seq<T>)
    requires w > 0
    ensures i * w < |s| ==> c == s[i * w..Min(i * w + w, |s|)]
    ensures i * w >= |s| ==> c == []
  {
    s[Min(i * w, |s|)..Min(i * w + w, |s|)]
  }

  /** The loop test `i < n / w` of a JavaScript number division is the test
      that chunk `i` starts inside the list. */
  lemma LoopTestIsChunkStart(i: nat, n: nat, w: int)
    requires w > 0
    ensures (i as real) < (n as real) / (w as real) <==> i * w < n
  {
    var r := (n as real) / (w as real);
    assert r * (w as real) == n as real;
    assert (i * w) as real == (i as real) * (w as real);
    if (i as real) < r {
      assert (i as real) * (w as real) < r * (w as real);
    } else {
      assert (i as real) * (w as real) >= r * (w as real);
    }
  }

  lemma MulLe(a: int, b: int, c: int)
    requires a <= b && c >= 0
    ensures a * c <= b * c
  {
    assert b * c - a * c == (b - a) * c;
  }

  /** The chunk count `ceil(n / w)`. */
  function ChunkCount(n: nat, w: int): nat
    requires w > 0
  {
    (n + w - 1) / w
  }

  /** The loop runs chunk `i` exactly when `i` is below the chunk count. */
  lemma ChunkStartsBelowCount(i: nat, n: nat, w: int)
    requires w > 0
    ensures i * w < n <==> i < ChunkCount(n, w)
  {
    var c := ChunkCount(n, w);
    assert c * w <= n + w - 1 < c * w + w;
    if i < c {
      MulLe(i, c - 1, w);
      assert (c - 1) * w == c * w - w;
    } else {
      MulLe(c, i, w);
    }
  }

  /** The chunks partition the list: chunk `i` holds exactly the items with
      index in `[i * w, (i + 1) * w)`. */
  lemma ChunkIndices<T>(s: seq<T>, i: nat, w: int, k: int)
    requires w > 0 && 0 <= k < |s|
    ensures i * w <= k < i * w + w <==> (i * w < |s| && 0 <= k - i * w < |Chunk(s, i, w)| && Chunk(s, i, w)[k - i * w] == s[k])
  {
  }

  /** 125 identificators at width 50 make chunks of 50, 50 and 25. */
  lemma ChunkExample(s: seq<int>)
    requires |s| == 125
    ensures ChunkCount(|s|, 50) == 3
    ensures |Chunk(s, 0, 50)| == 50 && |Chunk(s, 1, 50)| == 50 && |Chunk(s, 2, 50)| == 25
    ensures Chunk(s, 0, 50) + Chunk(s, 1, 50) + Chunk(s, 2, 50) == s
    ensures Chunk(s, 3, 50) == []
  {
    assert s[0..50] + s[50..100] + s[100..125] == s;
  }

  // ---------------------------------------------------------------------------
  // parseSongDetails

  /** `!maxParsedSogs || length < maxParsedSogs`: `NaN` and 0 admit
      everything; any other quota admits while the list is shorter. */
  predicate Admits(quota: Quota, length: int) {
    quota.NaN? || quota.q == 0 || length < quota.q
  }

  /** `length >= maxParsedSogs`: never for `NaN`. */
  predicate Reached(quota: Quota, length: int) {
    quota.Finite? && length >= quota.q
  }

  /** The inner loop over one chunk's page results: a missing result is
      skipped, a present one is pushed while the quota admits. */
  function Absorb(list: seq<DetailedSong>, resps: seq<Option<DetailedSong>>, quota: Quota): seq<DetailedSong>
    decreases |resps|
  {
    if resps == [] then list
    else
      var next := if resps[0].Some? && Admits(quota, |list|) then list + [resps[0].value] else list;
      Absorb(next, resps[1..], quota)
  }

  /** The first `n` items (all of them if there are fewer). */
  function Take<T>(s: seq<T>, n: int): (r: seq<T>)
    requires n >= 0
    ensures |r| == Min(n, |s|) && r == s[..|r|]
  {
    s[..Min(n, |s|)]
  }

  /** The pages `parsePage` yields for a list of identificators; `Promise.all`
      keeps the input order. */
  function Responses(urls: seq<SongIdentificator>, page: SongIdentificator -> Option<DetailedSong>): seq<Option<DetailedSong>>
  {
    seq(|urls|, k requires 0 <= k < |urls| => page(urls[k]))
  }


  /** The detailed list a run of `parseSongDetails` ends with, and how many
      identificators it handed to `parsePage`. */
  datatype DetailsOutcome = DetailsOutcome(list: seq<DetailedSong>, consumed: nat)

  /** The outer loop from the chunk starting at position `lo` (that is,
      `i * w` for chunk `i`) on, over the page results `rs`. */
  function DetailsFrom(rs: seq<Option<DetailedSong>>, w: int, quota: Quota, lo: nat, list: seq<DetailedSong>): (d: DetailsOutcome)
    requires w > 0
    ensures d.consumed <= |rs|
    decreases |rs| - lo
  {
    if lo >= |rs| then DetailsOutcome(list, |rs|)
    else
      var e := Min(lo + w, |rs|);
      var next := Absorb(list, rs[lo..e], quota);
      if Reached(quota, |next|) then DetailsOutcome(next, e)
      else DetailsFrom(rs, w, quota, lo + w, next)
  }

  /** The identificators requested so far grow by one chunk. */
  lemma PrefixStep(requested: seq<SongIdentificator>, urls: seq<SongIdentificator>, lo: nat, hi: nat)
    requires lo <= hi <= |urls|
    ensures (requested + urls[..lo]) + urls[lo..hi] == requested + urls[..hi]
  {
    assert urls[..hi] == urls[..lo] + urls[lo..hi];
  }

  /** One turn of the outer loop, over the identificators themselves. */
  lemma DetailsStep(urls: seq<SongIdentificator>, page: SongIdentificator -> Option<DetailedSong>, w: int, quota: Quota,
                    lo: nat, list: seq<DetailedSong>)
    requires w > 0 && lo < |urls|
    ensures var hi := Min(lo + w, |urls|);
      var next := Absorb(list, Responses(urls[lo..hi], page), quota);
      var rs := Responses(urls, page);
      && urls[..hi] == urls[..lo] + urls[lo..hi]
      && DetailsFrom(rs, w, quota, lo, list) ==
           if Reached(quota, |next|) then DetailsOutcome(next, hi) else DetailsFrom(rs, w, quota, lo + w, next)
  {
    var hi := Min(lo + w, |urls|);
    assert Responses(urls[lo..hi], page) == Responses(urls, page)[lo..hi];
  }

  /** Entries already in the list are never modified or removed. */
  lemma {:induction false} AbsorbExtends(list: seq<DetailedSong>, resps: seq<Option<DetailedSong>>, quota: Quota)
    ensures |Absorb(list, resps, quota)| >= |list| && Absorb(list, resps, quota)[..|list|] == list
    decreases |resps|
  {
    if resps != [] {
      var next := if resps[0].Some? && Admits(quota, |list|) then list + [resps[0].value] else list;
      AbsorbExtends(next, resps[1..], quota);
      assert next[..|list|] == list;
    }
  }

  /** Without a usable quota (`NaN` or 0) every present page is pushed, in order. */
  lemma {:induction false} AbsorbUncapped(list: seq<DetailedSong>, resps: seq<Option<DetailedSong>>, quota: Quota)
    requires quota.NaN? || quota.q == 0
    ensures Absorb(list, resps, quota) == list + Somes(resps)
    decreases |resps|
  {
    if resps != [] {
      var next := if resps[0].Some? then list + [resps[0].value] else list;
      AbsorbUncapped(next, resps[1..], quota);
    }
  }

  /** A negative quota admits nothing. */
  lemma {:induction false} AbsorbNegative(list: seq<DetailedSong>, resps: seq<Option<DetailedSong>>, q: int)
    requires q < 0
    ensures Absorb(list, resps, Finite(q)) == list
    decreases |resps|
  {
    if resps != [] {
      AbsorbNegative(list, resps[1..], q);
    }
  }

  /** A positive quota `q` caps the list at exactly the first `q` present pages. */
  lemma {:induction false} AbsorbCapped(list: seq<DetailedSong>, resps: seq<Option<DetailedSong>>, q: int)
    requires q > 0 && |list| <= q
    ensures Absorb(list, resps, Finite(q)) == Take(list + Somes(resps), q)
    decreases |resps|
  {
    if resps == [] {
      assert list + Somes(resps) == list;
    } else {
      var next := if resps[0].Some? && |list| < q then list + [resps[0].value] else list;
      AbsorbCapped(next, resps[1..], q);
      assert Somes(resps) == (if resps[0].Some? then [resps[0].value] else []) + Somes(resps[1..]);
      var all := list + Somes(resps);
      if resps[0].Some? && |list| < q {
        assert next + Somes(resps[1..]) == all;
      } else if resps[0].Some? {
        assert Take(next + Somes(resps[1..]), q) == list;
        assert Take(all, q) == list by {
          assert all[..q] == list;
        }
      } else {
        assert next + Somes(resps[1..]) == all;
      }
    }
  }

  lemma TakeOfTake<T>(a: seq<T>, b: seq<T>, q: int)
    requires q >= 0
    ensures Take(Take(a, q) + b, q) == Take(a + b, q)
  {
    if |a| >= q {
      assert (a + b)[..q] == a[..q];
      assert (a[..q] + b)[..q] == a[..q];
    } else {
      assert Take(a, q) == a;
    }
  }

  /** The number of chunks parsed from chunk `i` on under a positive quota:
      every chunk until the one whose end brings the present pages to `q`. */
  function ChunksParsed(rs: seq<Option<DetailedSong>>, w: int, q: int, i: nat): (k: nat)
    requires w > 0
    ensures k >= i
    decreases |rs| - i * w
  {
    if i * w >= |rs| then i
    else if |Somes(rs[..Min(i * w + w, |rs|)])| >= q then i + 1
    else
      assert (i + 1) * w == i * w + w;
      ChunksParsed(rs, w, q, i + 1)
  }

  /** The loop stops at the first chunk end where the quota is reached: no
      earlier chunk end reaches it, and the chunk it stops after does, unless
      the list ran out first. */
  lemma {:induction false} ChunksParsedIsFirst(rs: seq<Option<DetailedSong>>, w: int, q: int, i: nat)
    requires w > 0
    ensures var k := ChunksParsed(rs, w, q, i);
      && (k * w >= |rs| || |Somes(rs[..k * w])| >= q)
      && (i * w < |rs| ==> k > i)
      && forall j :: i < j < k ==> j * w < |rs| && |Somes(rs[..j * w])| < q
    decreases |rs| - i * w
  {
    if i * w < |rs| {
      assert (i + 1) * w == i * w + w;
      if |Somes(rs[..Min(i * w + w, |rs|)])| < q {
        ChunksParsedIsFirst(rs, w, q, i + 1);
        if i * w + w >= |rs| {
          assert ChunksParsed(rs, w, q, i + 1) == i + 1;
        }
      }
    }
  }

  /** Where parsing stops from position `lo` on under a positive quota: the
      end of the first chunk whose end brings the present pages to `q`, or
      the end of the list. */
  function StopAt(rs: seq<Option<DetailedSong>>, w: int, q: int, lo: nat): (c: nat)
    requires w > 0
    ensures Min(lo, |rs|) <= c <= |rs|
    decreases |rs| - lo
  {
    if lo >= |rs| then |rs|
    else
      var e := Min(lo + w, |rs|);
      if |Somes(rs[..e])| >= q then e else StopAt(rs, w, q, lo + w)
  }

  /** The stop is the end of chunk number `ChunksParsed`. */
  lemma {:induction false} StopAtChunkEnd(rs: seq<Option<DetailedSong>>, w: int, q: int, i: nat)
    requires w > 0
    ensures StopAt(rs, w, q, i * w) == Min(ChunksParsed(rs, w, q, i) * w, |rs|)
    decreases |rs| - i * w
  {
    if i * w < |rs| {
      assert (i + 1) * w == i * w + w;
      if |Somes(rs[..Min(i * w + w, |rs|)])| < q {
        StopAtChunkEnd(rs, w, q, i + 1);
      }
    }
  }

  /** One chunk under a positive quota, starting from the first `q` present
      pages before `lo`: the list becomes the first `q` present pages up to
      the chunk's end, and the loop stops once there are `q` of them. */
  lemma CappedStep(rs: seq<Option<DetailedSong>>, w: int, q: int, lo: nat)
    requires w > 0 && q > 0 && lo < |rs|
    ensures var e := Min(lo + w, |rs|);
      var next := Take(Somes(rs[..e]), q);
      DetailsFrom(rs, w, Finite(q), lo, Take(Somes(rs[..lo]), q)) ==
        if |Somes(rs[..e])| >= q then DetailsOutcome(next, e) else DetailsFrom(rs, w, Finite(q), lo + w, next)
  {
    var list := Take(Somes(rs[..lo]), q);
    var e := Min(lo + w, |rs|);
    assert rs[..e] == rs[..lo] + rs[lo..e];
    SomesAppend(rs[..lo], rs[lo..e]);
    AbsorbCapped(list, rs[lo..e], q);
    TakeOfTake(Somes(rs[..lo]), Somes(rs[lo..e]), q);
    assert Absorb(list, rs[lo..e], Finite(q)) == Take(Somes(rs[..e]), q);
  }

  /** The list after the chunk ending at `lo` under a positive quota is the
      first `q` present pages among the identificators parsed so far. */
  lemma {:induction false} DetailsCappedFrom(rs: seq<Option<DetailedSong>>, w: int, q: int, lo: nat)
    requires w > 0 && q > 0
    ensures var c := StopAt(rs, w, q, lo);
      DetailsFrom(rs, w, Finite(q), lo, Take(Somes(rs[..Min(lo, |rs|)]), q)) == DetailsOutcome(Take(Somes(rs[..c]), q), c)
    decreases |rs| - lo
  {
    if lo < |rs| {
      CappedStep(rs, w, q, lo);
      if |Somes(rs[..Min(lo + w, |rs|)])| < q {
        DetailsCappedFrom(rs, w, q, lo + w);
      }
    }
  }

  /** One chunk under a `NaN` quota: all its present pages are kept and the
      loop goes on. */
  lemma NoQuotaStep(rs: seq<Option<DetailedSong>>, w: int, lo: nat, list: seq<DetailedSong>)
    requires w > 0 && lo < |rs|
    ensures DetailsFrom(rs, w, NaN, lo, list) ==
            DetailsFrom(rs, w, NaN, lo + w, list + Somes(rs[lo..Min(lo + w, |rs|)]))
  {
    AbsorbUncapped(list, rs[lo..Min(lo + w, |rs|)], NaN);
  }

  /** Keeping the present pages of `rs[lo..e]` and then of `rs[e..]` keeps
      those of `rs[lo..]`. */
  lemma SomesSplit<T>(list: seq<T>, rs: seq<Option<T>>, lo: nat, e: nat)
    requires lo <= e <= |rs|
    ensures (list + Somes(rs[lo..e])) + Somes(rs[e..]) == list + Somes(rs[lo..])
  {
    assert rs[lo..] == rs[lo..e] + rs[e..];
    SomesAppend(rs[lo..e], rs[e..]);
    assert (list + Somes(rs[lo..e])) + Somes(rs[e..]) == list + (Somes(rs[lo..e]) + Somes(rs[e..]));
  }

  /** With a `NaN` quota every present page is kept, in order, and every
      identificator is parsed. */
  lemma {:induction false} DetailsNoQuotaFrom(rs: seq<Option<DetailedSong>>, w: int, lo: nat, list: seq<DetailedSong>)
    requires w > 0
    ensures DetailsFrom(rs, w, NaN, lo, list) == DetailsOutcome(list + Somes(rs[Min(lo, |rs|)..]), |rs|)
    decreases |rs| - lo
  {
    if lo >= |rs| {
      assert rs[Min(lo, |rs|)..] == [];
    } else {
      var e := Min(lo + w, |rs|);
      NoQuotaStep(rs, w, lo, list);
      DetailsNoQuotaFrom(rs, w, lo + w, list + Somes(rs[lo..e]));
      SomesSplit(list, rs, lo, e);
    }
  }

  lemma DetailsNoQuota(rs: seq<Option<DetailedSong>>, w: int)
    requires w > 0
    ensures DetailsFrom(rs, w, NaN, 0, []) == DetailsOutcome(Somes(rs), |rs|)
  {
    DetailsNoQuotaFrom(rs, w, 0, []);
    assert rs[0..] == rs;
  }

  /** A 0 quota admits every page of the first chunk, then `length >= 0`
      stops the loop. */
  lemma DetailsZeroQuota(rs: seq<Option<DetailedSong>>, w: int)
    requires w > 0
    ensures var e := Min(w, |rs|);
      DetailsFrom(rs, w, Finite(0), 0, []) == DetailsOutcome(Somes(rs[..e]), e)
  {
    if |rs| > 0 {
      AbsorbUncapped([], rs[0..Min(w, |rs|)], Finite(0));
      assert rs[0..Min(w, |rs|)] == rs[..Min(w, |rs|)];
    }
  }

  /** A negative quota keeps nothing and stops after the first chunk. */
  lemma DetailsNegativeQuota(rs: seq<Option<DetailedSong>>, w: int, q: int)
    requires w > 0 && q < 0
    ensures DetailsFrom(rs, w, Finite(q), 0, []) == DetailsOutcome([], Min(w, |rs|))
  {
    if |rs| > 0 {
      AbsorbNegative([], rs[0..Min(w, |rs|)], q);
    }
  }

  /** A positive quota `q`: the list is the first `q` present pages among the
      parsed identificators, never more than `q`; parsing stopped early only
      because the list reached `q`; and it stopped at the first chunk end
      where the present pages reached `q`. */
  lemma DetailsPositiveQuota(rs: seq<Option<DetailedSong>>, w: int, q: int)
    requires w > 0 && q > 0
    ensures var d := DetailsFrom(rs, w, Finite(q), 0, []);
      var k := ChunksParsed(rs, w, q, 0);
      && d.consumed == StopAt(rs, w, q, 0)
      && d.consumed == Min(k * w, |rs|)
      && d.list == Take(Somes(rs[..d.consumed]), q)
      && |d.list| <= q
      && (d.consumed < |rs| ==> |d.list| == q)
      && (forall j :: 0 < j < k ==> j * w < |rs| && |Somes(rs[..j * w])| < q)
  {
    DetailsCappedFrom(rs, w, q, 0);
    ChunksParsedIsFirst(rs, w, q, 0);
    StopAtChunkEnd(rs, w, q, 0);
    assert Take(Somes(rs[..0]), q) == [];
  }

  /** `a` is `b` with some items left out, order kept. */
  ghost predicate IsSubsequence<T>(a: seq<T>, b: seq<T>)
    decreases |b|
  {
    if a == [] then true
    else if b == [] then false
    else if a[0] == b[0] then IsSubsequence(a[1..], b[1..])
    else IsSubsequence(a, b[1..])
  }

  lemma {:induction false} SubsequenceCons<T>(x: T, a: seq<T>, b: seq<T>)
    requires IsSubsequence(a, b)
    ensures IsSubsequence([x] + a, [x] + b)
  {
    assert ([x] + a)[1..] == a;
    assert ([x] + b)[1..] == b;
  }

  lemma {:induction false} SubsequenceSkip<T>(x: T, a: seq<T>, b: seq<T>)
    requires IsSubsequence(a, b)
    ensures IsSubsequence(a, [x] + b)
    decreases |b|, 1
  {
    assert ([x] + b)[1..] == b;
    if a != [] && a[0] == x {
      // `a[0]` pairs with `x`; the rest of `a` must fit in `b`
      SubsequenceTail(a, b);
    }
  }

  lemma {:induction false} SubsequenceTail<T>(a: seq<T>, b: seq<T>)
    requires a != [] && IsSubsequence(a, b)
    ensures IsSubsequence(a[1..], b)
    decreases |b|, 0
  {
    if a[0] == b[0] {
      if a[1..] != [] {
        SubsequenceSkip(b[0], a[1..], b[1..]);
        assert [b[0]] + b[1..] == b;
      }
    } else {
      SubsequenceTail(a, b[1..]);
      if a[1..] != [] {
        SubsequenceSkip(b[0], a[1..], b[1..]);
        assert [b[0]] + b[1..] == b;
      }
    }
  }

  /** Whatever the quota, the list only grows by present pages of parsed
      identificators, in their input order. */
  lemma {:induction false} AbsorbIsSubsequence(list: seq<DetailedSong>, resps: seq<Option<DetailedSong>>, quota: Quota)
    ensures |Absorb(list, resps, quota)| >= |list|
    ensures IsSubsequence(Absorb(list, resps, quota)[|list|..], Somes(resps))
    decreases |resps|
  {
    AbsorbExtends(list, resps, quota);
    if resps == [] {
      assert Absorb(list, resps, quota)[|list|..] == [];
    } else {
      var rest := Somes(resps[1..]);
      assert Somes(resps) == (if resps[0].Some? then [resps[0].value] else []) + rest;
      var r := Absorb(list, resps, quota);
      if resps[0].Some? && Admits(quota, |list|) {
        var next := list + [resps[0].value];
        AbsorbIsSubsequence(next, resps[1..], quota);
        AbsorbExtends(next, resps[1..], quota);
        assert r[|list|..] == [resps[0].value] + r[|next|..];
        SubsequenceCons(resps[0].value, r[|next|..], rest);
      } else {
        assert r == Absorb(list, resps[1..], quota);
        AbsorbIsSubsequence(list, resps[1..], quota);
        if resps[0].Some? {
          SubsequenceSkip(resps[0].value, r[|list|..], rest);
          assert Somes(resps) == [resps[0].value] + rest;
        } else {
          assert Somes(resps) == rest;
        }
      }
    }
  }

  predicate AllHaveAlbums(songs: seq<DetailedSong>) {
    forall k :: 0 <= k < |songs| ==> songs[k].album.Some?
  }

  lemma {:induction false} AbsorbKeepsAlbums(list: seq<DetailedSong>, resps: seq<Option<DetailedSong>>, quota: Quota)
    requires AllHaveAlbums(list)
    requires forall k :: 0 <= k < |resps| && resps[k].Some? ==> resps[k].value.album.Some?
    ensures AllHaveAlbums(Absorb(list, resps, quota))
    decreases |resps|
  {
    if resps != [] {
      var next := if resps[0].Some? && Admits(quota, |list|) then list + [resps[0].value] else list;
      assert forall k :: 0 <= k < |resps[1..]| ==> resps[1..][k] == resps[k + 1];
      AbsorbKeepsAlbums(next, resps[1..], quota);
    }
  }

  /** Songs that all have an album stay that way through the page stage:
      the detailed list only ever receives page results. */
  lemma {:induction false} DetailsKeepsAlbums(rs: seq<Option<DetailedSong>>, w: int, quota: Quota, lo: nat, list: seq<DetailedSong>)
    requires w > 0 && AllHaveAlbums(list)
    requires forall k :: 0 <= k < |rs| && rs[k].Some? ==> rs[k].value.album.Some?
    ensures AllHaveAlbums(DetailsFrom(rs, w, quota, lo, list).list)
    ensures AllNormalize(DetailsFrom(rs, w, quota, lo, list).list)
    decreases |rs| - lo
  {
    if lo < |rs| {
      var e := Min(lo + w, |rs|);
      assert forall k :: 0 <= k < e - lo ==> rs[lo..e][k] == rs[lo + k];
      AbsorbKeepsAlbums(list, rs[lo..e], quota);
      var next := Absorb(list, rs[lo..e], quota);
      if !Reached(quota, |next|) {
        DetailsKeepsAlbums(rs, w, quota, lo + w, next);
      }
    }
  }

  // ---------------------------------------------------------------------------
  // normalize

  predicate AllNormalize(songs: seq<DetailedSong>) {
    forall k :: 0 <= k < |songs| ==> Normalizer.NormalizeSong(songs[k]).Some?
  }

  function NormalizedAll(songs: seq<DetailedSong>): seq<NormalizedSong>
    requires AllNormalize(songs)
  {
    seq(|songs|, k requires 0 <= k < |songs| => Normalizer.NormalizeSong(songs[k]).value)
  }

  /** The songs `normalize` appends from the chunk at position `lo` on: a
      chunk in which some `normalizeSong` throws rejects its `Promise.all`,
      so that chunk is not appended and the loop ends (the error is caught
      and logged). */
  function NormalizeFrom(songs: seq<DetailedSong>, w: int, lo: nat): seq<NormalizedSong>
    requires w > 0
    decreases |songs| - lo
  {
    if lo >= |songs| then []
    else
      var chunk := songs[lo..Min(lo + w, |songs|)];
      if AllNormalize(chunk) then NormalizedAll(chunk) + NormalizeFrom(songs, w, lo + w)
      else []
  }

  lemma AllNormalizeSlice(songs: seq<DetailedSong>, lo: nat, hi: nat)
    requires lo <= hi <= |songs| && AllNormalize(songs)
    ensures AllNormalize(songs[lo..hi])
  {
    forall k | 0 <= k < hi - lo
      ensures Normalizer.NormalizeSong(songs[lo..hi][k]).Some?
    {
      assert songs[lo..hi][k] == songs[lo + k];
    }
  }

  lemma NormalizedAllAppend(a: seq<DetailedSong>, b: seq<DetailedSong>)
    requires AllNormalize(a) && AllNormalize(b) && AllNormalize(a + b)
    ensures NormalizedAll(a + b) == NormalizedAll(a) + NormalizedAll(b)
  {
    var l, r := NormalizedAll(a + b), NormalizedAll(a) + NormalizedAll(b);
    forall k | 0 <= k < |a| + |b|
      ensures l[k] == r[k]
    {
      if k < |a| {
        assert (a + b)[k] == a[k];
      } else {
        assert (a + b)[k] == b[k - |a|];
      }
    }
  }

  /** A chunk that normalizes is appended and the loop goes on. */
  lemma NormalizeStep(songs: seq<DetailedSong>, w: int, lo: nat, hi: nat)
    requires w > 0 && lo < |songs| && hi == Min(lo + w, |songs|) && AllNormalize(songs[lo..hi])
    ensures NormalizeFrom(songs, w, lo) == NormalizedAll(songs[lo..hi]) + NormalizeFrom(songs, w, lo + w)
  {
  }

  /** Appending a chunk that normalizes keeps what is still to come. */
  lemma NormalizeAppend(done: seq<NormalizedSong>, songs: seq<DetailedSong>, w: int, lo: nat, hi: nat)
    requires w > 0 && lo < |songs| && hi == Min(lo + w, |songs|) && AllNormalize(songs[lo..hi])
    ensures done + NormalizeFrom(songs, w, lo) == (done + NormalizedAll(songs[lo..hi])) + NormalizeFrom(songs, w, lo + w)
  {
    NormalizeStep(songs, w, lo, hi);
    var a, b := NormalizedAll(songs[lo..hi]), NormalizeFrom(songs, w, lo + w);
    assert done + (a + b) == (done + a) + b;
  }

  /** A chunk holding a song that fails ends the loop with nothing appended. */
  lemma NormalizeStopsAt(songs: seq<DetailedSong>, w: int, lo: nat, k: nat)
    requires w > 0 && lo <= k < lo + w && k < |songs| && Normalizer.NormalizeSong(songs[k]).None?
    ensures NormalizeFrom(songs, w, lo) == []
  {
    assert songs[lo..Min(lo + w, |songs|)][k - lo] == songs[k];
  }

  lemma NormalizedAllSplit(songs: seq<DetailedSong>, lo: nat, m: nat, s: nat)
    requires lo <= m <= s <= |songs| && AllNormalize(songs[lo..s])
    ensures AllNormalize(songs[lo..m]) && AllNormalize(songs[m..s])
    ensures NormalizedAll(songs[lo..s]) == NormalizedAll(songs[lo..m]) + NormalizedAll(songs[m..s])
  {
    assert songs[lo..s] == songs[lo..m] + songs[m..s];
    forall j | 0 <= j < m - lo
      ensures Normalizer.NormalizeSong(songs[lo..m][j]).Some?
    {
      assert songs[lo..m][j] == songs[lo..s][j];
    }
    forall j | 0 <= j < s - m
      ensures Normalizer.NormalizeSong(songs[m..s][j]).Some?
    {
      assert songs[m..s][j] == songs[lo..s][m - lo + j];
    }
    NormalizedAllAppend(songs[lo..m], songs[m..s]);
  }

  /** A chunk of a list that normalizes throughout is appended whole. */
  lemma NormalizeAllStep(songs: seq<DetailedSong>, w: int, lo: nat, e: nat)
    requires w > 0 && AllNormalize(songs) && lo < |songs| && e == Min(lo + w, |songs|)
    ensures AllNormalize(songs[lo..]) && AllNormalize(songs[lo..e]) && AllNormalize(songs[e..])
    ensures NormalizeFrom(songs, w, lo) == NormalizedAll(songs[lo..e]) + NormalizeFrom(songs, w, lo + w)
    ensures NormalizedAll(songs[lo..]) == NormalizedAll(songs[lo..e]) + NormalizedAll(songs[e..])
  {
    AllNormalizeSlice(songs, lo, |songs|);
    NormalizedAllSplit(songs, lo, e, |songs|);
    NormalizeStep(songs, w, lo, e);
    assert songs[lo..] == songs[lo..|songs|];
    assert songs[e..] == songs[e..|songs|];
  }

  lemma {:induction false} NormalizeAllFrom(songs: seq<DetailedSong>, w: int, lo: nat)
    requires w > 0 && AllNormalize(songs)
    ensures NormalizeFrom(songs, w, lo) == NormalizedAll(songs[Min(lo, |songs|)..])
    decreases |songs| - lo
  {
    if lo < |songs| {
      NormalizeAllStep(songs, w, lo, Min(lo + w, |songs|));
      NormalizeAllFrom(songs, w, lo + w);
    } else {
      assert |NormalizedAll(songs[Min(lo, |songs|)..])| == 0;
    }
  }

  /** When every song normalizes, one normalized song is appended per
      detailed song, in order, whatever the width. */
  lemma NormalizeAll(songs: seq<DetailedSong>, w: int)
    requires w > 0 && AllNormalize(songs)
    ensures NormalizeFrom(songs, w, 0) == NormalizedAll(songs)
  {
    NormalizeAllFrom(songs, w, 0);
    assert songs[0..] == songs;
  }

  /** `s` is a chunk start when the chunks start at `lo`: `lo + j * w`. */
  predicate OnGrid(lo: nat, w: int, s: nat)
    requires w > 0
    decreases s - lo
  {
    s == lo || (s >= lo + w && OnGrid(lo + w, w, s))
  }

  lemma {:induction false} GridMultiple(lo: nat, w: int, j: nat)
    requires w > 0
    ensures OnGrid(lo, w, lo + j * w)
    decreases j
  {
    if j > 0 {
      assert lo + w + (j - 1) * w == lo + j * w;
      MulLe(1, j, w);
      GridMultiple(lo + w, w, j - 1);
    }
  }

  lemma AllNormalizeBefore(songs: seq<DetailedSong>, k: nat, lo: nat, hi: nat)
    requires lo <= hi <= k <= |songs| && AllNormalize(songs[..k])
    ensures AllNormalize(songs[lo..hi])
  {
    forall m | 0 <= m < hi - lo
      ensures Normalizer.NormalizeSong(songs[lo..hi][m]).Some?
    {
      assert songs[lo..hi][m] == songs[..k][lo + m];
    }
  }

  /** A full chunk before the failing one is appended, and lies inside the
      prefix that normalizes. */
  lemma FullChunkBefore(songs: seq<DetailedSong>, w: int, lo: nat, s: nat, k: nat)
    requires w > 0 && lo + w <= s <= k < |songs| && AllNormalize(songs[..k])
    ensures AllNormalize(songs[lo..s]) && AllNormalize(songs[lo..lo + w]) && AllNormalize(songs[lo + w..s])
    ensures NormalizeFrom(songs, w, lo) == NormalizedAll(songs[lo..lo + w]) + NormalizeFrom(songs, w, lo + w)
    ensures NormalizedAll(songs[lo..s]) == NormalizedAll(songs[lo..lo + w]) + NormalizedAll(songs[lo + w..s])
  {
    AllNormalizeBefore(songs, k, lo, s);
    NormalizedAllSplit(songs, lo, lo + w, s);
    NormalizeStep(songs, w, lo, lo + w);
  }

  /** A song `k` that fails, in the chunk starting at `s`, with every song
      before it normalizing: the chunks from `lo` up to that chunk are
      appended and nothing from it on. */
  lemma {:induction false} NormalizeFailureFrom(songs: seq<DetailedSong>, w: int, lo: nat, s: nat, k: nat)
    requires w > 0 && k < |songs|
    requires OnGrid(lo, w, s) && s <= k < s + w
    requires AllNormalize(songs[..k]) && Normalizer.NormalizeSong(songs[k]).None?
    ensures lo <= s && AllNormalize(songs[lo..s])
    ensures NormalizeFrom(songs, w, lo) == NormalizedAll(songs[lo..s])
    decreases s - lo
  {
    if s == lo {
      NormalizeStopsAt(songs, w, lo, k);
      assert songs[lo..s] == [];
    } else {
      NormalizeFailureFrom(songs, w, lo + w, s, k);
      FullChunkBefore(songs, w, lo, s, k);
    }
  }

  lemma DivBounds(k: nat, w: int)
    requires w > 0
    ensures (k / w) * w <= k < (k / w) * w + w
  {
    assert k == (k / w) * w + k % w;
  }

  /** When song `k` is the first that fails to normalize, the chunks before
      its chunk are appended and nothing after: the failing chunk is dropped
      along with everything that follows it. */
  lemma NormalizeFirstFailure(songs: seq<DetailedSong>, w: int, k: nat)
    requires w > 0 && k < |songs|
    requires AllNormalize(songs[..k]) && Normalizer.NormalizeSong(songs[k]).None?
    ensures (k / w) * w <= k && AllNormalize(songs[..(k / w) * w])
    ensures NormalizeFrom(songs, w, 0) == NormalizedAll(songs[..(k / w) * w])
  {
    var j := k / w;
    DivBounds(k, w);
    GridMultiple(0, w, j);
    NormalizeFailureFrom(songs, w, 0, j * w, k);
    assert songs[0..j * w] == songs[..j * w];
  }

  // ---------------------------------------------------------------------------
  // The parser

  /** The stages of `start()`, in the order it runs them. */
  datatype Stage =
    | Cleared | Listed | DetailsParsed | UrlListDropped | Normalized
    | DetailedListDropped | Reconnected | Sent | Finished

  /** What the subclass's `parseSongUrlList` did: the identificators it
      pushed, and whether it threw (which rejects `start()` right there). */
  datatype ListOutcome = ListOutcome(pushed: seq<SongIdentificator>, threw: bool)

  const FullRun: seq<Stage> :=
    [Cleared, Listed, DetailsParsed, UrlListDropped, Normalized, DetailedListDropped, Reconnected, Sent, Finished]

  class Parser {
    /** `_songUrlList`; `None` is the `null` `start()` assigns once the pages are parsed. */
    var songUrlList: Option<seq<SongIdentificator>>
    /** `_songDetailedList`; `None` is the `null` assigned after normalization. */
    var songDetailedList: Option<seq<DetailedSong>>
    var normalizedSongs: seq<NormalizedSong>
    /** The stages `start()` has completed. */
    ghost var stages: seq<Stage>
    /** Every identificator handed to `parsePage`, in order. */
    ghost var pageRequests: seq<SongIdentificator>
    const sink: Sink

    constructor(sink: Sink)
      ensures this.sink == sink
      ensures songUrlList == Some([]) && songDetailedList == Some([]) && normalizedSongs == []
      ensures stages == [] && pageRequests == []
    {
      this.sink := sink;
      songUrlList := Some([]);
      songDetailedList := Some([]);
      normalizedSongs := [];
      stages := [];
      pageRequests := [];
    }

    method Clear()
      modifies this
      ensures songUrlList == Some([]) && songDetailedList == Some([]) && normalizedSongs == []
      ensures stages == old(stages) && pageRequests == old(pageRequests)
    {
      songUrlList := Some([]);
      songDetailedList := Some([]);
      normalizedSongs := [];
    }

    /** One chunk of `parseSongDetails`: request the pages of `chunk`, then
        the inner loop over their results. */
    method ParseChunk(chunk: seq<SongIdentificator>, page: SongIdentificator -> Option<DetailedSong>, quota: Quota)
      requires songDetailedList.Some?
      modifies this
      ensures songDetailedList == Some(Absorb(old(songDetailedList.value), Responses(chunk, page), quota))
      ensures songUrlList == old(songUrlList) && normalizedSongs == old(normalizedSongs)
      ensures stages == old(stages) && pageRequests == old(pageRequests) + chunk
    {
      pageRequests := pageRequests + chunk;
      var resps := Responses(chunk, page);
      for j := 0 to |resps|
        invariant songDetailedList.Some? && songUrlList == old(songUrlList)
        invariant normalizedSongs == old(normalizedSongs)
        invariant stages == old(stages) && pageRequests == old(pageRequests) + chunk
        invariant Absorb(songDetailedList.value, resps[j..], quota) == Absorb(old(songDetailedList.value), resps, quota)
      {
        assert resps[j..][1..] == resps[j + 1..];
        var resp := resps[j];
        if resp.Some? && Admits(quota, |songDetailedList.value|) {
          songDetailedList := Some(songDetailedList.value + [resp.value]);
        }
      }
      assert resps[|resps|..] == [];
    }

    /** `parseSongDetails(threads)`, with `parsePage` and the quota as inputs. */
    method ParseSongDetails(threads: int, quota: Quota, page: SongIdentificator -> Option<DetailedSong>)
      requires threads > 0
      requires songUrlList.Some? && songDetailedList.Some?
      modifies this
      ensures var d := DetailsFrom(Responses(old(songUrlList.value), page), threads, quota, 0, old(songDetailedList.value));
        songDetailedList == Some(d.list) && pageRequests == old(pageRequests) + old(songUrlList.value)[..d.consumed]
      ensures songUrlList == old(songUrlList) && normalizedSongs == old(normalizedSongs) && stages == old(stages)
    {
      var urls := songUrlList.value;
      ghost var rs := Responses(urls, page);
      ghost var target := DetailsFrom(rs, threads, quota, 0, songDetailedList.value);
      ghost var requested := pageRequests;
      // `lo` is `i * threads`; `lo < length` is the test `i < length / threads`
      var lo: nat := 0;
      while lo < |urls|
        invariant songDetailedList.Some? && songUrlList == old(songUrlList)
        invariant normalizedSongs == old(normalizedSongs) && stages == old(stages)
        invariant DetailsFrom(rs, threads, quota, lo, songDetailedList.value) == target
        invariant pageRequests == requested + urls[..Min(lo, |urls|)]
        decreases |urls| - lo
      {
        var hi := Min(lo + threads, |urls|);
        var chunk := urls[lo..hi];
        ghost var before := songDetailedList.value;
        DetailsStep(urls, page, threads, quota, lo, before);
        ParseChunk(chunk, page, quota);
        PrefixStep(requested, urls, lo, hi);
        ghost var next := songDetailedList.value;
        if Reached(quota, |songDetailedList.value|) {
          assert target == DetailsOutcome(next, hi);
          break;
        }
        assert DetailsFrom(rs, threads, quota, lo + threads, next) == target;
        lo := lo + threads;
      }
    }

    /** `normalize(threads)`: a `null` detailed list throws inside the `try`,
        so nothing is appended. */
    method Normalize(threads: int)
      requires threads > 0
      modifies this
      ensures old(songDetailedList).None? ==> normalizedSongs == old(normalizedSongs)
      ensures old(songDetailedList).Some? ==>
        normalizedSongs == old(normalizedSongs) + NormalizeFrom(old(songDetailedList.value), threads, 0)
      ensures songUrlList == old(songUrlList) && songDetailedList == old(songDetailedList)
      ensures stages == old(stages) && pageRequests == old(pageRequests)
    {
      if songDetailedList.None? {
        return;
      }
      var songs := songDetailedList.value;
      // `lo` is `i * threads`
      var lo: nat := 0;
      while lo < |songs|
        invariant songUrlList == old(songUrlList) && songDetailedList == old(songDetailedList)
        invariant stages == old(stages) && pageRequests == old(pageRequests)
        invariant old(normalizedSongs) + NormalizeFrom(songs, threads, 0) == normalizedSongs + NormalizeFrom(songs, threads, lo)
        decreases |songs| - lo
      {
        var hi := Min(lo + threads, |songs|);
        var chunk := songs[lo..hi];
        if !AllNormalize(chunk) {
          assert NormalizeFrom(songs, threads, lo) == [];
          assert normalizedSongs + [] == normalizedSongs;
          break;
        }
        NormalizeAppend(normalizedSongs, songs, threads, lo, hi);
        normalizedSongs := normalizedSongs + NormalizedAll(chunk);
        lo := lo + threads;
      }
    }

    /** `sendUpdates()`: one `sendData` per normalized song, in list order. */
    method SendUpdates()
      modifies sink
      ensures sink.trace == old(sink.trace) + Packages(normalizedSongs)
    {
      for i := 0 to |normalizedSongs|
        invariant sink.trace == old(sink.trace) + Packages(normalizedSongs[..i])
      {
        sink.SendData(normalizedSongs[i]);
        assert Packages(normalizedSongs[..i + 1]) == Packages(normalizedSongs[..i]) + [Emit(NewParsedSong, SongPayload(normalizedSongs[i]))];
      }
      assert normalizedSongs[..|normalizedSongs|] == normalizedSongs;
    }

    /** The middle of `start()`: parse the pages, drop the identificator
        list, normalize, drop the detailed list. */
    method Process(page: SongIdentificator -> Option<DetailedSong>, quota: Quota, detailsWidth: int, normalizeWidth: int)
      requires detailsWidth > 0 && normalizeWidth > 0
      requires songUrlList.Some? && songDetailedList == Some([])
      modifies this
      ensures var d := DetailsFrom(Responses(old(songUrlList.value), page), detailsWidth, quota, 0, []);
        && normalizedSongs == old(normalizedSongs) + NormalizeFrom(d.list, normalizeWidth, 0)
        && pageRequests == old(pageRequests) + old(songUrlList.value)[..d.consumed]
      ensures songUrlList.None? && songDetailedList.None?
      ensures stages == old(stages) + [DetailsParsed, UrlListDropped, Normalized, DetailedListDropped]
    {
      ParseSongDetails(detailsWidth, quota, page);
      stages := stages + [DetailsParsed];
      songUrlList := None;
      stages := stages + [UrlListDropped];
      Normalize(normalizeWidth);
      stages := stages + [Normalized];
      songDetailedList := None;
      stages := stages + [DetailedListDropped];
    }

    /** The end of `start()`: reconnect the socket, send every normalized
        song, then the terminal package. */
    method Report()
      modifies this, sink
      ensures sink.trace == old(sink.trace) + RunTrace(normalizedSongs)
      ensures stages == old(stages) + [Reconnected, Sent, Finished]
      ensures songUrlList == old(songUrlList) && songDetailedList == old(songDetailedList)
      ensures normalizedSongs == old(normalizedSongs) && pageRequests == old(pageRequests)
    {
      sink.Reconnect();
      stages := stages + [Reconnected];
      SendUpdates();
      ghost var packages := Packages(normalizedSongs);
      assert sink.trace == old(sink.trace) + [Connect] + packages;
      stages := stages + [Sent];
      sink.FinishSending();
      stages := stages + [Finished];
    }

    /** `start()`: clear, list, parse the pages, drop the identificator list,
        normalize, drop the detailed list, reconnect, send, finish. A list
        stage that throws rejects the run after it. */
    method Start(listing: ListOutcome, page: SongIdentificator -> Option<DetailedSong>, quota: Quota,
                 detailsWidth: int, normalizeWidth: int)
      requires detailsWidth > 0 && normalizeWidth > 0
      modifies this, sink
      ensures listing.threw ==>
        && stages == old(stages) + [Cleared, Listed]
        && songUrlList == Some(listing.pushed) && songDetailedList == Some([]) && normalizedSongs == []
        && pageRequests == old(pageRequests) && sink.trace == old(sink.trace)
      ensures !listing.threw ==>
        var d := DetailsFrom(Responses(listing.pushed, page), detailsWidth, quota, 0, []);
        && stages == old(stages) + FullRun
        && songUrlList.None? && songDetailedList.None?
        && normalizedSongs == NormalizeFrom(d.list, normalizeWidth, 0)
        && pageRequests == old(pageRequests) + listing.pushed[..d.consumed]
        && sink.trace == old(sink.trace) + RunTrace(normalizedSongs)
    {
      Clear();
      stages := stages + [Cleared];
      assert songUrlList.value + listing.pushed == listing.pushed;
      songUrlList := Some(songUrlList.value + listing.pushed);
      stages := stages + [Listed];
      if listing.threw {
        return;
      }
      Process(page, quota, detailsWidth, normalizeWidth);
      assert stages == old(stages) + [Cleared, Listed] + [DetailsParsed, UrlListDropped, Normalized, DetailedListDropped];
      Report();
      assert [Cleared, Listed] + [DetailsParsed, UrlListDropped, Normalized, DetailedListDropped] + [Reconnected, Sent, Finished] == FullRun;
    }
  }
}
