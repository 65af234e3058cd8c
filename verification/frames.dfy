/** The incremental MJPEG splitter: services/unifi-video-jpg/stream/runner.go, readFrames and extractFrame.

    Markers are two bytes long: 0xFF followed by a code. SOI and EOI are those of Table B.1,
    section B.1.1.3 of ITU-T T.81. */
module Frames {

  newtype Byte = x: int | 0 <= x < 256

  const SOI: Byte := 0xD8
  const EOI: Byte := 0xD9
  const MAX_BUFFER := 2 * 1024 * 1024
  const MAX_READ := 64 * 1024

  // ---------- searching for markers ----------

  /** The bytes a and b stand at the indices i and i + 1 of d. */
  predicate Pair(d: seq<Byte>, a: Byte, b: Byte, i: int) {
    0 <= i && i + 1 < |d| && d[i] == a && d[i + 1] == b
  }

  /** The marker 0xFF `code` stands at index i of d. */
  predicate At(d: seq<Byte>, code: Byte, i: int) { Pair(d, 0xFF, code, i) }

  ghost predicate Absent(d: seq<Byte>, code: Byte, from: int) {
    forall i :: from <= i < |d| ==> !At(d, code, i)
  }

  /** bytes.Index from a given offset: the first marker at or after it, or -1. */
  function Index(d: seq<Byte>, code: Byte, from: nat): (r: int)
    ensures r == -1 || (from <= r && At(d, code, r))
    ensures forall i :: from <= i < (if r < 0 then |d| else r) ==> !At(d, code, i)
    decreases |d| - from
  {
    if from >= |d| then -1
    else if At(d, code, from) then from
    else Index(d, code, from + 1)
  }

  /** bytes.LastIndex below a given bound: the last marker before it, or -1. */
  function LastIndex(d: seq<Byte>, code: Byte, below: nat): (r: int)
    ensures r == -1 || (r < below && At(d, code, r))
    ensures forall i :: r < i < below ==> !At(d, code, i)
  {
    if below == 0 then -1
    else if At(d, code, below - 1) then below - 1
    else LastIndex(d, code, below - 1)
  }

  lemma Assoc<T>(a: seq<T>, b: seq<T>, c: seq<T>)
    ensures (a + b) + c == a + (b + c)
  {
  }

  lemma CancelPrefix<T>(a: seq<T>, b: seq<T>, c: seq<T>)
    ensures a + b == a + c <==> b == c
  {
    assert (a + b)[|a|..] == b && (a + c)[|a|..] == c;
  }

  // ---------- one frame ----------

  datatype Extracted = NotFound | Found(frame: seq<Byte>, rest: seq<Byte>)

  function ExtractFrame(data: seq<Byte>): Extracted {
    var soi := Index(data, SOI, 0);
    if soi < 0 then NotFound
    else
      var eoi := Index(data, EOI, soi + 2);
      if eoi < 0 then NotFound else Found(data[soi..eoi + 2], data[eoi + 2..])
  }

  /** An independent account of a frame: it runs from FF D8 to the first FF D9 past it. */
  ghost predicate IsFrame(f: seq<Byte>) {
    && 4 <= |f| && f[0] == 0xFF && f[1] == 0xD8 && f[|f| - 2] == 0xFF && f[|f| - 1] == 0xD9
    && forall i :: 2 <= i < |f| - 2 ==> !Pair(f, 0xFF, 0xD9, i)
  }

  /** ExtractFrame finds the stretch from s to e + 2 exactly when FF D8 first stands at s and FF D9 first
      stands at e past it. */
  lemma ExtractFrameMeaning(data: seq<Byte>, s: nat, e: nat)
    requires s + 2 <= e && e + 2 <= |data|
    ensures ExtractFrame(data) == Found(data[s..e + 2], data[e + 2..])
       <==> (Pair(data, 0xFF, 0xD8, s) && (forall i :: 0 <= i < s ==> !Pair(data, 0xFF, 0xD8, i))
             && Pair(data, 0xFF, 0xD9, e) && (forall i :: s + 2 <= i < e ==> !Pair(data, 0xFF, 0xD9, i)))
  {
    assert forall i, c :: At(data, c, i) <==> Pair(data, 0xFF, c, i);
    var soi := Index(data, SOI, 0);
    if soi >= 0 {
      var eoi := Index(data, EOI, soi + 2);
      if eoi >= 0 {
        assert |data[e + 2..]| == |data[eoi + 2..]| ==> e == eoi;
        assert e == eoi && |data[s..e + 2]| == |data[soi..eoi + 2]| ==> s == soi;
      }
    }
  }

  lemma ExtractBetween(data: seq<Byte>, s: nat, e: nat)
    requires At(data, SOI, s) && forall i :: 0 <= i < s ==> !At(data, SOI, i)
    requires s + 2 <= e && At(data, EOI, e) && forall i :: s + 2 <= i < e ==> !At(data, EOI, i)
    ensures ExtractFrame(data) == Found(data[s..e + 2], data[e + 2..])
  {
  }

  lemma ExtractedIsFrame(data: seq<Byte>)
    requires ExtractFrame(data).Found?
    ensures IsFrame(ExtractFrame(data).frame)
    ensures |ExtractFrame(data).rest| + |ExtractFrame(data).frame| <= |data|
  {
    var soi := Index(data, SOI, 0);
    var eoi := Index(data, EOI, soi + 2);
    var f := data[soi..eoi + 2];
    forall i | 2 <= i < |f| - 2 ensures !Pair(f, 0xFF, 0xD9, i) {
      assert !At(data, EOI, soi + i);
    }
  }

  // ---------- splitting a whole stream at once ----------

  datatype Parsed = Parsed(frames: seq<seq<Byte>>, rest: seq<Byte>)

  function Split(data: seq<Byte>): (p: Parsed)
    ensures ExtractFrame(p.rest).NotFound?
    ensures |p.rest| <= |data|
    decreases |data|
  {
    match ExtractFrame(data)
    case NotFound => Parsed([], data)
    case Found(frame, rest) =>
      var tail := Split(rest);
      Parsed([frame] + tail.frames, tail.rest)
  }

  /** A complete frame stays the first frame whatever follows. */
  lemma ExtractExtends(a: seq<Byte>, b: seq<Byte>)
    requires ExtractFrame(a).Found?
    ensures ExtractFrame(a + b) == Found(ExtractFrame(a).frame, ExtractFrame(a).rest + b)
  {
    var soi := Index(a, SOI, 0);
    var eoi := Index(a, EOI, soi + 2);
    assert forall i, c | 0 <= i < |a| - 1 :: At(a + b, c, i) == At(a, c, i);
    assert (a + b)[soi..eoi + 2] == a[soi..eoi + 2];
    assert (a + b)[eoi + 2..] == a[eoi + 2..] + b;
    ExtractBetween(a + b, soi, eoi);
  }

  lemma SplitStep(a: seq<Byte>)
    requires ExtractFrame(a).Found?
    ensures Split(a).frames == [ExtractFrame(a).frame] + Split(ExtractFrame(a).rest).frames
    ensures Split(a).rest == Split(ExtractFrame(a).rest).rest
  {
  }

  /** Splitting composes: the unfinished remainder of a prefix is all the splitter must remember. */
  lemma {:induction false} SplitAppend(a: seq<Byte>, b: seq<Byte>)
    ensures Split(a + b).frames == Split(a).frames + Split(Split(a).rest + b).frames
    ensures Split(a + b).rest == Split(Split(a).rest + b).rest
    decreases |a|
  {
    if ExtractFrame(a).Found? {
      var f, r := ExtractFrame(a).frame, ExtractFrame(a).rest;
      ExtractExtends(a, b);
      SplitAppend(r, b);
      SplitStep(a);
      SplitStep(a + b);
      Assoc([f], Split(r).frames, Split(Split(r).rest + b).frames);
    }
  }

  // ---------- the reader's rounds ----------

  /** The part of readFrames that limits the buffer after a round. */
  function Trim(buf: seq<Byte>): seq<Byte> {
    if |buf| > MAX_BUFFER then
      var idx := LastIndex(buf, SOI, |buf|);
      if idx > 0 then buf[idx..] else []
    else buf
  }

  datatype Reader = Reader(frames: seq<seq<Byte>>, buf: seq<Byte>)

  /** One successful Read of a chunk; an empty read leaves everything as it is. */
  function Round(r: Reader, chunk: seq<Byte>): Reader {
    if chunk == [] then r
    else
      var p := Split(r.buf + chunk);
      Reader(r.frames + p.frames, Trim(p.rest))
  }

  function Feed(chunks: seq<seq<Byte>>): Reader {
    if chunks == [] then Reader([], [])
    else Round(Feed(chunks[..|chunks| - 1]), chunks[|chunks| - 1])
  }

  function Flatten(chunks: seq<seq<Byte>>): seq<Byte> {
    if chunks == [] then []
    else Flatten(chunks[..|chunks| - 1]) + chunks[|chunks| - 1]
  }

  // ---------- when trimming is harmless ----------

  /** Two buffers are interchangeable when no future input tells them apart. */
  ghost predicate Interchangeable(a: seq<Byte>, b: seq<Byte>) {
    forall t: seq<Byte> :: Split(a + t).frames == Split(b + t).frames
  }

  /** What can be read off the buffer before trimming: it is small enough, or its first SOI is its last
      and is not at index 0, or it has no SOI and does not end in half a marker. */
  predicate TrimSafe(buf: seq<Byte>) {
    var first := Index(buf, SOI, 0);
    || |buf| <= MAX_BUFFER
    || (first > 0 && first == LastIndex(buf, SOI, |buf|))
    || (first < 0 && buf[|buf| - 1] != 0xFF)
  }

  lemma IndexShift(d: seq<Byte>, n: nat, code: Byte, from: nat)
    requires n <= from && n <= |d|
    ensures Index(d[n..], code, from - n) == (if Index(d, code, from) < 0 then -1 else Index(d, code, from) - n)
  {
    var i, j := Index(d, code, from), Index(d[n..], code, from - n);
    assert i >= 0 ==> At(d[n..], code, i - n);
    assert j >= 0 ==> At(d, code, j + n);
  }

  /** Dropping bytes in front of the first SOI changes neither the first frame nor what follows it. */
  lemma DropBeforeExtract(d: seq<Byte>, n: nat)
    requires n <= |d|
    requires forall i :: 0 <= i < n ==> !At(d, SOI, i)
    ensures ExtractFrame(d[n..]) == (if ExtractFrame(d).Found? then ExtractFrame(d) else NotFound)
  {
    hide Index;
    var soi := Index(d, SOI, 0);
    assert soi == Index(d, SOI, n);
    IndexShift(d, n, SOI, n);
    if soi >= 0 {
      IndexShift(d, n, EOI, soi + 2);
      var eoi := Index(d, EOI, soi + 2);
      if eoi >= 0 {
        assert d[n..][soi - n..eoi - n + 2] == d[soi..eoi + 2];
        assert d[n..][eoi - n + 2..] == d[eoi + 2..];
      }
    }
  }

  lemma DropFiller(d: seq<Byte>, n: nat)
    requires n <= |d|
    requires forall i :: 0 <= i < n ==> !At(d, SOI, i)
    ensures Split(d[n..]).frames == Split(d).frames
  {
    DropBeforeExtract(d, n);
    if ExtractFrame(d).Found? {
      SplitStep(d);
      SplitStep(d[n..]);
    }
  }

  lemma SafeTrimIsHarmless(buf: seq<Byte>)
    requires TrimSafe(buf)
    ensures Interchangeable(Trim(buf), buf)
  {
    hide Split, ExtractFrame;
    forall t: seq<Byte> ensures Split(Trim(buf) + t).frames == Split(buf + t).frames {
      if |buf| > MAX_BUFFER {
        var first := Index(buf, SOI, 0);
        var n := if first > 0 then first else |buf|;
        assert Trim(buf) == buf[n..];
        forall i | 0 <= i < n ensures !At(buf + t, SOI, i) {
          assert !At(buf, SOI, i);
        }
        assert (buf + t)[n..] == buf[n..] + t;
        DropFiller(buf + t, n);
      }
    }
  }

  /** A short input on which an unsafe trim shows. */
  function Telltale(buf: seq<Byte>): seq<Byte> {
    if Index(buf, SOI, 0) >= 0 then [0xFF, EOI] else [SOI, 0xFF, EOI]
  }

  lemma NothingToSplit()
    ensures Split([]).frames == []
  {
  }

  /** A buffer with an open frame yields exactly that frame when an EOI arrives. */
  lemma CloseOpenFrame(buf: seq<Byte>)
    requires ExtractFrame(buf).NotFound? && Index(buf, SOI, 0) >= 0
    ensures Split(buf + [0xFF, EOI]).frames == [buf[Index(buf, SOI, 0)..] + [0xFF, EOI]]
  {
    var s := Index(buf, SOI, 0);
    var d := buf + [0xFF, EOI];
    assert At(d, SOI, s);
    forall i | 0 <= i < s ensures !At(d, SOI, i) { assert !At(buf, SOI, i); }
    forall i | s + 2 <= i < |buf| ensures !At(d, EOI, i) { assert !At(buf, EOI, i); }
    ExtractBetween(d, s, |buf|);
    assert d[|buf| + 2..] == [];
    assert d[s..|buf| + 2] == buf[s..] + [0xFF, EOI];
    hide ExtractFrame, Index;
    assert ExtractFrame(d) == Found(d[s..|buf| + 2], []);
    NothingToSplit();
    SplitStep(d);
  }

  lemma NoSoiNoFrames(d: seq<Byte>)
    requires Index(d, SOI, 0) < 0
    ensures Split(d).frames == []
  {
  }

  /** Cutting an open frame at a later SOI shortens it. */
  lemma LaterSoiShows(buf: seq<Byte>)
    requires ExtractFrame(buf).NotFound?
    requires 0 <= Index(buf, SOI, 0) < LastIndex(buf, SOI, |buf|)
    ensures Split(buf[LastIndex(buf, SOI, |buf|)..] + [0xFF, EOI]).frames != Split(buf + [0xFF, EOI]).frames
  {
    var first, last := Index(buf, SOI, 0), LastIndex(buf, SOI, |buf|);
    var cut := buf[last..];
    CutAtSoi(buf, last);
    CloseOpenFrame(buf);
    CloseOpenFrame(cut);
    assert |cut[0..] + [0xFF, EOI]| < |buf[first..] + [0xFF, EOI]|;
  }

  /** Cutting a frameless buffer at one of its SOIs leaves a frameless buffer that starts with it. */
  lemma CutAtSoi(buf: seq<Byte>, idx: nat)
    requires ExtractFrame(buf).NotFound? && At(buf, SOI, idx)
    ensures Index(buf[idx..], SOI, 0) == 0 && ExtractFrame(buf[idx..]).NotFound?
    ensures Absent(buf[idx..], EOI, 2)
  {
    var cut := buf[idx..];
    assert At(cut, SOI, 0);
    assert Index(buf, SOI, 0) <= idx;
    forall i | 2 <= i < |cut| ensures !At(cut, EOI, i) { assert !At(buf, EOI, idx + i); }
  }

  /** Dropping the first half of a marker loses the frame it begins. */
  lemma HalfMarkerShows(buf: seq<Byte>)
    requires Index(buf, SOI, 0) < 0 && buf != [] && buf[|buf| - 1] == 0xFF
    ensures Split([SOI, 0xFF, EOI]).frames != Split(buf + [SOI, 0xFF, EOI]).frames
  {
    NoSoiNoFrames([SOI, 0xFF, EOI]);
    var d := buf + [SOI, 0xFF, EOI];
    assert At(d, SOI, |buf| - 1) && At(d, EOI, |buf| + 1);
    forall i | 0 <= i < |buf| - 1 ensures !At(d, SOI, i) { assert !At(buf, SOI, i); }
    ExtractBetween(d, |buf| - 1, |buf| + 1);
    hide ExtractFrame, Index;
    SplitStep(d);
  }

  lemma UnsafeTrimShows(buf: seq<Byte>)
    requires ExtractFrame(buf).NotFound? && !TrimSafe(buf)
    ensures Split(Trim(buf) + Telltale(buf)).frames != Split(buf + Telltale(buf)).frames
  {
    var first, last := Index(buf, SOI, 0), LastIndex(buf, SOI, |buf|);
    assert [] + Telltale(buf) == Telltale(buf);
    if first < 0 {
      HalfMarkerShows(buf);
    } else if last > 0 {
      assert first <= last;
      LaterSoiShows(buf);
    } else {
      CloseOpenFrame(buf);
      NoSoiNoFrames([0xFF, EOI]);
    }
  }

  /** Trimming a frameless buffer loses nothing exactly when TrimSafe holds of it. */
  lemma TrimHarmlessIff(buf: seq<Byte>)
    requires ExtractFrame(buf).NotFound?
    ensures Interchangeable(Trim(buf), buf) <==> TrimSafe(buf)
  {
    if TrimSafe(buf) {
      SafeTrimIsHarmless(buf);
    } else {
      UnsafeTrimShows(buf);
    }
  }

  // ---------- chunk invariance ----------

  /** The last round trims nothing, or trims a buffer that TrimSafe admits. */
  ghost predicate LastRoundSafe(chunks: seq<seq<Byte>>)
    requires chunks != []
  {
    var chunk := chunks[|chunks| - 1];
    chunk == [] || TrimSafe(Split(Feed(chunks[..|chunks| - 1]).buf + chunk).rest)
  }

  /** With `frames` emitted and `buf` held, whatever comes next is split as if `past` were still there. */
  ghost predicate Tracks(frames: seq<seq<Byte>>, buf: seq<Byte>, past: seq<Byte>) {
    forall t: seq<Byte> :: frames + Split(buf + t).frames == Split(past + t).frames
  }

  /** Whatever comes next, the reader emits what one split of the whole stream would. */
  ghost predicate Faithful(chunks: seq<seq<Byte>>) {
    Tracks(Feed(chunks).frames, Feed(chunks).buf, Flatten(chunks))
  }

  lemma TracksAppendOne(frames: seq<seq<Byte>>, buf: seq<Byte>, past: seq<Byte>, c: seq<Byte>, t: seq<Byte>)
    requires frames + Split(buf + (c + t)).frames == Split(past + (c + t)).frames
    ensures (frames + Split(buf + c).frames) + Split(Split(buf + c).rest + t).frames == Split(past + c + t).frames
  {
    SplitAppend(buf + c, t);
    Assoc(buf, c, t);
    Assoc(past, c, t);
    Assoc(frames, Split(buf + c).frames, Split(Split(buf + c).rest + t).frames);
  }

  /** Extracting the complete frames of a longer buffer keeps track of the longer stream. */
  lemma TracksAppend(frames: seq<seq<Byte>>, buf: seq<Byte>, past: seq<Byte>, c: seq<Byte>)
    requires Tracks(frames, buf, past)
    ensures Tracks(frames + Split(buf + c).frames, Split(buf + c).rest, past + c)
  {
    forall t: seq<Byte>
      ensures (frames + Split(buf + c).frames) + Split(Split(buf + c).rest + t).frames == Split(past + c + t).frames
    {
      TracksAppendOne(frames, buf, past, c, t);
    }
  }

  /** Replacing the buffer by its trimmed form keeps track exactly when the trim is safe. */
  lemma TracksTrim(frames: seq<seq<Byte>>, buf: seq<Byte>, past: seq<Byte>)
    requires Tracks(frames, buf, past) && ExtractFrame(buf).NotFound?
    ensures Tracks(frames, Trim(buf), past) <==> TrimSafe(buf)
  {
    TrimHarmlessIff(buf);
    if TrimSafe(buf) {
      forall t: seq<Byte> ensures frames + Split(Trim(buf) + t).frames == Split(past + t).frames {
        assert Split(Trim(buf) + t).frames == Split(buf + t).frames;
        assert frames + Split(buf + t).frames == Split(past + t).frames;
      }
    } else {
      var t := Telltale(buf);
      UnsafeTrimShows(buf);
      CancelPrefix(frames, Split(Trim(buf) + t).frames, Split(buf + t).frames);
      assert frames + Split(buf + t).frames == Split(past + t).frames;
    }
  }

  /** One faithful round more: a round keeps the reader faithful exactly when its trim is safe. */
  lemma FaithfulStep(chunks: seq<seq<Byte>>)
    requires chunks != [] && Faithful(chunks[..|chunks| - 1])
    ensures Faithful(chunks) <==> LastRoundSafe(chunks)
  {
    var n := |chunks| - 1;
    var r, c := Feed(chunks[..n]), chunks[n];
    if c == [] {
      assert Flatten(chunks[..n]) + c == Flatten(chunks[..n]);
    } else {
      var p := Split(r.buf + c);
      TracksAppend(r.frames, r.buf, Flatten(chunks[..n]), c);
      TracksTrim(r.frames + p.frames, p.rest, Flatten(chunks));
    }
  }

  /** Faithful after the given rounds and after every earlier one. */
  ghost predicate AlwaysFaithful(chunks: seq<seq<Byte>>) {
    Faithful(chunks) && (chunks != [] ==> AlwaysFaithful(chunks[..|chunks| - 1]))
  }

  ghost predicate AllRoundsSafe(chunks: seq<seq<Byte>>) {
    chunks != [] ==> LastRoundSafe(chunks) && AllRoundsSafe(chunks[..|chunks| - 1])
  }

  /** The reader is faithful after every round exactly when no round trims unsafely. */
  lemma {:induction false} FaithfulIff(chunks: seq<seq<Byte>>)
    ensures AlwaysFaithful(chunks) <==> AllRoundsSafe(chunks)
    decreases |chunks|
  {
    if chunks == [] {
      assert forall t: seq<Byte> :: [] + Split([] + t).frames == Split([] + t).frames;
    } else {
      FaithfulIff(chunks[..|chunks| - 1]);
      if Faithful(chunks[..|chunks| - 1]) {
        FaithfulStep(chunks);
      }
    }
  }

  /** If the unfinished remainder of every prefix of the stream fits, reads may be cut anywhere:
      the frames are those of one split of the whole stream and the buffer is its remainder. */
  lemma {:induction false} ChunkInvariance(chunks: seq<seq<Byte>>)
    requires forall n :: 0 <= n <= |Flatten(chunks)| ==> |Split(Flatten(chunks)[..n]).rest| <= MAX_BUFFER
    ensures Feed(chunks).frames == Split(Flatten(chunks)).frames
    ensures Feed(chunks).buf == Split(Flatten(chunks)).rest
    decreases |chunks|
  {
    if chunks != [] {
      var front, c := chunks[..|chunks| - 1], chunks[|chunks| - 1];
      var all, past := Flatten(chunks), Flatten(front);
      assert all == past + c;
      forall n | 0 <= n <= |past| ensures |Split(past[..n]).rest| <= MAX_BUFFER {
        assert past[..n] == all[..n];
      }
      ChunkInvariance(front);
      SplitAppend(past, c);
      assert all[..|all|] == all;
      if c == [] {
        assert past + c == past;
      }
    }
  }

  /** Two ways of cutting one stream give the same frames. */
  lemma CutsAgree(a: seq<seq<Byte>>, b: seq<seq<Byte>>)
    requires Flatten(a) == Flatten(b)
    requires forall n :: 0 <= n <= |Flatten(a)| ==> |Split(Flatten(a)[..n]).rest| <= MAX_BUFFER
    ensures Feed(a) == Feed(b)
  {
    ChunkInvariance(a);
    ChunkInvariance(b);
  }

  // ---------- the memory bound ----------

  /** Small, or one open frame that starts at index 0 and contains no further SOI. */
  ghost predicate BufferOk(buf: seq<Byte>) {
    || |buf| <= MAX_BUFFER
    || (|buf| < MAX_BUFFER + MAX_READ && At(buf, SOI, 0) && Absent(buf, SOI, 1) && Absent(buf, EOI, 2))
  }

  lemma RoundKeepsBufferOk(buf: seq<Byte>, chunk: seq<Byte>)
    requires BufferOk(buf) && |chunk| <= MAX_READ && chunk != []
    ensures BufferOk(Trim(Split(buf + chunk).rest))
  {
    var d := buf + chunk;
    var rest := Split(d).rest;
    if |buf| > MAX_BUFFER {
      assert At(d, SOI, 0);
      if ExtractFrame(d).Found? {
        var eoi := Index(d, EOI, 2);
        assert At(d, EOI, eoi);
        assert At(buf, EOI, eoi) || eoi + 1 >= |buf|;
        assert |ExtractFrame(d).rest| <= MAX_READ;
        assert |rest| <= MAX_READ;
      } else {
        var idx := LastIndex(d, SOI, |d|);
        if idx > 0 {
          assert At(d, SOI, idx);
          assert At(buf, SOI, idx) || idx + 1 >= |buf|;
        }
      }
    } else if |rest| > MAX_BUFFER {
      var idx := LastIndex(rest, SOI, |rest|);
      if idx > 0 {
        var cut := rest[idx..];
        assert |rest| <= MAX_BUFFER + MAX_READ;
        CutAtSoi(rest, idx);
        forall i | 1 <= i < |cut| ensures !At(cut, SOI, i) { assert !At(rest, SOI, idx + i); }
      }
    }
  }

  /** Whatever the input, reads of at most 64 KiB leave at most 2 MiB + 64 KiB - 1 bytes buffered. */
  lemma {:induction false} MemoryBound(chunks: seq<seq<Byte>>)
    requires forall i :: 0 <= i < |chunks| ==> |chunks[i]| <= 64 * 1024
    ensures BufferOk(Feed(chunks).buf)
    ensures |Feed(chunks).buf| <= 2 * 1024 * 1024 + 64 * 1024 - 1
    decreases |chunks|
  {
    if chunks != [] {
      var front, c := chunks[..|chunks| - 1], chunks[|chunks| - 1];
      MemoryBound(front);
      if c != [] {
        RoundKeepsBufferOk(Feed(front).buf, c);
      }
    }
  }

  // ---------- round trip ----------

  datatype Piece = Piece(filler: seq<Byte>, body: seq<Byte>)

  ghost predicate PieceOk(p: Piece) {
    && (forall i :: 0 <= i < |p.filler| ==> !Pair(p.filler, 0xFF, 0xD8, i))
    && (forall i :: 0 <= i < |p.body| ==> !Pair(p.body, 0xFF, 0xD9, i))
  }

  function FrameOf(p: Piece): seq<Byte> { [0xFF, 0xD8] + p.body + [0xFF, 0xD9] }

  function Join(ps: seq<Piece>, tail: seq<Byte>): seq<Byte> {
    if ps == [] then tail
    else ps[0].filler + FrameOf(ps[0]) + Join(ps[1..], tail)
  }

  function FramesOf(ps: seq<Piece>): seq<seq<Byte>> {
    if ps == [] then [] else [FrameOf(ps[0])] + FramesOf(ps[1..])
  }

  lemma ExtractPiece(p: Piece, more: seq<Byte>)
    requires PieceOk(p)
    ensures ExtractFrame(p.filler + FrameOf(p) + more) == Found(FrameOf(p), more)
  {
    var s := |p.filler|;
    var e := s + 2 + |p.body|;
    var d := p.filler + FrameOf(p) + more;
    assert d[s..e + 2] == FrameOf(p) && d[e + 2..] == more;
    assert forall i | 0 <= i < s :: d[i] == p.filler[i];
    assert forall i | 0 <= i < |p.body| :: d[s + 2 + i] == p.body[i];
    assert d[s] == 0xFF && d[s + 1] == 0xD8 && d[e] == 0xFF && d[e + 1] == 0xD9;
    forall i | 0 <= i < s ensures !Pair(d, 0xFF, 0xD8, i) { assert !Pair(p.filler, 0xFF, 0xD8, i); }
    forall i | s + 2 <= i < e ensures !Pair(d, 0xFF, 0xD9, i) { assert !Pair(p.body, 0xFF, 0xD9, i - s - 2); }
    ExtractFrameMeaning(d, s, e);
  }

  /** Splitting undoes joining: frames whose body has no EOI, separated by filler without SOI and
      followed by any frameless tail, come back exactly. */
  lemma {:induction false} SplitJoin(ps: seq<Piece>, tail: seq<Byte>)
    requires forall i :: 0 <= i < |ps| ==> PieceOk(ps[i])
    requires ExtractFrame(tail).NotFound?
    ensures Split(Join(ps, tail)) == Parsed(FramesOf(ps), tail)
    decreases |ps|
  {
    if ps != [] {
      ExtractPiece(ps[0], Join(ps[1..], tail));
      SplitJoin(ps[1..], tail);
    }
  }

  // ---------- frames are slices of the stream, trimmed or not ----------

  datatype Span = Span(lo: nat, hi: nat)

  ghost predicate SpanHolds(f: seq<Byte>, s: Span, stream: seq<Byte>) {
    s.lo <= s.hi <= |stream| && f == stream[s.lo..s.hi] && IsFrame(f)
  }

  /** The frames are the stretches `spans` of the stream, in order and without overlap, all between
      `from` and `upto`. */
  ghost predicate Located(frames: seq<seq<Byte>>, spans: seq<Span>, stream: seq<Byte>, from: int, upto: int) {
    && |spans| == |frames|
    && (forall i :: 0 <= i < |spans| ==> SpanHolds(frames[i], spans[i], stream) && from <= spans[i].lo && spans[i].hi <= upto)
    && (forall i, j :: 0 <= i < j < |spans| ==> spans[i].hi <= spans[j].lo)
  }

  lemma LocatedConcat(f: seq<seq<Byte>>, a: seq<Span>, g: seq<seq<Byte>>, b: seq<Span>, stream: seq<Byte>,
                      from: int, mid: int, upto: int)
    requires Located(f, a, stream, from, mid) && Located(g, b, stream, mid, upto) && from <= mid <= upto
    ensures Located(f + g, a + b, stream, from, upto)
  {
    forall i | 0 <= i < |a + b|
      ensures SpanHolds((f + g)[i], (a + b)[i], stream) && from <= (a + b)[i].lo && (a + b)[i].hi <= upto
    {
      if i >= |a| {
        assert SpanHolds(g[i - |a|], b[i - |a|], stream);
      } else {
        assert SpanHolds(f[i], a[i], stream);
      }
    }
  }

  lemma LocatedLonger(f: seq<seq<Byte>>, a: seq<Span>, stream: seq<Byte>, more: seq<Byte>, from: int, upto: int)
    requires Located(f, a, stream, from, upto)
    ensures Located(f, a, stream + more, from, upto)
  {
    forall i | 0 <= i < |a| ensures SpanHolds(f[i], a[i], stream + more) {
      assert SpanHolds(f[i], a[i], stream);
      assert (stream + more)[a[i].lo..a[i].hi] == stream[a[i].lo..a[i].hi];
    }
  }

  lemma SliceOfSlice<T>(s: seq<T>, off: nat, lo: nat, hi: nat)
    requires lo <= hi && off + hi <= |s|
    ensures s[off + lo..off + hi] == s[off..][lo..hi] && s[off + hi..] == s[off..][hi..]
  {
  }

  lemma LocateFirst(data: seq<Byte>, stream: seq<Byte>, off: nat) returns (span: Span)
    requires off + |data| == |stream| && stream[off..] == data
    requires ExtractFrame(data).Found?
    ensures SpanHolds(ExtractFrame(data).frame, span, stream) && off <= span.lo
    ensures span.hi + |ExtractFrame(data).rest| == |stream| && stream[span.hi..] == ExtractFrame(data).rest
  {
    var soi := Index(data, SOI, 0);
    var eoi := Index(data, EOI, soi + 2);
    ExtractedIsFrame(data);
    span := Span(off + soi, off + eoi + 2);
    SliceOfSlice(stream, off, soi, eoi + 2);
  }

  lemma LocateSplit(data: seq<Byte>, stream: seq<Byte>, off: nat) returns (spans: seq<Span>)
    requires off + |data| == |stream| && stream[off..] == data
    ensures Located(Split(data).frames, spans, stream, off, |stream| - |Split(data).rest|)
    ensures stream[|stream| - |Split(data).rest|..] == Split(data).rest
    decreases |data|
  {
    if ExtractFrame(data).NotFound? {
      spans := [];
    } else {
      var first := LocateFirst(data, stream, off);
      var rest := ExtractFrame(data).rest;
      var more := LocateSplit(rest, stream, first.hi);
      SplitStep(data);
      spans := [first] + more;
      LocatedConcat([ExtractFrame(data).frame], [first], Split(rest).frames, more, stream,
                    off, first.hi, |stream| - |Split(rest).rest|);
    }
  }

  ghost predicate Locatable(frames: seq<seq<Byte>>, stream: seq<Byte>, upto: int) {
    exists spans :: Located(frames, spans, stream, 0, upto)
  }

  lemma TrimIsSuffix(d: seq<Byte>)
    ensures |Trim(d)| <= |d| && d[|d| - |Trim(d)|..] == Trim(d)
  {
  }

  /** The frames so far are located in the stream so far, and the buffer is the end of it. */
  ghost predicate Placed(r: Reader, stream: seq<Byte>) {
    && |r.buf| <= |stream|
    && stream[|stream| - |r.buf|..] == r.buf
    && Locatable(r.frames, stream, |stream| - |r.buf|)
  }

  lemma PlacedTrim(r: Reader, stream: seq<Byte>)
    requires Placed(r, stream)
    ensures Placed(Reader(r.frames, Trim(r.buf)), stream)
  {
    hide Trim;
    var spans :| Located(r.frames, spans, stream, 0, |stream| - |r.buf|);
    TrimIsSuffix(r.buf);
    assert Located(r.frames, spans, stream, 0, |stream| - |Trim(r.buf)|);
  }

  lemma SuffixAppend<T>(s: seq<T>, off: nat, c: seq<T>)
    requires off <= |s|
    ensures (s + c)[off..] == s[off..] + c
  {
  }

  lemma PlacedAppend(r: Reader, stream: seq<Byte>, c: seq<Byte>)
    requires Placed(r, stream)
    ensures Placed(Reader(r.frames + Split(r.buf + c).frames, Split(r.buf + c).rest), stream + c)
  {
    hide Split;
    var off, all, p := |stream| - |r.buf|, stream + c, Split(r.buf + c);
    var before :| Located(r.frames, before, stream, 0, off);
    LocatedLonger(r.frames, before, stream, c, 0, off);
    SuffixAppend(stream, off, c);
    var after := LocateSplit(r.buf + c, all, off);
    LocatedConcat(r.frames, before, p.frames, after, all, 0, off, |all| - |p.rest|);
  }

  /** Even when trimming drops bytes, the frames emitted are disjoint, increasing stretches of the
      stream, each of the shape IsFrame; and the buffer is the end of the stream. */
  lemma {:induction false} FramesAreSlices(chunks: seq<seq<Byte>>)
    ensures Placed(Feed(chunks), Flatten(chunks))
    decreases |chunks|
  {
    if chunks == [] {
      assert Located([], [], [], 0, 0);
    } else {
      var front, c := chunks[..|chunks| - 1], chunks[|chunks| - 1];
      FramesAreSlices(front);
      var r := Feed(front);
      if c == [] {
        assert Flatten(front) + c == Flatten(front);
      } else {
        PlacedAppend(r, Flatten(front), c);
        PlacedTrim(Reader(r.frames + Split(r.buf + c).frames, Split(r.buf + c).rest), Flatten(chunks));
      }
    }
  }

  // ---------- readFrames itself ----------

  datatype ReadError = NoError | EndOfFile | Broken
  /** One turn of the loop: whether the context was cancelled, then what Read returned. */
  datatype ReadResult = ReadResult(cancelled: bool, data: seq<Byte>, err: ReadError)
  datatype Outcome = Cancelled | Clean | Failed | Waiting

  /** How the loop ends when it is about to take turn k: the number of chunks appended in all, and why. */
  function Ending(turns: seq<ReadResult>, k: nat): (e: (nat, Outcome))
    requires k <= |turns|
    ensures k <= e.0 <= |turns|
    decreases |turns| - k
  {
    if k == |turns| then (k, Waiting)
    else if turns[k].cancelled then (k, Cancelled)
    else if turns[k].err == EndOfFile then (k + 1, Clean)
    else if turns[k].err == Broken then (k + 1, Failed)
    else Ending(turns, k + 1)
  }

  /** Read returned data and no error. */
  predicate GoesOn(turn: ReadResult) { !turn.cancelled && turn.err == NoError }

  /** The loop ends with the first turn that is cancelled or brings an error: a cancelled one adds no chunk and
      ends it as cancelled, the end of the file ends it cleanly, any other error does not, and in both cases the
      data that came with it counts. */
  lemma {:induction false} EndingMeaning(turns: seq<ReadResult>, k: nat)
    requires k <= |turns|
    ensures var (n, outcome) := Ending(turns, k);
            match outcome
            case Waiting => n == |turns| && forall i :: k <= i < n ==> GoesOn(turns[i])
            case Cancelled => n < |turns| && turns[n].cancelled && forall i :: k <= i < n ==> GoesOn(turns[i])
            case _ =>
              && k < n <= |turns| && !turns[n - 1].cancelled
              && turns[n - 1].err == (if outcome == Clean then EndOfFile else Broken)
              && forall i :: k <= i < n - 1 ==> GoesOn(turns[i])
    decreases |turns| - k
  {
    if k < |turns| && GoesOn(turns[k]) {
      EndingMeaning(turns, k + 1);
    }
  }

  function Chunks(turns: seq<ReadResult>, n: nat): (cs: seq<seq<Byte>>)
    requires n <= |turns|
    ensures |cs| == n && forall i :: 0 <= i < n ==> cs[i] == turns[i].data
  {
    if n == 0 then [] else Chunks(turns, n - 1) + [turns[n - 1].data]
  }

  function CountWritten(writeOk: nat -> bool, n: nat): (c: nat)
    ensures c <= n
  {
    if n == 0 then 0 else CountWritten(writeOk, n - 1) + (if writeOk(n - 1) then 1 else 0)
  }

  /** The inner loop of readFrames: take frames off the front of the buffer while there are any. */
  method ExtractAll(buf: seq<Byte>, frames: seq<seq<Byte>>, frameCount: nat, writeOk: nat -> bool)
    returns (buf': seq<Byte>, frames': seq<seq<Byte>>, frameCount': nat)
    requires frameCount == CountWritten(writeOk, |frames|)
    ensures frames' == frames + Split(buf).frames && buf' == Split(buf).rest
    ensures frameCount' == CountWritten(writeOk, |frames'|)
  {
    buf', frames', frameCount' := buf, frames, frameCount;
    var extracted := ExtractFrame(buf');
    while extracted.Found?
      invariant extracted == ExtractFrame(buf')
      invariant frames' + Split(buf').frames == frames + Split(buf).frames
      invariant Split(buf').rest == Split(buf).rest
      invariant frameCount' == CountWritten(writeOk, |frames'|)
      decreases |buf'|
    {
      ExtractedIsFrame(buf');
      SplitStep(buf');
      Assoc(frames', [extracted.frame], Split(extracted.rest).frames);
      if writeOk(|frames'|) {
        frameCount' := frameCount' + 1;
      }
      frames', buf' := frames' + [extracted.frame], extracted.rest;
      extracted := ExtractFrame(buf');
    }
  }

  lemma EmptyFeed()
    ensures Feed([]) == Reader([], [])
  {
  }

  lemma FeedSnoc(done: seq<seq<Byte>>, chunk: seq<Byte>)
    ensures Feed(done + [chunk]) == Round(Feed(done), chunk)
  {
    assert (done + [chunk])[..|done|] == done;
  }

  /** readFrames over a sequence of turns; `writeOk` says whether writing the i-th frame succeeds.
      `Waiting` means the turns given so far did not end the loop. */
  method ReadFrames(turns: seq<ReadResult>, writeOk: nat -> bool)
    returns (frames: seq<seq<Byte>>, buf: seq<Byte>, frameCount: nat, outcome: Outcome)
    ensures Reader(frames, buf) == Feed(Chunks(turns, Ending(turns, 0).0))
    ensures outcome == Ending(turns, 0).1
    ensures frameCount == CountWritten(writeOk, |frames|)
  {
    hide Split, ExtractFrame, LastIndex, Feed;
    buf, frames, frameCount := [], [], 0;
    assert Feed([]) == Reader([], []) by { EmptyFeed(); }
    var turn := 0;
    while turn < |turns|
      invariant 0 <= turn <= |turns|
      invariant Ending(turns, turn) == Ending(turns, 0)
      invariant Reader(frames, buf) == Feed(Chunks(turns, turn))
      invariant frameCount == CountWritten(writeOk, |frames|)
    {
      if turns[turn].cancelled {
        return frames, buf, frameCount, Cancelled;
      }
      var chunk := turns[turn].data;
      FeedSnoc(Chunks(turns, turn), chunk);
      if |chunk| > 0 {
        buf, frames, frameCount := ExtractAll(buf + chunk, frames, frameCount, writeOk);
        if |buf| > MAX_BUFFER {
          var idx := LastIndex(buf, SOI, |buf|);
          buf := if idx > 0 then buf[idx..] else [];
        }
      }
      if turns[turn].err != NoError {
        return frames, buf, frameCount, if turns[turn].err == EndOfFile then Clean else Failed;
      }
      turn := turn + 1;
    }
    outcome := Waiting;
  }

  // ---------- an unsafe trim is within reach ----------

  function Zeros(n: nat): (z: seq<Byte>)
    ensures |z| == n
  {
    seq(n, i => 0 as Byte)
  }

  /** A frame that does not end, in reads of 64 KiB. */
  function Endless(k: nat): (chunks: seq<seq<Byte>>)
    ensures |chunks| == k && forall i :: 0 <= i < k ==> |chunks[i]| <= MAX_READ
  {
    if k == 0 then [] else if k == 1 then [[0xFF, SOI] + Zeros(MAX_READ - 2)] else Endless(k - 1) + [Zeros(MAX_READ)]
  }

  lemma OpenFrameStays(n: nat)
    ensures var d := [0xFF, SOI] + Zeros(n); Split(d) == Parsed([], d) && Index(d, SOI, 0) == 0
  {
    var d := [0xFF, SOI] + Zeros(n);
    assert At(d, SOI, 0);
    assert forall i :: 2 <= i < |d| ==> !At(d, EOI, i);
  }

  lemma RoundFills(buf: seq<Byte>, chunk: seq<Byte>, n: nat)
    requires buf + chunk == [0xFF, SOI] + Zeros(n) && chunk != [] && n + 2 <= MAX_BUFFER
    ensures Round(Reader([], buf), chunk) == Reader([], [0xFF, SOI] + Zeros(n))
  {
    OpenFrameStays(n);
    hide Split, Index, Zeros;
    var d := [0xFF, SOI] + Zeros(n);
    assert |d| == n + 2 && Trim(d) == d;
    var none: seq<seq<Byte>> := [];
    assert none + none == none;
  }

  lemma {:induction false} EndlessFills(k: nat)
    requires 1 <= k <= 32
    ensures Feed(Endless(k)) == Reader([], [0xFF, SOI] + Zeros(k * MAX_READ - 2))
  {
    hide Feed, Round;
    if k == 1 {
      assert Endless(1) == [] + [[0xFF, SOI] + Zeros(MAX_READ - 2)];
      EmptyFeed();
      FeedSnoc([], [0xFF, SOI] + Zeros(MAX_READ - 2));
      RoundFills([], [0xFF, SOI] + Zeros(MAX_READ - 2), MAX_READ - 2);
    } else {
      EndlessFills(k - 1);
      FeedSnoc(Endless(k - 1), Zeros(MAX_READ));
      MoreZeros((k - 1) * MAX_READ - 2, MAX_READ);
      RoundFills([0xFF, SOI] + Zeros((k - 1) * MAX_READ - 2), Zeros(MAX_READ), k * MAX_READ - 2);
    }
  }

  lemma MoreZeros(m: nat, n: nat)
    ensures [0xFF, SOI] + Zeros(m) + Zeros(n) == [0xFF, SOI] + Zeros(m + n)
  {
  }

  /** The trim after the 33rd read of such a frame is unsafe: the reader is not faithful from then on. */
  lemma UnsafeTrimIsReachable()
    ensures !AlwaysFaithful(Endless(33)) && forall i :: 0 <= i < 33 ==> |Endless(33)[i]| <= MAX_READ
  {
    var n := 33 * MAX_READ - 2;
    EndlessFills(32);
    OpenFrameStays(n);
    assert Endless(33)[..32] == Endless(32);
    MoreZeros(32 * MAX_READ - 2, MAX_READ);
    hide Split, Index, Feed;
    assert !LastRoundSafe(Endless(33));
    FaithfulIff(Endless(33));
  }
}
