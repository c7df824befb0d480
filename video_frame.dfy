// Raw video frames: the plane layout `video_frame_init` gives each pixel
// format inside one buffer of 32-byte-aligned planes, releasing a frame, and
// the bytes `video_frame_copy` moves plane by plane from one frame to
// another. Plane pointers are modelled as offsets into the frame's own
// buffer.
module VideoFrame {
  import opened Common

  const MAX_AV_PLANES: nat := 8

  /** The pixel formats `video_frame_init` lays out. */
  datatype VideoFormat = NoFormat | I420 | NV12 | Y800 | YVYU | YUY2 | UYVY
    | RGBA | BGRA | BGRX | AYUV | I444 | BGR3 | I422 | I40A | I42A | YUVA

  /** `ALIGN_SIZE(size, 32)`: the size rounded up to a multiple of 32. */
  function AlignSize(size: nat): nat
  {
    (size + 31) / 32 * 32
  }

  /** The macro on a 64-bit `size_t`: the sum wraps modulo 2^64, and
      `~(32 - 1)`, an `int` widened to `size_t`, keeps every bit but the
      five lowest. Below the wrap-around it is `AlignSize`. */
  lemma AlignSizeMask(size: nat)
    requires size + 31 < TWO64
    ensures BitAnd(U64(size + 31), TWO64 - 32) == AlignSize(size)
  {
    ClearLow5(size + 31);
  }

  /** The aligned size is the least multiple of 32 at or above the size. */
  lemma AlignSizeLeast(size: nat, m: nat)
    ensures AlignSize(size) % 32 == 0 && size <= AlignSize(size) < size + 32
    ensures m % 32 == 0 && size <= m ==> AlignSize(size) <= m
  {
  }

  /** The aligned size is the one multiple of 32 in `[size, size + 32)`. */
  lemma AlignSizeIs(size: nat, m: nat)
    requires m % 32 == 0 && size <= m < size + 32
    ensures AlignSize(size) == m
  {
  }

  /** One plane as `video_frame_init` reserves it: the bytes added to the
      running size before it is aligned, the row length stored in
      `linesize`, and the rows of the image the plane holds. */
  datatype Plane = Plane(bytes: nat, linesize: uint32, rows: nat)

  /** The planes of each format, every product formed in `uint32_t`. */
  function Layout(format: VideoFormat, w: uint32, h: uint32): (r: seq<Plane>)
    ensures |r| == PlaneCount(format) <= 4
    ensures forall k :: 0 <= k < |r| ==> r[k].bytes < TWO32
  {
    var luma := Plane(U32(w * h), w, h);
    var quarter := Plane(U32((w / 2) * (h / 2)), w / 2, h / 2);
    var half := Plane(U32((w / 2) * h), w / 2, h);
    match format
    case NoFormat => []
    case I420 => [luma, quarter, quarter]
    case NV12 => [luma, Plane(U32((w / 2) * (h / 2) * 2), w, h / 2)]
    case Y800 => [luma]
    case YVYU => [Plane(U32(w * h * 2), U32(w * 2), h)]
    case YUY2 => [Plane(U32(w * h * 2), U32(w * 2), h)]
    case UYVY => [Plane(U32(w * h * 2), U32(w * 2), h)]
    case RGBA => [Plane(U32(w * h * 4), U32(w * 4), h)]
    case BGRA => [Plane(U32(w * h * 4), U32(w * 4), h)]
    case BGRX => [Plane(U32(w * h * 4), U32(w * 4), h)]
    case AYUV => [Plane(U32(w * h * 4), U32(w * 4), h)]
    case I444 => [luma, luma, luma]
    case BGR3 => [Plane(U32(w * h * 3), U32(w * 3), h)]
    case I422 => [luma, half, half]
    case I40A => [luma, quarter, quarter, luma]
    case I42A => [luma, half, half, luma]
    case YUVA => [luma, luma, luma, luma]
  }

  /** Where each plane starts when the running size stands at `at`: a
      plane starts at the running size, which then moves past the plane's
      bytes and is aligned. */
  function Starts(planes: seq<Plane>, at: nat): (r: seq<nat>)
    ensures |r| == |planes|
  {
    if planes == [] then [] else [at] + Starts(planes[1..], AlignSize(at + planes[0].bytes))
  }

  /** The running size after the last plane: the size of the buffer. */
  function End(planes: seq<Plane>, at: nat): nat
  {
    if planes == [] then at else End(planes[1..], AlignSize(at + planes[0].bytes))
  }

  /** Where plane `k`'s room ends: at the next plane's start, or at the end
      of the buffer. */
  function Limit(planes: seq<Plane>, at: nat, k: nat): nat
    requires k < |planes|
  {
    if k + 1 < |planes| then Starts(planes, at)[k + 1] else End(planes, at)
  }

  /** Every plane starts on a multiple of 32 and gets at least its bytes
      before the next plane (or the end of the buffer); the rooms follow one
      another in order, so they are disjoint. */
  lemma {:induction false} Rooms(planes: seq<Plane>, at: nat)
    requires at % 32 == 0
    ensures End(planes, at) % 32 == 0 && at <= End(planes, at)
    ensures forall k :: 0 <= k < |planes| ==> Starts(planes, at)[k] % 32 == 0
    ensures forall k :: 0 <= k < |planes| ==> at <= Starts(planes, at)[k]
    ensures forall k :: 0 <= k < |planes| ==>
      Starts(planes, at)[k] + planes[k].bytes <= Limit(planes, at, k) <= End(planes, at)
    ensures forall j, k :: 0 <= j < k < |planes| ==> Limit(planes, at, j) <= Starts(planes, at)[k]
    decreases |planes|
  {
    if planes != [] {
      var next := AlignSize(at + planes[0].bytes);
      AlignSizeLeast(at + planes[0].bytes, 0);
      var rest := planes[1..];
      Rooms(rest, next);
      var st := Starts(planes, at);
      assert st == [at] + Starts(rest, next);
      forall k | 0 <= k < |planes|
        ensures st[k] + planes[k].bytes <= Limit(planes, at, k) <= End(planes, at)
      {
        if k > 0 {
          assert planes[k] == rest[k - 1] && st[k] == Starts(rest, next)[k - 1];
          assert Limit(planes, at, k) == Limit(rest, next, k - 1);
        }
      }
      forall j, k | 0 <= j < k < |planes| ensures Limit(planes, at, j) <= st[k] {
        assert st[k] == Starts(rest, next)[k - 1];
        if j > 0 {
          assert Limit(planes, at, j) == Limit(rest, next, j - 1);
        } else if k > 1 {
          assert Limit(planes, at, 0) == Starts(rest, next)[0];
        }
      }
    }
  }

  /** A plane holds its rows: a row length times the rows fits in the
      bytes reserved. */
  predicate Holds(p: Plane)
  {
    p.linesize * p.rows <= p.bytes
  }

  /** No product of the layout wraps around: four bytes per pixel stay
      below 2^32. */
  predicate NoWrap(w: uint32, h: uint32)
  {
    w * h * 4 < TWO32
  }

  /** `video_frame_init`'s planes lie in the buffer one after another:
      each starts on a multiple of 32, plane `k` occupies `linesize * rows`
      bytes from its start, and when every plane holds its rows no plane
      reaches into the next one or past the end of the buffer. */
  lemma PlanesFit(planes: seq<Plane>)
    requires forall k :: 0 <= k < |planes| ==> Holds(planes[k])
    ensures forall k :: 0 <= k < |planes| ==> Starts(planes, 0)[k] % 32 == 0
    ensures forall k :: 0 <= k < |planes| ==>
      Starts(planes, 0)[k] + planes[k].linesize * planes[k].rows <= End(planes, 0)
    ensures forall j, k :: 0 <= j < k < |planes| ==>
      Starts(planes, 0)[j] + planes[j].linesize * planes[j].rows <= Starts(planes, 0)[k]
  {
    Rooms(planes, 0);
  }

  /** Packed formats have one plane whose row is the width times the bytes
      per pixel; with no wrap-around the plane holds exactly its rows. */
  function BytesPerPixel(format: VideoFormat): nat
  {
    match format
    case Y800 => 1
    case YVYU => 2
    case YUY2 => 2
    case UYVY => 2
    case RGBA => 4
    case BGRA => 4
    case BGRX => 4
    case AYUV => 4
    case BGR3 => 3
    case _ => 0
  }

  lemma PackedLayout(format: VideoFormat, w: uint32, h: uint32)
    requires BytesPerPixel(format) > 0 && NoWrap(w, h) && h > 0
    ensures var planes := Layout(format, w, h);
      |planes| == 1 && planes[0].linesize == BytesPerPixel(format) * w
      && planes[0].rows == h && planes[0].bytes == planes[0].linesize * h
      && End(planes, 0) == AlignSize(planes[0].bytes)
  {
    PackedRows(w, h, BytesPerPixel(format));
    var planes := Layout(format, w, h);
    if format == Y800 {
      Products(w, h);
    }
    Unfold1(planes, 0);
  }

  /** I420: a full-size luma plane and two quarter-size chroma planes; the
      second plane starts at the aligned luma size and the third at the
      aligned end of the second. */
  lemma I420Layout(w: uint32, h: uint32)
    requires NoWrap(w, h)
    ensures var planes := Layout(I420, w, h); var st := Starts(planes, 0);
      var c := (w / 2) * (h / 2);
      && |planes| == 3
      && planes[0].linesize == w && planes[1].linesize == w / 2 && planes[2].linesize == w / 2
      && planes[0].bytes == w * h && planes[1].bytes == c && planes[2].bytes == c
      && st[0] == 0 && st[1] == AlignSize(planes[0].bytes) && st[2] == AlignSize(st[1] + planes[1].bytes)
      && End(planes, 0) == AlignSize(st[2] + planes[2].bytes)
      && (w % 2 == 0 && h % 2 == 0 ==> 4 * c == w * h)
  {
    Products(w, h);
    Unfold3(Layout(I420, w, h), 0);
  }

  /** NV12: a luma plane and one interleaved chroma plane, both with rows
      of `w` bytes; the chroma plane reserves `(w/2)*(h/2)*2` bytes. */
  lemma NV12Layout(w: uint32, h: uint32)
    requires NoWrap(w, h)
    ensures var planes := Layout(NV12, w, h); var st := Starts(planes, 0);
      && |planes| == 2
      && planes[0].linesize == w && planes[1].linesize == w
      && planes[1].bytes == (w / 2) * (h / 2) * 2 && planes[1].rows == h / 2
      && planes[0].bytes == w * h
      && st[0] == 0 && st[1] == AlignSize(planes[0].bytes)
      && End(planes, 0) == AlignSize(st[1] + planes[1].bytes)
  {
    Products(w, h);
    Unfold2(Layout(NV12, w, h), 0);
  }

  /** I444: three full-size planes at `0`, `S` and `2S`, where `S` is the
      aligned plane size, in a buffer of `3S` bytes. */
  lemma I444Layout(w: uint32, h: uint32)
    ensures var s := AlignSize(U32(w * h));
      Starts(Layout(I444, w, h), 0) == [0, s, 2 * s] && End(Layout(I444, w, h), 0) == 3 * s
  {
    var n := U32(w * h);
    var s := AlignSize(n);
    AlignSizeIs(s + n, 2 * s);
    AlignSizeIs(2 * s + n, 3 * s);
    Unfold3(Layout(I444, w, h), 0);
  }

  /** The formats whose chroma planes have half the rows (4:2:0). */
  predicate HalfHeightChroma(format: VideoFormat, k: nat)
  {
    ((format == I420 || format == I40A) && (k == 1 || k == 2)) || (format == NV12 && k == 1)
  }

  /** The products of a layout that does not wrap. */
  lemma Products(w: uint32, h: uint32)
    requires NoWrap(w, h)
    ensures U32(w * h) == w * h
    ensures (w / 2) * (h / 2) <= w * h && (w / 2) * h <= w * h
    ensures U32((w / 2) * (h / 2)) == (w / 2) * (h / 2) && U32((w / 2) * h) == (w / 2) * h
    ensures U32((w / 2) * (h / 2) * 2) == (w / 2) * (h / 2) * 2
    ensures (w / 2) * (h / 2) * 2 + (w % 2) * (h / 2) == w * (h / 2)
    ensures w % 2 == 0 && h % 2 == 0 ==> 4 * ((w / 2) * (h / 2)) == w * h
  {
    var a, q, g := w * h, (w / 2) * (h / 2), (w / 2) * h;
    MulMono(w / 2, h / 2, w, h);
    MulMono(w / 2, h, w, h);
    Exact(a);
    Exact(q);
    Exact(g);
    Halves(w, h);
  }

  lemma Exact(x: int)
    requires 0 <= x < TWO32
    ensures U32(x) == x
  {
  }

  lemma Halves(w: nat, h: nat)
    ensures (w / 2) * (h / 2) * 2 + (w % 2) * (h / 2) == w * (h / 2)
    ensures w % 2 == 0 && h % 2 == 0 ==> 4 * ((w / 2) * (h / 2)) == w * h
  {
    assert (w / 2) * (h / 2) * 2 == (2 * (w / 2)) * (h / 2);
    assert w * (h / 2) == (2 * (w / 2) + w % 2) * (h / 2);
    if w % 2 == 0 && h % 2 == 0 {
      assert w * h == (2 * (w / 2)) * (2 * (h / 2));
    }
  }

  lemma MulMono(a: nat, b: nat, c: nat, d: nat)
    requires a <= c && b <= d
    ensures a * b <= c * d
  {
    assert a * b <= c * b;
    assert c * b <= c * d;
  }

  /** A packed plane of `b` bytes per pixel: its row is `b * w` and it
      holds exactly `h` rows. */
  lemma PackedRows(w: uint32, h: uint32, b: nat)
    requires NoWrap(w, h) && h > 0 && 1 <= b <= 4
    ensures U32(w * b) == b * w && U32(w * h * b) == (b * w) * h
  {
    MulMono(w, 1, w, h);
    MulMono(w * h, b, w * h, 4);
    MulMono(w, b, w, 4);
    assert (b * w) * h == (w * h) * b;
  }

  /** Every plane holds its rows, for every format except NV12 with an
      odd width: its chroma rows of `w` bytes need more than the
      `(w/2)*(h/2)*2` bytes reserved for them. */
  lemma LayoutHolds(format: VideoFormat, w: uint32, h: uint32)
    requires NoWrap(w, h)
    ensures forall k :: 0 <= k < |Layout(format, w, h)| ==>
      (Holds(Layout(format, w, h)[k]) <==> !(format == NV12 && k == 1 && w % 2 == 1 && h >= 2))
    ensures forall k :: 0 <= k < |Layout(format, w, h)| ==>
      Layout(format, w, h)[k].rows == if HalfHeightChroma(format, k) then h / 2 else h
  {
    PlaneKinds(w, h);
  }

  /** Which of the plane shapes `Layout` uses hold their rows. */
  lemma PlaneKinds(w: uint32, h: uint32)
    requires NoWrap(w, h)
    ensures Holds(Plane(U32(w * h), w, h))
    ensures Holds(Plane(U32((w / 2) * (h / 2)), w / 2, h / 2))
    ensures Holds(Plane(U32((w / 2) * h), w / 2, h))
    ensures Holds(Plane(U32(w * h * 2), U32(w * 2), h))
    ensures Holds(Plane(U32(w * h * 3), U32(w * 3), h))
    ensures Holds(Plane(U32(w * h * 4), U32(w * 4), h))
    ensures Holds(Plane(U32((w / 2) * (h / 2) * 2), w, h / 2)) <==> w % 2 == 0 || h < 2
  {
    Products(w, h);
    if h > 0 {
      PackedRows(w, h, 2);
      PackedRows(w, h, 3);
      PackedRows(w, h, 4);
    }
  }

  /** As written, NV12 with an odd width overruns its buffer: a 33x2
      frame gets a 128-byte buffer, and its one chroma row of 33 bytes
      starts at 96. */
  lemma NV12OddWidthOverrun()
    ensures var planes := Layout(NV12, 33, 2);
      Starts(planes, 0)[1] == 96 && End(planes, 0) == 128
      && Starts(planes, 0)[1] + planes[1].linesize * planes[1].rows == 129
  {
    var planes := Layout(NV12, 33, 2);
    assert planes[0].bytes == 66 && planes[1].bytes == 32;
    AlignSizeIs(66, 96);
    AlignSizeIs(128, 128);
    assert planes[1..][1..] == [];
  }

  /** The NV12 layout evidently intended: the chroma plane reserves its
      `h/2` rows of `w` bytes. Every other format is laid out as written. */
  function IntendedLayout(format: VideoFormat, w: uint32, h: uint32): seq<Plane>
  {
    if format == NV12 then [Plane(U32(w * h), w, h), Plane(U32(w * (h / 2)), w, h / 2)]
    else Layout(format, w, h)
  }

  /** With the intended NV12 layout every plane of every format holds its
      rows, so all planes lie one after another inside the buffer. */
  lemma IntendedLayoutFits(format: VideoFormat, w: uint32, h: uint32)
    requires NoWrap(w, h)
    ensures var planes := IntendedLayout(format, w, h);
      (forall k :: 0 <= k < |planes| ==>
        Starts(planes, 0)[k] + planes[k].linesize * planes[k].rows <= End(planes, 0))
      && (forall j, k :: 0 <= j < k < |planes| ==>
        Starts(planes, 0)[j] + planes[j].linesize * planes[j].rows <= Starts(planes, 0)[k])
  {
    if format == NV12 {
      Products(w, h);
      MulMono(w, h / 2, w, h);
      Exact(w * (h / 2));
      assert Holds(IntendedLayout(NV12, w, h)[1]);
    } else {
      LayoutHolds(format, w, h);
    }
    PlanesFit(IntendedLayout(format, w, h));
  }

  /** As written, every plane lies inside the buffer and before the next
      plane, except the chroma plane of NV12 with an odd width. */
  lemma LayoutFits(format: VideoFormat, w: uint32, h: uint32)
    requires NoWrap(w, h)
    requires format == NV12 ==> w % 2 == 0 || h < 2
    ensures var planes := Layout(format, w, h);
      (forall k :: 0 <= k < |planes| ==> Starts(planes, 0)[k] % 32 == 0)
      && (forall k :: 0 <= k < |planes| ==>
        Starts(planes, 0)[k] + planes[k].linesize * planes[k].rows <= End(planes, 0))
      && (forall j, k :: 0 <= j < k < |planes| ==>
        Starts(planes, 0)[j] + planes[j].linesize * planes[j].rows <= Starts(planes, 0)[k])
  {
    LayoutHolds(format, w, h);
    PlanesFit(Layout(format, w, h));
  }

  /** The plane pointers a layout gives: each plane's start. */
  function Pointers(starts: seq<nat>): (r: seq<Option<nat>>)
    ensures |r| == |starts|
    ensures forall k :: 0 <= k < |starts| ==> r[k] == Some(starts[k])
  {
    if starts == [] then [] else [Some(starts[0])] + Pointers(starts[1..])
  }

  /** The row lengths of a layout. */
  function Linesizes(planes: seq<Plane>): (r: seq<uint32>)
    ensures |r| == |planes|
    ensures forall k :: 0 <= k < |planes| ==> r[k] == planes[k].linesize
  {
    if planes == [] then [] else [planes[0].linesize] + Linesizes(planes[1..])
  }

  /** `s` with its first entries replaced by `prefix`. */
  function Overwrite<T>(s: seq<T>, prefix: seq<T>): (r: seq<T>)
    requires |prefix| <= |s|
    ensures |r| == |s|
    ensures forall k :: 0 <= k < |prefix| ==> r[k] == prefix[k]
    ensures forall k :: |prefix| <= k < |s| ==> r[k] == s[k]
  {
    prefix + s[|prefix|..]
  }

  lemma Overwrite2<T>(s: seq<T>, a: T, b: T)
    requires |s| >= 2
    ensures Overwrite(s, [a, b]) == s[0 := a][1 := b]
  {
  }

  lemma Overwrite3<T>(s: seq<T>, a: T, b: T, c: T)
    requires |s| >= 3
    ensures Overwrite(s, [a, b, c]) == s[0 := a][1 := b][2 := c]
  {
  }

  lemma Overwrite4<T>(s: seq<T>, a: T, b: T, c: T, d: T)
    requires |s| >= 4
    ensures Overwrite(s, [a, b, c, d]) == s[0 := a][1 := b][2 := c][3 := d]
  {
  }

  /** `memcpy(buf + at, src + from, n)`. */
  function MemCpy(buf: seq<byte>, at: nat, src: seq<byte>, from: nat, n: nat): (r: seq<byte>)
    requires at + n <= |buf| && from + n <= |src|
    ensures |r| == |buf|
    ensures forall i :: 0 <= i < |buf| ==> r[i] == if at <= i < at + n then src[from + i - at] else buf[i]
  {
    buf[..at] + src[from..from + n] + buf[at + n..]
  }

  /** `linesize * cy` in `uint32_t`. */
  function RowBytes(linesize: uint32, cy: uint32): nat
  {
    U32(linesize * cy)
  }

  /** The bytes `video_frame_copy` moves for each plane, from the source's
      row lengths: full planes `linesize * cy`, 4:2:0 chroma planes half of
      that. */
  function CopyLengths(format: VideoFormat, ls: seq<uint32>, cy: uint32): (r: seq<nat>)
    requires |ls| == MAX_AV_PLANES
    ensures |r| == PlaneCount(format)
    ensures forall k :: 0 <= k < |r| ==>
      r[k] == if HalfHeightChroma(format, k) then RowBytes(ls[k], cy) / 2 else RowBytes(ls[k], cy)
  {
    match format
    case NoFormat => []
    case I420 => [RowBytes(ls[0], cy), RowBytes(ls[1], cy) / 2, RowBytes(ls[2], cy) / 2]
    case NV12 => [RowBytes(ls[0], cy), RowBytes(ls[1], cy) / 2]
    case I444 => [RowBytes(ls[0], cy), RowBytes(ls[1], cy), RowBytes(ls[2], cy)]
    case I422 => [RowBytes(ls[0], cy), RowBytes(ls[1], cy), RowBytes(ls[2], cy)]
    case I40A => [RowBytes(ls[0], cy), RowBytes(ls[1], cy) / 2, RowBytes(ls[2], cy) / 2, RowBytes(ls[3], cy)]
    case I42A => [RowBytes(ls[0], cy), RowBytes(ls[1], cy), RowBytes(ls[2], cy), RowBytes(ls[3], cy)]
    case YUVA => [RowBytes(ls[0], cy), RowBytes(ls[1], cy), RowBytes(ls[2], cy), RowBytes(ls[3], cy)]
    case _ => [RowBytes(ls[0], cy)]
  }

  /** The number of planes of a format. */
  function PlaneCount(format: VideoFormat): nat
  {
    match format
    case NoFormat => 0
    case NV12 => 2
    case I420 => 3
    case I444 => 3
    case I422 => 3
    case I40A => 4
    case I42A => 4
    case YUVA => 4
    case _ => 1
  }

  /** Every copy has both its pointers and stays inside both buffers. */
  predicate CopyDefined(dstData: seq<Option<nat>>, dstSize: nat, srcData: seq<Option<nat>>, srcSize: nat,
                        lens: seq<nat>)
  {
    forall k :: 0 <= k < |lens| ==>
      k < |dstData| && k < |srcData| && dstData[k].Some? && srcData[k].Some?
      && dstData[k].value + lens[k] <= dstSize && srcData[k].value + lens[k] <= srcSize
  }

  /** The copies from plane `k` on, one after another. */
  function CopyFrom(buf: seq<byte>, dstData: seq<Option<nat>>, src: seq<byte>, srcData: seq<Option<nat>>,
                    lens: seq<nat>, k: nat): (r: seq<byte>)
    requires CopyDefined(dstData, |buf|, srcData, |src|, lens)
    ensures |r| == |buf|
    decreases |lens| - k
  {
    if k >= |lens| then buf
    else
      var n := lens[k];
      CopyFrom(MemCpy(buf, dstData[k].value, src, srcData[k].value, n), dstData, src, srcData, lens, k + 1)
  }

  /** A byte no copy from plane `k` on writes keeps its value. */
  lemma {:induction false} CopyKeeps(buf: seq<byte>, dstData: seq<Option<nat>>, src: seq<byte>,
                                     srcData: seq<Option<nat>>, lens: seq<nat>, k: nat, i: nat)
    requires CopyDefined(dstData, |buf|, srcData, |src|, lens)
    requires i < |buf|
    requires forall j :: k <= j < |lens| ==>
      lens[j] == 0 || i < dstData[j].value || dstData[j].value + lens[j] <= i
    ensures CopyFrom(buf, dstData, src, srcData, lens, k)[i] == buf[i]
    decreases |lens| - k
  {
    if k < |lens| {
      var n := lens[k];
      var next := MemCpy(buf, dstData[k].value, src, srcData[k].value, n);
      CopyKeeps(next, dstData, src, srcData, lens, k + 1, i);
    }
  }

  /** The destination ranges of the copies do not overlap. */
  predicate Disjoint(dstData: seq<Option<nat>>, lens: seq<nat>)
  {
    forall j, k :: 0 <= j < k < |lens| && k < |dstData| && dstData[j].Some? && dstData[k].Some? ==>
      dstData[j].value + lens[j] <= dstData[k].value || dstData[k].value + lens[k] <= dstData[j].value
  }

  /** With disjoint destinations, each copied plane holds the source's
      bytes. */
  lemma {:induction false} CopyWrites(buf: seq<byte>, dstData: seq<Option<nat>>, src: seq<byte>,
                                      srcData: seq<Option<nat>>, lens: seq<nat>, k: nat, j: nat, t: nat)
    requires CopyDefined(dstData, |buf|, srcData, |src|, lens)
    requires Disjoint(dstData, lens)
    requires k <= j < |lens| && t < lens[j]
    ensures CopyFrom(buf, dstData, src, srcData, lens, k)[dstData[j].value + t] == src[srcData[j].value + t]
    decreases |lens| - k
  {
    var next := MemCpy(buf, dstData[k].value, src, srcData[k].value, lens[k]);
    if k < j {
      CopyWrites(next, dstData, src, srcData, lens, k + 1, j, t);
    } else {
      CopyKeeps(next, dstData, src, srcData, lens, k + 1, dstData[j].value + t);
    }
  }

  /** A frame's pointers, buffer size and row lengths for the planes
      `planes` of a frame in `format`. */
  predicate PlacedAs(data: seq<Option<nat>>, size: nat, linesize: seq<uint32>,
                     format: VideoFormat, planes: seq<Plane>)
  {
    |planes| <= |data| && |planes| <= |linesize|
    && data[..|planes|] == Pointers(Starts(planes, 0))
    && linesize[..|planes|] == Linesizes(planes)
    && (format != NoFormat ==> size == End(planes, 0))
  }

  /** A frame's pointers, buffer size and row lengths as `video_frame_init`
      leaves them for `format`, `w` and `h`. */
  predicate LaidOut(data: seq<Option<nat>>, size: nat, linesize: seq<uint32>,
                    format: VideoFormat, w: uint32, h: uint32)
  {
    PlacedAs(data, size, linesize, format, Layout(format, w, h))
  }

  /** Copying `cy <= h` rows between two frames laid out alike stays inside
      both buffers and writes disjoint ranges, as long as the layout fits
      and `cy` is even for the 4:2:0 formats: plane `k` gets at most its own
      rows. */
  lemma CopyWithinPlanes(dstData: seq<Option<nat>>, dstSize: nat, srcData: seq<Option<nat>>, srcSize: nat,
                         linesize: seq<uint32>, format: VideoFormat, w: uint32, h: uint32, cy: uint32)
    requires |linesize| == MAX_AV_PLANES
    requires LaidOut(dstData, dstSize, linesize, format, w, h)
    requires LaidOut(srcData, srcSize, linesize, format, w, h)
    requires NoWrap(w, h) && cy <= h
    requires format == NV12 ==> w % 2 == 0 || h < 2
    requires format == I420 || format == NV12 || format == I40A ==> cy % 2 == 0
    ensures CopyDefined(dstData, dstSize, srcData, srcSize, CopyLengths(format, linesize, cy))
    ensures Disjoint(dstData, CopyLengths(format, linesize, cy))
  {
    var planes := Layout(format, w, h);
    var lens := CopyLengths(format, linesize, cy);
    LayoutFits(format, w, h);
    LayoutHolds(format, w, h);
    LinesizeBound(format, w, h);
    forall k | 0 <= k < |lens| ensures lens[k] <= planes[k].linesize * planes[k].rows {
      assert linesize[k] == linesize[..|planes|][k] == planes[k].linesize;
      RowsCopied(linesize[k], cy, planes[k].rows, HalfHeightChroma(format, k), h);
    }
    CopyInside(dstData, dstSize, srcData, srcSize, planes, lens);
  }

  /** Copies of at most each plane's rows between two frames with the
      same fitting layout stay inside both buffers and do not overlap. */
  lemma CopyInside(dstData: seq<Option<nat>>, dstSize: nat, srcData: seq<Option<nat>>, srcSize: nat,
                   planes: seq<Plane>, lens: seq<nat>)
    requires |lens| == |planes| <= |dstData| && |planes| <= |srcData|
    requires forall k :: 0 <= k < |planes| ==> lens[k] <= planes[k].linesize * planes[k].rows
    requires forall k :: 0 <= k < |planes| ==>
      Starts(planes, 0)[k] + planes[k].linesize * planes[k].rows <= End(planes, 0)
    requires forall j, k :: 0 <= j < k < |planes| ==>
      Starts(planes, 0)[j] + planes[j].linesize * planes[j].rows <= Starts(planes, 0)[k]
    requires dstData[..|planes|] == Pointers(Starts(planes, 0)) && srcData[..|planes|] == Pointers(Starts(planes, 0))
    requires planes != [] ==> dstSize == End(planes, 0) && srcSize == End(planes, 0)
    ensures CopyDefined(dstData, dstSize, srcData, srcSize, lens)
    ensures Disjoint(dstData, lens)
  {
  }

  /** The row length of every plane times the image height does not wrap. */
  lemma LinesizeBound(format: VideoFormat, w: uint32, h: uint32)
    requires NoWrap(w, h)
    ensures forall k :: 0 <= k < |Layout(format, w, h)| ==> Layout(format, w, h)[k].linesize * h < TWO32
  {
    Products(w, h);
    MulMono(w / 2, h, w, h);
    if h > 0 {
      PackedRows(w, h, 2);
      PackedRows(w, h, 3);
      PackedRows(w, h, 4);
    }
  }

  /** The bytes copied for one plane are at most the plane's rows. */
  lemma RowsCopied(l: uint32, cy: uint32, rows: nat, halved: bool, h: uint32)
    requires cy <= h && l * h < TWO32
    requires halved ==> cy % 2 == 0 && rows == h / 2
    requires !halved ==> rows == h
    ensures (if halved then RowBytes(l, cy) / 2 else RowBytes(l, cy)) <= l * rows
  {
    MulMono(l, cy, l, h);
    if halved {
      assert l * cy == l * (2 * (cy / 2)) == 2 * (l * (cy / 2));
      MulMono(l, cy / 2, l, h / 2);
    }
  }

  /** Whole chroma rows: copying `cy / 2` rows of `l` bytes stays within
      `h / 2` rows. */
  lemma WholeRowsCopied(l: uint32, cy: uint32, h: uint32)
    requires cy <= h && l * h < TWO32
    ensures RowBytes(l, cy / 2) <= l * (h / 2)
  {
    MulMono(l, cy / 2, l, h / 2);
    MulMono(l, h / 2, l, h);
  }

  /** As written, an odd `cy` overruns a 4:2:0 buffer: an I420 frame of
      128x3 has a 512-byte buffer whose last chroma plane starts at 448,
      and copying 3 rows moves `64 * 3 / 2 = 96` bytes into it. */
  lemma OddRowsOverrun()
    ensures var planes := Layout(I420, 128, 3); var ls := Linesizes(planes) + [0, 0, 0, 0, 0];
      Starts(planes, 0)[2] == 448 && End(planes, 0) == 512
      && CopyLengths(I420, ls, 3)[2] == 96
  {
    var planes := Layout(I420, 128, 3);
    assert planes[0].bytes == 384 && planes[1].bytes == 64;
    AlignSizeIs(384, 384);
    AlignSizeIs(448, 448);
    AlignSizeIs(512, 512);
    assert planes[1..][1..] == [planes[2]];
  }

  /** The copy lengths evidently intended for 4:2:0 chroma: whole rows,
      `linesize * (cy / 2)`. */
  function IntendedCopyLengths(format: VideoFormat, ls: seq<uint32>, cy: uint32): (r: seq<nat>)
    requires |ls| == MAX_AV_PLANES
    ensures |r| == PlaneCount(format)
  {
    seq(PlaneCount(format), k requires 0 <= k < PlaneCount(format) =>
      if HalfHeightChroma(format, k) then RowBytes(ls[k], cy / 2) else RowBytes(ls[k], cy))
  }

  /** With whole chroma rows, copying any `cy <= h` rows between two frames
      laid out alike by the intended layout stays inside both buffers, for
      every format and every width. */
  lemma IntendedCopyWithinPlanes(dstData: seq<Option<nat>>, dstSize: nat, srcData: seq<Option<nat>>,
                                 srcSize: nat, linesize: seq<uint32>, format: VideoFormat,
                                 w: uint32, h: uint32, cy: uint32)
    requires |linesize| == MAX_AV_PLANES
    requires PlacedAs(dstData, dstSize, linesize, format, IntendedLayout(format, w, h))
    requires PlacedAs(srcData, srcSize, linesize, format, IntendedLayout(format, w, h))
    requires NoWrap(w, h) && cy <= h
    ensures CopyDefined(dstData, dstSize, srcData, srcSize, IntendedCopyLengths(format, linesize, cy))
    ensures Disjoint(dstData, IntendedCopyLengths(format, linesize, cy))
  {
    var planes := IntendedLayout(format, w, h);
    var lens := IntendedCopyLengths(format, linesize, cy);
    IntendedLayoutFits(format, w, h);
    IntendedRows(format, w, h);
    forall k | 0 <= k < |lens| ensures lens[k] <= planes[k].linesize * planes[k].rows {
      assert linesize[k] == linesize[..|planes|][k] == planes[k].linesize;
      if HalfHeightChroma(format, k) {
        WholeRowsCopied(linesize[k], cy, h);
      } else {
        RowsCopied(linesize[k], cy, planes[k].rows, false, h);
      }
    }
    CopyInside(dstData, dstSize, srcData, srcSize, planes, lens);
  }

  /** The intended layout's planes have the rows of the written one, and
      no row length times the height wraps. */
  lemma IntendedRows(format: VideoFormat, w: uint32, h: uint32)
    requires NoWrap(w, h)
    ensures |IntendedLayout(format, w, h)| == PlaneCount(format)
    ensures forall k :: 0 <= k < |IntendedLayout(format, w, h)| ==>
      IntendedLayout(format, w, h)[k].rows == (if HalfHeightChroma(format, k) then h / 2 else h)
      && IntendedLayout(format, w, h)[k].linesize * h < TWO32
  {
    if format == NV12 {
      Products(w, h);
      MulMono(w * h, 1, w * h, 4);
    } else {
      LayoutHolds(format, w, h);
      LinesizeBound(format, w, h);
    }
  }

  /** A raw video frame: plane pointers, row lengths and the buffer the
      planes live in. */
  class Frame {
    var data: seq<Option<nat>>
    const linesize: array<uint32>
    var dataInternal: seq<byte>

    ghost predicate Valid()
      reads this
    {
      linesize.Length == MAX_AV_PLANES
    }

    /** A new frame has eight null pointers, zero row lengths and an empty
        buffer. */
    constructor()
      ensures Valid() && fresh(linesize)
      ensures data == seq(MAX_AV_PLANES, _ => None)
      ensures linesize[..] == seq(MAX_AV_PLANES, _ => 0) && dataInternal == []
    {
      data := seq(MAX_AV_PLANES, _ => None);
      linesize := new uint32[MAX_AV_PLANES](_ => 0);
      dataInternal := [];
    }

    /** `video_frame_init`: the pointer list is resized to eight entries; a
        format with planes resizes the buffer to the layout's size, points
        the first entries at the planes and sets their row lengths. Entries
        past the format's planes keep their values. */
    method Init(format: VideoFormat, width: uint32, height: uint32)
      requires Valid()
      modifies this, linesize
      ensures Valid()
      ensures var planes := Layout(format, width, height);
        && data == Overwrite(Resize(old(data), MAX_AV_PLANES, None), Pointers(Starts(planes, 0)))
        && linesize[..] == Overwrite(old(linesize[..]), Linesizes(planes))
        && dataInternal == (if format == NoFormat then old(dataInternal)
                            else Resize(old(dataInternal), End(planes, 0), 0))
    {
      data := Resize(data, MAX_AV_PLANES, None);
      ghost var planes := Layout(format, width, height);
      match format
      case NoFormat =>
        return;
      case I420 =>
        InitPlanar(planes, width, height, U32((width / 2) * (height / 2)), width / 2);
      case NV12 =>
        InitNV12(planes, width, height);
      case Y800 =>
        InitPacked(planes, U32(width * height), width);
      case YVYU =>
        InitPacked(planes, U32(width * height * 2), U32(width * 2));
      case YUY2 =>
        InitPacked(planes, U32(width * height * 2), U32(width * 2));
      case UYVY =>
        InitPacked(planes, U32(width * height * 2), U32(width * 2));
      case RGBA =>
        InitPacked(planes, U32(width * height * 4), U32(width * 4));
      case BGRA =>
        InitPacked(planes, U32(width * height * 4), U32(width * 4));
      case BGRX =>
        InitPacked(planes, U32(width * height * 4), U32(width * 4));
      case AYUV =>
        InitPacked(planes, U32(width * height * 4), U32(width * 4));
      case I444 =>
        InitI444(planes, width, height);
      case BGR3 =>
        InitPacked(planes, U32(width * height * 3), U32(width * 3));
      case I422 =>
        InitPlanar(planes, width, height, U32((width / 2) * height), width / 2);
      case I40A =>
        InitWithAlpha(planes, width, height, U32((width / 2) * (height / 2)), width / 2);
      case I42A =>
        InitWithAlpha(planes, width, height, U32((width / 2) * height), width / 2);
      case YUVA =>
        InitWithAlpha(planes, width, height, U32(width * height), width);
    }

    /** I420 and I422: luma and two chroma planes of `chroma` bytes with
        rows of `chromaRow` bytes, each start aligned. */
    method InitPlanar(ghost planes: seq<Plane>, width: uint32, height: uint32, chroma: nat, chromaRow: uint32)
      requires Valid() && |data| == MAX_AV_PLANES && |planes| == 3
      requires planes[0].bytes == U32(width * height) && planes[0].linesize == width
      requires planes[1].bytes == chroma && planes[1].linesize == chromaRow
      requires planes[2].bytes == chroma && planes[2].linesize == chromaRow
      modifies this, linesize
      ensures Valid()
      ensures data == Overwrite(old(data), Pointers(Starts(planes, 0)))
      ensures linesize[..] == Overwrite(old(linesize[..]), Linesizes(planes))
      ensures dataInternal == Resize(old(dataInternal), End(planes, 0), 0)
    {
      Unfold3(planes, 0);
      ghost var st := Starts(planes, 0);
      var offsets := seq(MAX_AV_PLANES, _ => 0);
      var size := U32(width * height);
      size := AlignSize(size);
      assert size == st[1];
      offsets := offsets[0 := size];
      size := size + chroma;
      size := AlignSize(size);
      assert size == st[2];
      offsets := offsets[1 := size];
      size := size + chroma;
      size := AlignSize(size);
      assert size == End(planes, 0);
      dataInternal := Resize(dataInternal, size, 0);
      data := data[0 := Some(0)][1 := Some(offsets[0])][2 := Some(offsets[1])];
      linesize[0] := width;
      linesize[1] := chromaRow;
      linesize[2] := chromaRow;
      assert Pointers(st) == [Some(0), Some(offsets[0]), Some(offsets[1])];
      assert Linesizes(planes) == [width, chromaRow, chromaRow];
      Overwrite3(old(data), Some(0), Some(offsets[0]), Some(offsets[1]));
      Overwrite3(old(linesize[..]), width, chromaRow, chromaRow);
    }

    /** NV12: luma and one interleaved chroma plane of
        `(width/2)*(height/2)*2` bytes, both with rows of `width` bytes. */
    method InitNV12(ghost planes: seq<Plane>, width: uint32, height: uint32)
      requires Valid() && |data| == MAX_AV_PLANES && planes == Layout(NV12, width, height)
      modifies this, linesize
      ensures Valid()
      ensures data == Overwrite(old(data), Pointers(Starts(planes, 0)))
      ensures linesize[..] == Overwrite(old(linesize[..]), Linesizes(planes))
      ensures dataInternal == Resize(old(dataInternal), End(planes, 0), 0)
    {
      Unfold2(planes, 0);
      ghost var st := Starts(planes, 0);
      var offsets := seq(MAX_AV_PLANES, _ => 0);
      var size := U32(width * height);
      size := AlignSize(size);
      assert size == st[1];
      offsets := offsets[0 := size];
      size := size + U32((width / 2) * (height / 2) * 2);
      size := AlignSize(size);
      assert size == End(planes, 0);
      dataInternal := Resize(dataInternal, size, 0);
      data := data[0 := Some(0)][1 := Some(offsets[0])];
      linesize[0] := width;
      linesize[1] := width;
      assert Pointers(st) == [Some(0), Some(offsets[0])];
      assert Linesizes(planes) == [width, width];
      Overwrite2(old(data), Some(0), Some(offsets[0]));
      Overwrite2(old(linesize[..]), width, width);
    }

    /** I444: one aligned plane size `S`, a buffer of `3S`, planes `S`
        apart. */
    method InitI444(ghost planes: seq<Plane>, width: uint32, height: uint32)
      requires Valid() && |data| == MAX_AV_PLANES && planes == Layout(I444, width, height)
      modifies this, linesize
      ensures Valid()
      ensures data == Overwrite(old(data), Pointers(Starts(planes, 0)))
      ensures linesize[..] == Overwrite(old(linesize[..]), Linesizes(planes))
      ensures dataInternal == Resize(old(dataInternal), End(planes, 0), 0)
    {
      I444Layout(width, height);
      var size := U32(width * height);
      size := AlignSize(size);
      dataInternal := Resize(dataInternal, size * 3, 0);
      data := data[0 := Some(0)];
      data := data[1 := Some(data[0].value + size)];
      data := data[2 := Some(data[1].value + size)];
      linesize[0] := width;
      linesize[1] := width;
      linesize[2] := width;
      assert Pointers(Starts(planes, 0)) == [Some(0), Some(size), Some(2 * size)];
      assert Linesizes(planes) == [width, width, width];
      Overwrite3(old(data), Some(0), Some(size), Some(2 * size));
      Overwrite3(old(linesize[..]), width, width, width);
    }

    /** The single-plane formats: one plane of `bytes`, aligned, with rows
        of `row` bytes. */
    method InitPacked(ghost planes: seq<Plane>, bytes: nat, row: uint32)
      requires Valid() && |data| == MAX_AV_PLANES
      requires |planes| == 1 && planes[0].bytes == bytes && planes[0].linesize == row
      modifies this, linesize
      ensures Valid()
      ensures data == Overwrite(old(data), Pointers(Starts(planes, 0)))
      ensures linesize[..] == Overwrite(old(linesize[..]), Linesizes(planes))
      ensures dataInternal == Resize(old(dataInternal), End(planes, 0), 0)
    {
      var size := bytes;
      size := AlignSize(size);
      dataInternal := Resize(dataInternal, size, 0);
      data := data[0 := Some(0)];
      linesize[0] := row;
      Unfold1(planes, 0);
    }

    /** The four-plane formats: luma, two chroma planes of `chroma` bytes
        with rows of `chromaRow` bytes, and a full-size alpha plane. */
    method InitWithAlpha(ghost planes: seq<Plane>, width: uint32, height: uint32, chroma: nat, chromaRow: uint32)
      requires Valid() && |data| == MAX_AV_PLANES && |planes| == 4
      requires planes[0].bytes == U32(width * height) && planes[0].linesize == width
      requires planes[1].bytes == chroma && planes[1].linesize == chromaRow
      requires planes[2].bytes == chroma && planes[2].linesize == chromaRow
      requires planes[3].bytes == U32(width * height) && planes[3].linesize == width
      modifies this, linesize
      ensures Valid()
      ensures data == Overwrite(old(data), Pointers(Starts(planes, 0)))
      ensures linesize[..] == Overwrite(old(linesize[..]), Linesizes(planes))
      ensures dataInternal == Resize(old(dataInternal), End(planes, 0), 0)
    {
      Unfold4(planes, 0);
      ghost var st := Starts(planes, 0);
      var offsets := seq(MAX_AV_PLANES, _ => 0);
      var size := U32(width * height);
      size := AlignSize(size);
      assert size == st[1];
      offsets := offsets[0 := size];
      size := size + chroma;
      size := AlignSize(size);
      assert size == st[2];
      offsets := offsets[1 := size];
      size := size + chroma;
      size := AlignSize(size);
      assert size == st[3];
      offsets := offsets[2 := size];
      size := size + U32(width * height);
      size := AlignSize(size);
      assert size == End(planes, 0);
      dataInternal := Resize(dataInternal, size, 0);
      data := data[0 := Some(0)][1 := Some(offsets[0])][2 := Some(offsets[1])][3 := Some(offsets[2])];
      linesize[0] := width;
      linesize[1] := chromaRow;
      linesize[2] := chromaRow;
      linesize[3] := width;
      assert Pointers(st) == [Some(0), Some(offsets[0]), Some(offsets[1]), Some(offsets[2])];
      assert Linesizes(planes) == [width, chromaRow, chromaRow, width];
      Overwrite4(old(data), Some(0), Some(offsets[0]), Some(offsets[1]), Some(offsets[2]));
      Overwrite4(old(linesize[..]), width, chromaRow, chromaRow, width);
    }

    /** `video_frame_free`: both buffers emptied, every row length 0. */
    method Free()
      requires Valid()
      modifies this, linesize
      ensures Valid()
      ensures dataInternal == [] && data == [] && linesize[..] == seq(MAX_AV_PLANES, _ => 0)
    {
      dataInternal := [];
      data := [];
      forall k | 0 <= k < MAX_AV_PLANES {
        linesize[k] := 0;
      }
    }
  }

  /** `video_frame_copy`: copies the planes of `format` from `src` to `dst`,
      one `memcpy` per plane, in plane order; the lengths come from the
      source's row lengths. */
  method Copy(dst: Frame, src: Frame, format: VideoFormat, cy: uint32)
    requires dst != src && src.Valid()
    requires CopyDefined(dst.data, |dst.dataInternal|, src.data, |src.dataInternal|,
                         CopyLengths(format, src.linesize[..], cy))
    modifies dst
    ensures dst.data == old(dst.data)
    ensures dst.dataInternal == CopyFrom(old(dst.dataInternal), dst.data, src.dataInternal, src.data,
                                         CopyLengths(format, src.linesize[..], cy), 0)
  {
    ghost var lens := CopyLengths(format, src.linesize[..], cy);
    ghost var target := CopyFrom(dst.dataInternal, dst.data, src.dataInternal, src.data, lens, 0);
    ghost var ls := src.linesize[..];
    if format == NoFormat {
      return;
    } else if format == I420 || format == I444 || format == I422 {
      CopyYuv(dst, src, cy, format == I420, lens, target);
    } else if format == NV12 {
      CopyPlane(dst, src, 0, cy, false, lens, target);
      CopyPlane(dst, src, 1, cy, true, lens, target);
    } else if format == I40A || format == I42A || format == YUVA {
      CopyYuv(dst, src, cy, format == I40A, lens, target);
      CopyPlane(dst, src, 3, cy, false, lens, target);
    } else {
      CopyPlane(dst, src, 0, cy, false, lens, target);
    }
    assert src.linesize[..] == ls;
  }

  /** The three `memcpy`s of the luma and the two chroma planes, the chroma
      ones halved for 4:2:0 formats. */
  method CopyYuv(dst: Frame, src: Frame, cy: uint32, halved: bool,
                 ghost lens: seq<nat>, ghost target: seq<byte>)
    requires dst != src && src.Valid()
    requires CopyDefined(dst.data, |dst.dataInternal|, src.data, |src.dataInternal|, lens)
    requires 3 <= |lens|
    requires lens[0] == RowBytes(src.linesize[0], cy)
    requires lens[1] == if halved then RowBytes(src.linesize[1], cy) / 2 else RowBytes(src.linesize[1], cy)
    requires lens[2] == if halved then RowBytes(src.linesize[2], cy) / 2 else RowBytes(src.linesize[2], cy)
    requires CopyFrom(dst.dataInternal, dst.data, src.dataInternal, src.data, lens, 0) == target
    modifies dst
    ensures dst.data == old(dst.data) && |dst.dataInternal| == |old(dst.dataInternal)|
    ensures CopyFrom(dst.dataInternal, dst.data, src.dataInternal, src.data, lens, 3) == target
    ensures 3 == |lens| ==> dst.dataInternal == target
  {
    CopyPlane(dst, src, 0, cy, false, lens, target);
    CopyPlane(dst, src, 1, cy, halved, lens, target);
    CopyPlane(dst, src, 2, cy, halved, lens, target);
  }

  /** One `memcpy` from plane `k` of `src` to plane `k` of `dst`:
      `linesize[k] * cy` bytes, halved for 4:2:0 chroma. The copies from
      plane `k + 1` on still lead to `target`. */
  method CopyPlane(dst: Frame, src: Frame, k: nat, cy: uint32, halved: bool,
                   ghost lens: seq<nat>, ghost target: seq<byte>)
    requires dst != src && src.Valid()
    requires CopyDefined(dst.data, |dst.dataInternal|, src.data, |src.dataInternal|, lens)
    requires k < |lens| && k < MAX_AV_PLANES
    requires lens[k] == if halved then RowBytes(src.linesize[k], cy) / 2 else RowBytes(src.linesize[k], cy)
    requires CopyFrom(dst.dataInternal, dst.data, src.dataInternal, src.data, lens, k) == target
    modifies dst
    ensures dst.data == old(dst.data) && |dst.dataInternal| == |old(dst.dataInternal)|
    ensures CopyFrom(dst.dataInternal, dst.data, src.dataInternal, src.data, lens, k + 1) == target
    ensures k + 1 == |lens| ==> dst.dataInternal == target
  {
    var n := RowBytes(src.linesize[k], cy);
    if halved {
      n := n / 2;
    }
    assert n == lens[k];
    dst.dataInternal := MemCpy(dst.dataInternal, dst.data[k].value, src.dataInternal, src.data[k].value, n);
  }

  /** One step of the running size. */
  lemma StartsCons(planes: seq<Plane>, at: nat)
    requires planes != []
    ensures Starts(planes, at) == [at] + Starts(planes[1..], AlignSize(at + planes[0].bytes))
    ensures End(planes, at) == End(planes[1..], AlignSize(at + planes[0].bytes))
  {
  }

  lemma Unfold1(planes: seq<Plane>, at: nat)
    requires |planes| == 1
    ensures Starts(planes, at) == [at] && End(planes, at) == AlignSize(at + planes[0].bytes)
  {
    StartsCons(planes, at);
    assert planes[1..] == [];
  }

  lemma Unfold2(planes: seq<Plane>, at: nat)
    requires |planes| == 2
    ensures var a1 := AlignSize(at + planes[0].bytes);
      Starts(planes, at) == [at, a1] && End(planes, at) == AlignSize(a1 + planes[1].bytes)
  {
    StartsCons(planes, at);
    Unfold1(planes[1..], AlignSize(at + planes[0].bytes));
    assert planes[1..][0] == planes[1];
  }

  lemma Unfold3(planes: seq<Plane>, at: nat)
    requires |planes| == 3
    ensures var a1 := AlignSize(at + planes[0].bytes); var a2 := AlignSize(a1 + planes[1].bytes);
      Starts(planes, at) == [at, a1, a2] && End(planes, at) == AlignSize(a2 + planes[2].bytes)
  {
    StartsCons(planes, at);
    Unfold2(planes[1..], AlignSize(at + planes[0].bytes));
    assert planes[1..][0] == planes[1] && planes[1..][1] == planes[2];
  }

  lemma Unfold4(planes: seq<Plane>, at: nat)
    requires |planes| == 4
    ensures var a1 := AlignSize(at + planes[0].bytes); var a2 := AlignSize(a1 + planes[1].bytes);
      var a3 := AlignSize(a2 + planes[2].bytes);
      Starts(planes, at) == [at, a1, a2, a3] && End(planes, at) == AlignSize(a3 + planes[3].bytes)
  {
    StartsCons(planes, at);
    Unfold3(planes[1..], AlignSize(at + planes[0].bytes));
    assert planes[1..][0] == planes[1] && planes[1..][1] == planes[2] && planes[1..][2] == planes[3];
  }
}
