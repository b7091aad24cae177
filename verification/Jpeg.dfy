/** Finding a JPEG picture's size by walking its marker segments. */
module Jpeg {
  import opened Common

  type Byte = b: int | 0 <= b < 256

  datatype Size = Size(width: int, height: int)

  /** Two bytes, most significant first. */
  function BigEndian(hi: Byte, lo: Byte): (n: nat)
    ensures n < 65536
  {
    256 * hi + lo
  }

  function High(n: nat): Byte
    requires n < 65536
  {
    n / 256
  }

  function Low(n: nat): Byte
    requires n < 65536
  {
    n % 256
  }

  /** A start of frame: C0 to CF without the Huffman table, the reserved code and the arithmetic conditioning. */
  predicate StartsFrame(marker: Byte) {
    0xC0 <= marker <= 0xCF && marker !in {0xC4, 0xC8, 0xCC}
  }

  /** What the walk answers from `index` on. */
  function Walk(data: seq<Byte>, index: nat): Option<Size>
    decreases |data| - index
  {
    if index + 9 >= |data| then None
    else if data[index] != 0xFF then Walk(data, index + 1)
    else if StartsFrame(data[index + 1]) then
      Some(Size(BigEndian(data[index + 7], data[index + 8]), BigEndian(data[index + 5], data[index + 6])))
    else Walk(data, index + 2 + BigEndian(data[index + 2], data[index + 3]))
  }

  /** Ends on any bytes and reads none past the end. */
  method JpegSize(data: seq<Byte>) returns (size: Option<Size>)
    ensures size == Walk(data, 2)
  {
    var index := 2;
    while index + 9 < |data|
      invariant index >= 2 && Walk(data, 2) == Walk(data, index)
      decreases |data| - index
    {
      if data[index] != 0xFF {
        index := index + 1;
        continue;
      }
      var marker := data[index + 1];
      if StartsFrame(marker) {
        return Some(Size(BigEndian(data[index + 7], data[index + 8]), BigEndian(data[index + 5], data[index + 6])));
      }
      if index + 4 > |data| {
        break;
      }
      index := index + 2 + BigEndian(data[index + 2], data[index + 3]);
    }
    return None;
  }

  // -------------------------------------------------------------- the format

  /** A marker segment with a length, as in section B.1.1.4 of ITU-T T.81: the marker, two bytes of length that count
      themselves, and the parameters. `fill` is how many FF fill bytes come before the marker. */
  datatype Segment = Segment(fill: nat, marker: Byte, payload: seq<Byte>)

  /** A segment the encoder may put before the frame. */
  predicate IsSegment(s: Segment) {
    0xC0 <= s.marker <= 0xFE && !StartsFrame(s.marker) && |s.payload| + 2 < 65536
  }

  function Fill(n: nat): (bytes: seq<Byte>)
    ensures |bytes| == n && forall i | 0 <= i < n :: bytes[i] == 0xFF
  {
    seq(n, _ => 0xFF)
  }

  function EncodeSegment(s: Segment): seq<Byte>
    requires IsSegment(s)
  {
    Fill(s.fill) + [0xFF, s.marker, High(|s.payload| + 2), Low(|s.payload| + 2)] + s.payload
  }

  function EncodeSegments(segments: seq<Segment>): (bytes: seq<Byte>)
    requires forall s | s in segments :: IsSegment(s)
  {
    if segments == [] then [] else EncodeSegment(segments[0]) + EncodeSegments(segments[1..])
  }

  /** The frame header of section B.2.2: marker, length, precision, number of lines, samples a line. */
  datatype Frame = Frame(fill: nat, marker: Byte, length: nat, precision: Byte, height: nat, width: nat)

  predicate IsFrame(f: Frame) {
    StartsFrame(f.marker) && f.length < 65536 && f.height < 65536 && f.width < 65536
  }

  function FrameHeader(f: Frame): (bytes: seq<Byte>)
    requires IsFrame(f)
    ensures |bytes| == 9
  {
    [0xFF, f.marker, High(f.length), Low(f.length), f.precision, High(f.height), Low(f.height), High(f.width), Low(f.width)]
  }

  function EncodeFrame(f: Frame): (bytes: seq<Byte>)
    requires IsFrame(f)
    ensures |bytes| == f.fill + 9
  {
    Fill(f.fill) + FrameHeader(f)
  }

  /** A picture up to and past its frame header: start of image, segments, frame header, and whatever follows. */
  function Encode(segments: seq<Segment>, f: Frame, rest: seq<Byte>): seq<Byte>
    requires IsFrame(f) && forall s | s in segments :: IsSegment(s)
  {
    [0xFF, 0xD8] + (EncodeSegments(segments) + (EncodeFrame(f) + rest))
  }

  predicate NoFill(segments: seq<Segment>, f: Frame) {
    f.fill == 0 && forall i | 0 <= i < |segments| :: segments[i].fill == 0
  }

  lemma BytesOf(n: nat)
    requires n < 65536
    ensures BigEndian(High(n), Low(n)) == n
  {
  }

  lemma WalkReadsFrame(before: seq<Byte>, f: Frame, rest: seq<Byte>)
    requires IsFrame(f) && f.fill == 0
    ensures Walk(before + (EncodeFrame(f) + rest), |before|) == if rest == [] then None else Some(Size(f.width, f.height))
  {
    var data := before + (EncodeFrame(f) + rest);
    var at := |before|;
    assert EncodeFrame(f) == FrameHeader(f);
    assert forall i | 0 <= i < 9 :: data[at + i] == FrameHeader(f)[i];
    BytesOf(f.width);
    BytesOf(f.height);
  }

  /** One segment's length field takes the walk to the next marker. */
  lemma WalkFollowsLength(data: seq<Byte>, at: nat, s: Segment)
    requires IsSegment(s) && at + 9 < |data|
    requires data[at..at + 4] == [0xFF, s.marker, High(|s.payload| + 2), Low(|s.payload| + 2)]
    ensures Walk(data, at) == Walk(data, at + 4 + |s.payload|)
  {
    var head := data[at..at + 4];
    assert data[at] == head[0] && data[at + 1] == head[1] && data[at + 2] == head[2] && data[at + 3] == head[3];
    BytesOf(|s.payload| + 2);
  }

  lemma SegmentStarts(s: Segment)
    requires IsSegment(s) && s.fill == 0
    ensures |EncodeSegment(s)| == 4 + |s.payload|
    ensures EncodeSegment(s)[..4] == [0xFF, s.marker, High(|s.payload| + 2), Low(|s.payload| + 2)]
  {
    var head := [0xFF, s.marker, High(|s.payload| + 2), Low(|s.payload| + 2)];
    assert EncodeSegment(s) == head + s.payload;
  }

  lemma Middle(before: seq<Byte>, item: seq<Byte>, after: seq<Byte>, n: nat)
    requires n <= |item|
    ensures before + (item + after) == (before + item) + after
    ensures (before + (item + after))[|before|..|before| + n] == item[..n]
  {
  }

  lemma WalkSkipsSegment(before: seq<Byte>, s: Segment, after: seq<Byte>)
    requires IsSegment(s) && s.fill == 0 && |after| >= 9
    ensures Walk(before + (EncodeSegment(s) + after), |before|) ==
            Walk((before + EncodeSegment(s)) + after, |before + EncodeSegment(s)|)
  {
    hide Walk, IsSegment, EncodeSegment, High, Low;
    SegmentStarts(s);
    WalkSkipsItem(before, EncodeSegment(s), after, s);
  }

  lemma WalkSkipsItem(before: seq<Byte>, item: seq<Byte>, after: seq<Byte>, s: Segment)
    requires IsSegment(s) && |after| >= 9 && |item| == 4 + |s.payload|
    requires item[..4] == [0xFF, s.marker, High(|s.payload| + 2), Low(|s.payload| + 2)]
    ensures Walk(before + (item + after), |before|) == Walk((before + item) + after, |before + item|)
  {
    hide Walk, IsSegment, High, Low;
    Middle(before, item, after, 4);
    WalkFollowsLength(before + (item + after), |before|, s);
  }

  /** Where the walk goes on from a fill byte at `at`: it takes the byte behind it for the marker, and what follows for a
      length. */
  function AfterFill(data: seq<Byte>, at: nat): nat
    requires at + 3 < |data|
  {
    at + 2 + BigEndian(data[at + 2], data[at + 3])
  }

  /** A fill byte at `at`, then another or the marker. */
  predicate FillAt(data: seq<Byte>, at: nat) {
    at + 9 < |data| && data[at] == 0xFF && data[at + 1] == 0xFF && data[at + 2] >= 0xC0
  }

  lemma WalkJumps(data: seq<Byte>, at: nat)
    requires FillAt(data, at)
    ensures Walk(data, at) == Walk(data, AfterFill(data, at)) && AfterFill(data, at) >= at + 0xC002
  {
  }

  lemma FilledMarker(fill: nat, bytes: seq<Byte>, before: seq<Byte>, after: seq<Byte>)
    requires fill > 0 && |bytes| >= 2 && bytes[0] == 0xFF && bytes[1] >= 0xC0 && |bytes| + |after| >= 9
    ensures FillAt(before + ((Fill(fill) + bytes) + after), |before|)
  {
    var item := Fill(fill) + bytes;
    var data, at := before + (item + after), |before|;
    assert data[at] == item[0] && data[at + 1] == item[1] && data[at + 2] == item[2];
  }

  lemma {:induction false} WalkReachesFrame(before: seq<Byte>, segments: seq<Segment>, f: Frame, rest: seq<Byte>)
    requires IsFrame(f) && NoFill(segments, f) && forall s | s in segments :: IsSegment(s)
    ensures Walk(before + (EncodeSegments(segments) + (EncodeFrame(f) + rest)), |before|) ==
            if rest == [] then None else Some(Size(f.width, f.height))
    decreases |segments|
  {
    hide Walk, EncodeFrame, EncodeSegment;
    var tail := EncodeFrame(f) + rest;
    if segments == [] {
      assert EncodeSegments(segments) + tail == tail;
      WalkReadsFrame(before, f, rest);
    } else {
      var s := segments[0];
      var after := EncodeSegments(segments[1..]) + tail;
      assert EncodeSegments(segments) + tail == EncodeSegment(s) + after;
      WalkSkipsSegment(before, s, after);
      WalkReachesFrame(before + EncodeSegment(s), segments[1..], f, rest);
    }
  }

  /** How far behind the start of the segments the first fill byte is. */
  function FirstFill(segments: seq<Segment>, f: Frame): nat
    requires forall s | s in segments :: IsSegment(s)
  {
    if segments == [] || segments[0].fill > 0 then 0
    else |EncodeSegment(segments[0])| + FirstFill(segments[1..], f)
  }

  lemma {:induction false} WalkJumpsAtFill(before: seq<Byte>, segments: seq<Segment>, f: Frame, rest: seq<Byte>)
    requires IsFrame(f) && !NoFill(segments, f) && forall s | s in segments :: IsSegment(s)
    ensures var data := before + (EncodeSegments(segments) + (EncodeFrame(f) + rest));
            var at := |before| + FirstFill(segments, f);
            FillAt(data, at) && Walk(data, |before|) == Walk(data, at)
    decreases |segments|
  {
    hide Walk, FillAt;
    var tail := EncodeFrame(f) + rest;
    var data := before + (EncodeSegments(segments) + tail);
    if segments == [] {
      assert EncodeSegments(segments) + tail == tail;
      FilledMarker(f.fill, FrameHeader(f), before, rest);
    } else {
      var s := segments[0];
      var after := EncodeSegments(segments[1..]) + tail;
      assert EncodeSegments(segments) + tail == EncodeSegment(s) + after;
      if s.fill > 0 {
        FilledSegment(s, before, after);
      } else {
        hide EncodeFrame, EncodeSegment;
        WalkSkipsSegment(before, s, after);
        assert data == (before + EncodeSegment(s)) + after;
        WalkJumpsAtFill(before + EncodeSegment(s), segments[1..], f, rest);
      }
    }
  }

  lemma FilledSegment(s: Segment, before: seq<Byte>, after: seq<Byte>)
    requires IsSegment(s) && s.fill > 0 && |after| >= 9
    ensures FillAt(before + (EncodeSegment(s) + after), |before|)
  {
    var bytes := [0xFF, s.marker, High(|s.payload| + 2), Low(|s.payload| + 2)] + s.payload;
    assert EncodeSegment(s) == Fill(s.fill) + bytes;
    FilledMarker(s.fill, bytes, before, after);
  }

  /** The size read back is promised to be the size written. For any segments before the frame it is, as long as no fill
      byte stands before a marker and something follows the frame header; with nothing following there is no answer. */
  lemma SizeRoundTrip(segments: seq<Segment>, f: Frame, rest: seq<Byte>)
    requires IsFrame(f) && NoFill(segments, f) && forall s | s in segments :: IsSegment(s)
    ensures Walk(Encode(segments, f, rest), 2) == if rest == [] then None else Some(Size(f.width, f.height))
  {
    WalkReachesFrame([0xFF, 0xD8], segments, f, rest);
  }

  /** Fill bytes are part of the format (section B.1.1.2). Without them the size is found exactly when something follows
      the frame header. At the first of them the walk jumps ahead by at least 48 KiB, and the size is found exactly when
      it is found from there. */
  lemma FoundIffNoFill(segments: seq<Segment>, f: Frame, rest: seq<Byte>)
    requires IsFrame(f) && forall s | s in segments :: IsSegment(s)
    ensures var data, size, at := Encode(segments, f, rest), Some(Size(f.width, f.height)), 2 + FirstFill(segments, f);
            && (NoFill(segments, f) ==> (Walk(data, 2) == size <==> rest != []))
            && (!NoFill(segments, f) ==> FillAt(data, at) && AfterFill(data, at) >= at + 0xC002 &&
                                         (Walk(data, 2) == size <==> Walk(data, AfterFill(data, at)) == size))
  {
    hide Walk, FillAt, AfterFill, FirstFill, EncodeSegments, EncodeFrame;
    if NoFill(segments, f) {
      SizeRoundTrip(segments, f, rest);
    } else {
      WalkJumpsAtFill([0xFF, 0xD8], segments, f, rest);
      WalkJumps(Encode(segments, f, rest), 2 + FirstFill(segments, f));
    }
  }

  /** So in a picture of 48 KiB or less a fill byte always hides the frame. */
  lemma ShortPictureFoundIffNoFill(segments: seq<Segment>, f: Frame, rest: seq<Byte>)
    requires IsFrame(f) && forall s | s in segments :: IsSegment(s)
    requires |Encode(segments, f, rest)| <= 0xC000
    ensures Walk(Encode(segments, f, rest), 2) == Some(Size(f.width, f.height)) <==> NoFill(segments, f) && rest != []
  {
    FoundIffNoFill(segments, f, rest);
    hide FillAt, FirstFill, Encode;
  }

  const FILLED := Frame(1, 0xC0, 11, 8, 600, 800)

  /** A picture of 800 by 600 with one fill byte before its frame: no size is found. */
  lemma OneFillByteHidesTheFrame(component: seq<Byte>)
    requires |component| == 4
    ensures IsFrame(FILLED) && Walk(Encode([], FILLED, component), 2) == None
  {
    var data := Encode([], FILLED, component);
    WalkJumpsAtFill([0xFF, 0xD8], [], FILLED, component);
    WalkJumps(data, 2);
  }

  /** The thirteen markers that start a frame. */
  const FRAMES: set<int> := {0xC0, 0xC1, 0xC2, 0xC3, 0xC5, 0xC6, 0xC7, 0xC9, 0xCA, 0xCB, 0xCD, 0xCE, 0xCF}

  /** A frame is found under each of these markers, behind segments of every other marker that has a length. */
  lemma EveryFrameIsFound(segments: seq<Segment>, f: Frame, rest: seq<Byte>)
    requires (f.marker as int) in FRAMES && f.length < 65536 && f.height < 65536 && f.width < 65536 && rest != []
    requires forall s | s in segments ::
               0xC0 <= s.marker <= 0xFE && (s.marker as int) !in FRAMES && |s.payload| + 2 < 65536 && s.fill == 0
    requires f.fill == 0
    ensures IsFrame(f) && (forall s | s in segments :: IsSegment(s))
    ensures Walk(Encode(segments, f, rest), 2) == Some(Size(f.width, f.height))
  {
    assert NoFill(segments, f) by {
      forall i | 0 <= i < |segments| ensures segments[i].fill == 0 {
        assert segments[i] in segments;
      }
    }
    SizeRoundTrip(segments, f, rest);
  }

  /** Bytes that are not FF are passed over one at a time, wherever the walk meets them. */
  lemma {:induction false} JunkIsPassed(data: seq<Byte>, at: nat, to: nat)
    requires at <= to <= |data| && forall i | at <= i < to :: data[i] != 0xFF
    ensures Walk(data, at) == Walk(data, to)
    decreases |data| - at
  {
    if at < to {
      JunkIsPassed(data, at + 1, to);
    }
  }

  /** So junk behind the start of image hides nothing. */
  lemma FoundBehindJunk(junk: seq<Byte>, segments: seq<Segment>, f: Frame, rest: seq<Byte>)
    requires IsFrame(f) && NoFill(segments, f) && rest != [] && forall s | s in segments :: IsSegment(s)
    requires forall i | 0 <= i < |junk| :: junk[i] != 0xFF
    ensures Walk([0xFF, 0xD8] + (junk + (EncodeSegments(segments) + (EncodeFrame(f) + rest))), 2) ==
            Some(Size(f.width, f.height))
  {
    hide Walk, EncodeSegments, EncodeFrame, IsFrame, NoFill, IsSegment;
    var start, picture := [0xFF, 0xD8], EncodeSegments(segments) + (EncodeFrame(f) + rest);
    var data := start + (junk + picture);
    assert data == (start + junk) + picture;
    assert forall i | 0 <= i < |junk| :: data[2 + i] == junk[i];
    forall i | 2 <= i < 2 + |junk| ensures data[i] != 0xFF {
      assert data[i] == junk[i - 2];
    }
    JunkIsPassed(data, 2, 2 + |junk|);
    WalkReachesFrame(start + junk, segments, f, rest);
  }
}
