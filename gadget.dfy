/**
 * Record framing of Gadget snapshot files.
 *
 * A Gadget file is a sequence of Fortran unformatted records: a 4-byte int
 * holding the payload length, the payload, and the same int again. The header
 * is one such record of sizeof(header) = 256 bytes. A file written on a machine
 * of the other byte order is recognised by its header marker: when the marker
 * is not 256 but its byte swap is, every header field is byte-swapped and the
 * reader remembers to swap the markers of all later records.
 *
 * Ints are 4 bytes, two's complement, stored least significant byte first (the
 * byte order of the machine the reader runs on). The header is held as its 256
 * raw bytes in memory order, laid out as the standard Gadget-2 header:
 *   npart[6] u32 @0, mass[6] f64 @24, time f64 @72, redshift f64 @80,
 *   flag_sfr i32 @88, flag_feedback i32 @92, npartTotal[6] u32 @96,
 *   flag_cooling i32 @120, num_files i32 @124, BoxSize, Omega0, OmegaLambda,
 *   HubbleParam f64 @128..160, flag_stellarage i32 @160, flag_metals i32 @164,
 *   npartTotalHighWord[6] u32 @168, flag_entropy_instead_u i32 @192, fill @196.
 * Floating-point fields are kept as their raw 8 bytes.
 */
module Gadget {
  import opened Wrappers

  newtype byte = b: int | 0 <= b < 256

  /** Why a reader or writer operation throws. */
  datatype Error =
    | NotOpen          // the stream is not open
    | BufferTooSmall   // the caller's buffer cannot hold the record
    | BadLength        // a negative record length for an empty buffer (std::vector rejects it)
    | MarkerMismatch   // the leading and trailing markers differ
    | BadHeaderSize    // neither the header marker nor its byte swap is sizeof(header)
    | Truncated        // the stream ends inside a record

  //------------------------------------------------------------------
  // 4-byte ints
  //------------------------------------------------------------------

  const TwoTo32: int := 0x1_0000_0000
  const TwoTo31: int := 0x8000_0000

  /** The unsigned value of four bytes, least significant first. */
  function U32(w: seq<byte>): (v: int)
    requires |w| == 4
    ensures 0 <= v < TwoTo32
  {
    w[0] as int + 256 * (w[1] as int + 256 * (w[2] as int + 256 * (w[3] as int)))
  }

  /** The four bytes of an unsigned value, least significant first. */
  function U32Bytes(v: int): (w: seq<byte>)
    requires 0 <= v < TwoTo32
    ensures |w| == 4
  {
    var v1 := v / 256;
    var v2 := v1 / 256;
    [(v % 256) as byte, (v1 % 256) as byte, (v2 % 256) as byte, (v2 / 256) as byte]
  }

  lemma U32OfBytes(v: int)
    requires 0 <= v < TwoTo32
    ensures U32(U32Bytes(v)) == v
  {
    var v1 := v / 256;
    var v2 := v1 / 256;
    assert v == v % 256 + 256 * v1;
    assert v1 == v1 % 256 + 256 * v2;
    assert v2 == v2 % 256 + 256 * (v2 / 256);
  }

  lemma BytesOfU32(w: seq<byte>)
    requires |w| == 4
    ensures U32Bytes(U32(w)) == w
  {
    var v := U32(w);
    var t1 := w[1] as int + 256 * (w[2] as int + 256 * (w[3] as int));
    var t2 := w[2] as int + 256 * (w[3] as int);
    assert v / 256 == t1 && v % 256 == w[0] as int;
    assert t1 / 256 == t2 && t1 % 256 == w[1] as int;
    assert t2 / 256 == w[3] as int && t2 % 256 == w[2] as int;
  }

  /** The C int held in four bytes (two's complement). */
  function I32(w: seq<byte>): (v: int)
    requires |w| == 4
    ensures -TwoTo31 <= v < TwoTo31
  {
    if U32(w) >= TwoTo31 then U32(w) - TwoTo32 else U32(w)
  }

  /** The four bytes of a C int. */
  function I32Bytes(v: int): (w: seq<byte>)
    requires -TwoTo31 <= v < TwoTo31
    ensures |w| == 4
  {
    U32Bytes(if v < 0 then v + TwoTo32 else v)
  }

  /** Writing an int and reading it back gives the int. */
  lemma I32OfBytes(v: int)
    requires -TwoTo31 <= v < TwoTo31
    ensures I32(I32Bytes(v)) == v
  {
    U32OfBytes(if v < 0 then v + TwoTo32 else v);
  }

  /** Two words are the same int exactly when they are the same bytes. */
  lemma I32Injective(a: seq<byte>, b: seq<byte>)
    requires |a| == 4 && |b| == 4
    ensures I32(a) == I32(b) <==> a == b
  {
    if I32(a) == I32(b) {
      BytesOfU32(a);
      BytesOfU32(b);
    }
  }

  /** swap_endian: the bytes of a value in the other order. */
  function SwapBytes(w: seq<byte>): (r: seq<byte>)
    ensures |r| == |w| && forall i :: 0 <= i < |w| ==> r[i] == w[|w| - 1 - i]
  {
    seq(|w|, i requires 0 <= i < |w| => w[|w| - 1 - i])
  }

  lemma SwapTwice(w: seq<byte>)
    ensures SwapBytes(SwapBytes(w)) == w
  {
  }

  /** A record marker as the reader sees it, swapped when the file has the other byte order. */
  function Marker(w: seq<byte>, swap: bool): int
    requires |w| == 4
  {
    if swap then I32(SwapBytes(w)) else I32(w)
  }

  //------------------------------------------------------------------
  // Records
  //------------------------------------------------------------------

  /** A record as write_section emits it. */
  function Record(payload: seq<byte>): (r: seq<byte>)
    requires |payload| < TwoTo31
    ensures |r| == |payload| + 8
  {
    I32Bytes(|payload|) + payload + I32Bytes(|payload|)
  }

  /** What a successful read leaves: the value and the position after the record. */
  datatype Read<T> = Read(value: T, next: nat)

  /** The value of a successful read, or its error. */
  function Value<T>(r: Result<Read<T>, Error>): (v: Result<T, Error>)
    ensures v.Ok? <==> r.Ok?
    ensures v.Ok? ==> v.value == r.value.value
    ensures v.Err? ==> v.error == r.error
  {
    match r
    case Ok(read) => Ok(read.value)
    case Err(e) => Err(e)
  }

  /** The bytes of data from pos, if there are count of them. */
  function Take(data: seq<byte>, pos: nat, count: nat): Option<seq<byte>>
  {
    if pos + count <= |data| then Some(data[pos..pos + count]) else None
  }

  /**
   * read_section on a stream holding data at position pos: the new buffer and the
   * position after the record. A non-empty buffer keeps its size and only its
   * first `length` bytes are overwritten; an empty one becomes exactly the payload.
   */
  function ReadSectionOf(open: bool, data: seq<byte>, pos: nat, swap: bool, buffer: seq<byte>)
    : Result<Read<seq<byte>>, Error>
  {
    if !open then Err(NotOpen)
    else if pos + 4 > |data| then Err(Truncated)
    else
      var length := Marker(data[pos..pos + 4], swap);
      if |buffer| > 0 && (length < 0 || |buffer| < length) then Err(BufferTooSmall)
      else if length < 0 then Err(BadLength)
      else ReadPayloadOf(data, pos + 4, length, swap, buffer)
  }

  /** The rest of read_section once the leading marker gave a length the buffer can take. */
  function ReadPayloadOf(data: seq<byte>, pos: nat, length: nat, swap: bool, buffer: seq<byte>)
    : Result<Read<seq<byte>>, Error>
    requires |buffer| == 0 || length <= |buffer|
  {
    if pos + length > |data| then Err(Truncated)
    else
      var payload := data[pos..pos + length];
      var filled := if |buffer| > 0 then payload + buffer[length..] else payload;
      if pos + length + 4 > |data| then Err(Truncated)
      else if Marker(data[pos + length..pos + length + 4], swap) != length then Err(MarkerMismatch)
      else Ok(Read(filled, pos + length + 4))
  }

  /** The size rules of read_section: a fresh buffer is the payload, a given one keeps its size and tail. */
  lemma ReadSectionBuffer(open: bool, data: seq<byte>, pos: nat, swap: bool, buffer: seq<byte>)
    requires ReadSectionOf(open, data, pos, swap, buffer).Ok?
    ensures var r := ReadSectionOf(open, data, pos, swap, buffer).value;
      var length := Marker(data[pos..pos + 4], swap);
      0 <= length && r.next == pos + 8 + length &&
      r.value[..length] == data[pos + 4..pos + 4 + length] &&
      (|buffer| == 0 ==> |r.value| == length) &&
      (|buffer| > 0 ==> |r.value| == |buffer| && r.value[length..] == buffer[length..])
  {
  }

  /** read_section fails when the two markers, as the reader sees them, differ. */
  lemma ReadSectionChecksMarkers(open: bool, data: seq<byte>, pos: nat, swap: bool, buffer: seq<byte>)
    requires open && pos + 4 <= |data|
    requires var length := Marker(data[pos..pos + 4], swap);
      0 <= length && pos + 8 + length <= |data| && (|buffer| == 0 || length <= |buffer|) &&
      Marker(data[pos + 4 + length..pos + 8 + length], swap) != length
    ensures ReadSectionOf(open, data, pos, swap, buffer) == Err(MarkerMismatch)
  {
  }

  /** A payload followed by a trailing marker that matches its length reads as that payload. */
  lemma ReadFramed(data: seq<byte>, pos: nat, swap: bool, payload: seq<byte>)
    requires pos + |payload| + 4 <= |data| && data[pos..pos + |payload|] == payload
    requires Marker(data[pos + |payload|..pos + |payload| + 4], swap) == |payload|
    ensures ReadPayloadOf(data, pos, |payload|, swap, []) == Ok(Read(payload, pos + |payload| + 4))
  {
  }

  /** Reading back a record written by write_section, into an empty buffer, gives the payload. */
  lemma SectionRoundTrip(before: seq<byte>, payload: seq<byte>, after: seq<byte>)
    requires |payload| < TwoTo31
    ensures ReadSectionOf(true, before + Record(payload) + after, |before|, false, []) ==
      Ok(Read(payload, |before| + 8 + |payload|))
  {
    var data := before + Record(payload) + after;
    var p := |before|;
    var n := |payload|;
    I32OfBytes(n);
    assert Marker(data[p..p + 4], false) == n by {
      assert data[p..p + 4] == I32Bytes(n);
    }
    assert data[p + 4..p + 4 + n] == payload && data[p + 4 + n..p + 8 + n] == I32Bytes(n);
    ReadFramed(data, p + 4, false, payload);
  }

  /** A record written in the other byte order reads back when the reader swaps. */
  lemma SwappedSectionRoundTrip(before: seq<byte>, payload: seq<byte>, after: seq<byte>)
    requires |payload| < TwoTo31
    ensures var marker := SwapBytes(I32Bytes(|payload|));
      ReadSectionOf(true, before + marker + payload + marker + after, |before|, true, []) ==
        Ok(Read(payload, |before| + 8 + |payload|))
  {
    var marker := SwapBytes(I32Bytes(|payload|));
    var data := before + marker + payload + marker + after;
    var p := |before|;
    var n := |payload|;
    I32OfBytes(n);
    SwapTwice(I32Bytes(n));
    assert Marker(data[p..p + 4], true) == n by {
      assert data[p..p + 4] == marker;
    }
    assert data[p + 4..p + 4 + n] == payload && data[p + 4 + n..p + 8 + n] == marker;
    ReadFramed(data, p + 4, true, payload);
  }

  //------------------------------------------------------------------
  // The header
  //------------------------------------------------------------------

  /** sizeof(header). */
  const HeaderSize: int := 256

  /**
   * The width of the header field holding byte i: 4 for ints, 8 for doubles,
   * 1 (nothing to swap) for the fill.
   */
  function WidthAt(i: int): (w: int)
    ensures w == 1 || w == 4 || w == 8
  {
    if i < 24 then 4
    else if i < 88 then 8
    else if i < 128 then 4
    else if i < 160 then 8
    else if i < 196 then 4
    else 1
  }

  /** The byte that swapping the fields moves to position i. */
  function Mirror(i: int): (j: int)
    requires 0 <= i < HeaderSize
    ensures 0 <= j < HeaderSize
  {
    if WidthAt(i) == 4 then 4 * (i / 4) + 3 - i % 4
    else if WidthAt(i) == 8 then 8 * (i / 8) + 7 - i % 8
    else i
  }

  lemma MirrorTwice(i: int)
    requires 0 <= i < HeaderSize
    ensures WidthAt(Mirror(i)) == WidthAt(i) && Mirror(Mirror(i)) == i
  {
    if WidthAt(i) == 4 {
      var q, r := i / 4, i % 4;
      var j := 4 * q + 3 - r;
      assert j / 4 == q && j % 4 == 3 - r;
    } else if WidthAt(i) == 8 {
      var q, r := i / 8, i % 8;
      var j := 8 * q + 7 - r;
      assert j / 8 == q && j % 8 == 7 - r;
    }
  }

  /** The header with every field byte-swapped, as read_header does for a file of the other byte order. */
  function SwapFields(h: seq<byte>): (r: seq<byte>)
    requires |h| == HeaderSize
    ensures |r| == HeaderSize && forall i :: 0 <= i < HeaderSize ==> r[i] == h[Mirror(i)]
  {
    seq(HeaderSize, i requires 0 <= i < HeaderSize => h[Mirror(i)])
  }

  lemma SwapFieldsTwice(h: seq<byte>)
    requires |h| == HeaderSize
    ensures SwapFields(SwapFields(h)) == h
  {
    forall i | 0 <= i < HeaderSize
      ensures SwapFields(SwapFields(h))[i] == h[i]
    {
      MirrorTwice(i);
    }
  }

  /** header.num_files. */
  function NumFiles(h: seq<byte>): int
    requires |h| == HeaderSize
  {
    I32(h[124..128])
  }

  /** header.npartTotal[1]. */
  function NpartTotal1(h: seq<byte>): int
    requires |h| == HeaderSize
  {
    U32(h[100..104])
  }

  /** header.npartTotalHighWord[1]. */
  function NpartTotalHighWord1(h: seq<byte>): int
    requires |h| == HeaderSize
  {
    U32(h[172..176])
  }

  /** header.npart[1]. */
  function Npart1(h: seq<byte>): int
    requires |h| == HeaderSize
  {
    U32(h[4..8])
  }

  /** The total particle count as print_header_info recombines it: (high << 32) + low. */
  function TotalParticles(h: seq<byte>): int
    requires |h| == HeaderSize
  {
    NpartTotalHighWord1(h) * TwoTo32 + NpartTotal1(h)
  }

  /** What read_header leaves: the header, whether it was swapped, and the position after it. */
  datatype HeaderRead = HeaderRead(header: seq<byte>, swapped: bool, next: nat)

  /**
   * read_header on a stream holding data at position pos, as intended: the header
   * record is read as sizeof(header) bytes between its two markers. The source
   * reads SourceHeaderReadLength bytes instead, which differs on a file of the
   * other byte order (SwappedHeaderOverrun).
   */
  function ReadHeaderOf(open: bool, data: seq<byte>, pos: nat): Result<HeaderRead, Error>
  {
    if !open then Err(NotOpen)
    else if pos + 8 + HeaderSize > |data| then Err(Truncated)
    else
      var start := data[pos..pos + 4];
      var body := data[pos + 4..pos + 4 + HeaderSize];
      var end := data[pos + 4 + HeaderSize..pos + 8 + HeaderSize];
      if I32(start) != I32(end) then Err(MarkerMismatch)
      else if I32(start) == HeaderSize then Ok(HeaderRead(body, false, pos + 8 + HeaderSize))
      else if I32(SwapBytes(start)) == HeaderSize then Ok(HeaderRead(SwapFields(body), true, pos + 8 + HeaderSize))
      else Err(BadHeaderSize)
  }

  /**
   * As written, read_header reads bytes_start bytes into the header, bytes_start
   * being the start marker before any byte swap: the length of that read.
   */
  function SourceHeaderReadLength(data: seq<byte>, pos: nat): int
    requires pos + 4 <= |data|
  {
    I32(data[pos..pos + 4])
  }

  /**
   * On an open stream long enough for a header record, read_header succeeds exactly
   * when the two markers are the same bytes and either they or their byte swap
   * read as sizeof(header); it swaps the fields exactly when the marker itself
   * does not read as sizeof(header).
   */
  lemma ReadHeaderOutcome(data: seq<byte>, pos: nat)
    requires pos + 8 + HeaderSize <= |data|
    ensures var start := data[pos..pos + 4];
            var end := data[pos + 4 + HeaderSize..pos + 8 + HeaderSize];
            var r := ReadHeaderOf(true, data, pos);
            (r.Ok? <==> start == end && (I32(start) == HeaderSize || I32(SwapBytes(start)) == HeaderSize)) &&
            (start != end ==> r == Err(MarkerMismatch)) &&
            (r.Ok? ==> r.value.swapped == (I32(start) != HeaderSize) && r.value.next == pos + 8 + HeaderSize) &&
            (r.Ok? ==> (r.value.swapped <==> SourceHeaderReadLength(data, pos) != HeaderSize))
  {
    I32Injective(data[pos..pos + 4], data[pos + 4 + HeaderSize..pos + 8 + HeaderSize]);
  }

  /** The header record write_header emits. */
  function HeaderRecord(h: seq<byte>): (r: seq<byte>)
    requires |h| == HeaderSize
    ensures |r| == HeaderSize + 8
  {
    I32Bytes(HeaderSize) + h + I32Bytes(HeaderSize)
  }

  /** The header record is framed exactly like a section holding the header. */
  lemma HeaderRecordIsRecord(h: seq<byte>)
    requires |h| == HeaderSize
    ensures HeaderRecord(h) == Record(h)
  {
  }

  /** A header written on this machine reads back unchanged, without swapping. */
  lemma HeaderRoundTrip(before: seq<byte>, h: seq<byte>, after: seq<byte>)
    requires |h| == HeaderSize
    ensures ReadHeaderOf(true, before + HeaderRecord(h) + after, |before|) ==
      Ok(HeaderRead(h, false, |before| + 8 + HeaderSize))
  {
    var data := before + HeaderRecord(h) + after;
    var p := |before|;
    assert data[p..p + 4] == I32Bytes(HeaderSize);
    assert data[p + 4..p + 4 + HeaderSize] == h;
    assert data[p + 4 + HeaderSize..p + 8 + HeaderSize] == I32Bytes(HeaderSize);
    I32OfBytes(HeaderSize);
  }

  /**
   * A header written on a machine of the other byte order (every field and both
   * markers swapped) reads back as the original header, and the reader swaps.
   */
  lemma SwappedHeaderRoundTrip(before: seq<byte>, h: seq<byte>, after: seq<byte>)
    requires |h| == HeaderSize
    ensures var marker := SwapBytes(I32Bytes(HeaderSize));
      ReadHeaderOf(true, before + marker + SwapFields(h) + marker + after, |before|) ==
        Ok(HeaderRead(h, true, |before| + 8 + HeaderSize))
  {
    var marker := SwapBytes(I32Bytes(HeaderSize));
    var data := before + marker + SwapFields(h) + marker + after;
    var p := |before|;
    assert data[p..p + 4] == marker;
    assert data[p + 4..p + 4 + HeaderSize] == SwapFields(h);
    assert data[p + 4 + HeaderSize..p + 8 + HeaderSize] == marker;
    I32OfBytes(HeaderSize);
    SwapTwice(I32Bytes(HeaderSize));
    SwapFieldsTwice(h);
    SwappedHeaderMarker();
  }

  /**
   * As written, a header record of the other byte order makes read_header read
   * 65536 bytes into the 256-byte header, and read bytes_end past the record's own
   * end marker: the swap branch never sees the record's header.
   */
  lemma SwappedHeaderOverrun(before: seq<byte>, h: seq<byte>, after: seq<byte>)
    requires |h| == HeaderSize
    ensures var marker := SwapBytes(I32Bytes(HeaderSize));
      var data := before + marker + SwapFields(h) + marker + after;
      SourceHeaderReadLength(data, |before|) == 65536 &&
      |before| + 4 + SourceHeaderReadLength(data, |before|) > |before| + 8 + HeaderSize
  {
    var marker := SwapBytes(I32Bytes(HeaderSize));
    var data := before + marker + SwapFields(h) + marker + after;
    assert data[|before|..|before| + 4] == marker;
    SwappedHeaderMarker();
  }

  /** A header record written on this machine makes the source read exactly sizeof(header) bytes. */
  lemma NativeHeaderReadLength(before: seq<byte>, h: seq<byte>, after: seq<byte>)
    requires |h| == HeaderSize
    ensures SourceHeaderReadLength(before + HeaderRecord(h) + after, |before|) == HeaderSize
  {
    var data := before + HeaderRecord(h) + after;
    assert data[|before|..|before| + 4] == I32Bytes(HeaderSize);
    I32OfBytes(HeaderSize);
  }

  /** The header marker seen in the other byte order is 65536, not sizeof(header). */
  lemma SwappedHeaderMarker()
    ensures I32(SwapBytes(I32Bytes(HeaderSize))) == 65536
  {
    var w := I32Bytes(HeaderSize);
    assert w == U32Bytes(256);
    assert w[0] == 0 && w[1] == 1 && w[2] == 0 && w[3] == 0;
    var m := SwapBytes(w);
    assert m[0] == 0 && m[1] == 0 && m[2] == 1 && m[3] == 0;
  }

  /** The header with the bytes at offset replaced by word. */
  function Put(h: seq<byte>, offset: nat, word: seq<byte>): (r: seq<byte>)
    requires offset + |word| <= |h|
    ensures |r| == |h|
  {
    h[..offset] + word + h[offset + |word|..]
  }

  /** The replaced bytes hold the word. */
  lemma PutAt(h: seq<byte>, offset: nat, word: seq<byte>)
    requires offset + |word| <= |h|
    ensures Put(h, offset, word)[offset..offset + |word|] == word
  {
  }

  /** A slice outside the replaced bytes is unchanged. */
  lemma PutKeeps(h: seq<byte>, offset: nat, word: seq<byte>, a: nat, b: nat)
    requires offset + |word| <= |h| && a <= b <= |h|
    requires b <= offset || offset + |word| <= a
    ensures Put(h, offset, word)[a..b] == h[a..b]
  {
    var r := Put(h, offset, word);
    forall i | a <= i < b
      ensures r[i] == h[i]
    {
      if i < offset {
        assert r[i] == h[..offset][i];
      } else {
        assert r[i] == h[offset + |word|..][i - offset - |word|];
      }
    }
  }

  /** The raw bytes of the double fields write_header sets. */
  datatype Doubles = Doubles(mass1: seq<byte>, time: seq<byte>, redshift: seq<byte>, boxSize: seq<byte>,
                             omega0: seq<byte>, omegaLambda: seq<byte>, hubbleParam: seq<byte>)

  predicate DoublesWellFormed(d: Doubles) {
    |d.mass1| == 8 && |d.time| == 8 && |d.redshift| == 8 && |d.boxSize| == 8 &&
    |d.omega0| == 8 && |d.omegaLambda| == 8 && |d.hubbleParam| == 8
  }

  //------------------------------------------------------------------
  // Streams
  //------------------------------------------------------------------

  /** An input file stream: its bytes, its read position and whether it is open. */
  class InStream {
    var bytes: seq<byte>
    var pos: nat
    var isOpen: bool

    ghost predicate Valid()
      reads this
    {
      pos <= |bytes|
    }

    constructor (data: seq<byte>, open: bool)
      ensures Valid() && bytes == data && pos == 0 && isOpen == open
    {
      bytes := data;
      pos := 0;
      isOpen := open;
    }

    /** fp.read of count bytes; a read past the end stops at the end and fails. */
    method Read(count: nat) returns (r: Option<seq<byte>>)
      requires Valid()
      modifies this
      ensures Valid() && bytes == old(bytes) && isOpen == old(isOpen)
      ensures r == Take(bytes, old(pos), count)
      ensures pos == if r.Some? then old(pos) + count else |bytes|
    {
      if pos + count <= |bytes| {
        r := Some(bytes[pos..pos + count]);
        pos := pos + count;
      } else {
        r := None;
        pos := |bytes|;
      }
    }
  }

  /** An output file stream: the bytes written so far and whether it is open. */
  class OutStream {
    var bytes: seq<byte>
    var isOpen: bool

    constructor (open: bool)
      ensures bytes == [] && isOpen == open
    {
      bytes := [];
      isOpen := open;
    }

    /** fp.write. */
    method Write(data: seq<byte>)
      modifies this
      ensures bytes == old(bytes) + data && isOpen == old(isOpen)
    {
      bytes := bytes + data;
    }
  }

  //------------------------------------------------------------------
  // GadgetReader
  //------------------------------------------------------------------

  class GadgetReader {
    var endianSwap: bool
    var headerIsRead: bool
    var header: seq<byte>

    /** A fresh reader; the header member starts with whatever bytes it is given. */
    constructor (initial: seq<byte>)
      requires |initial| == HeaderSize
      ensures !endianSwap && !headerIsRead && header == initial
    {
      endianSwap := false;
      headerIsRead := false;
      header := initial;
    }

    /** set_endian_swap. */
    method SetEndianSwap()
      modifies this
      ensures endianSwap && headerIsRead == old(headerIsRead) && header == old(header)
    {
      endianSwap := true;
    }

    /** read_section: the buffer after the read, or the reason it throws. */
    method ReadSection(fp: InStream, buffer: seq<byte>) returns (r: Result<seq<byte>, Error>)
      requires fp.Valid()
      modifies fp
      ensures fp.Valid() && fp.bytes == old(fp.bytes) && fp.isOpen == old(fp.isOpen)
      ensures var spec := ReadSectionOf(old(fp.isOpen), old(fp.bytes), old(fp.pos), endianSwap, buffer);
        r == Value(spec) && (r.Ok? ==> fp.pos == spec.value.next)
    {
      if !fp.isOpen {
        return Err(NotOpen);
      }
      ghost var data, p := fp.bytes, fp.pos;
      var start := fp.Read(4);
      if start.None? {
        return Err(Truncated);
      }
      assert start.value == data[p..p + 4];
      var bytesStart := Marker(start.value, endianSwap);
      if |buffer| > 0 {
        if bytesStart < 0 || |buffer| < bytesStart {
          return Err(BufferTooSmall);
        }
      } else {
        if bytesStart < 0 {
          return Err(BadLength);
        }
      }
      r := ReadPayload(fp, bytesStart, buffer);
    }

    /** read_section after the leading marker: the payload and the trailing marker. */
    method ReadPayload(fp: InStream, bytesStart: nat, buffer: seq<byte>) returns (r: Result<seq<byte>, Error>)
      requires fp.Valid() && (|buffer| == 0 || bytesStart <= |buffer|)
      modifies fp
      ensures fp.Valid() && fp.bytes == old(fp.bytes) && fp.isOpen == old(fp.isOpen)
      ensures var spec := ReadPayloadOf(old(fp.bytes), old(fp.pos), bytesStart, endianSwap, buffer);
        r == Value(spec) && (r.Ok? ==> fp.pos == spec.value.next)
    {
      ghost var data, p := fp.bytes, fp.pos;
      var payload := fp.Read(bytesStart);
      if payload.None? {
        return Err(Truncated);
      }
      assert payload.value == data[p..p + bytesStart] && fp.pos == p + bytesStart;
      var buf := if |buffer| > 0 then payload.value + buffer[bytesStart..] else payload.value;
      var end := fp.Read(4);
      if end.None? {
        return Err(Truncated);
      }
      assert end.value == data[p + bytesStart..p + bytesStart + 4];
      var bytesEnd := Marker(end.value, endianSwap);
      if bytesStart != bytesEnd {
        return Err(MarkerMismatch);
      }
      return Ok(buf);
    }

    /**
     * read_header: reads the header record, swaps the header when only the
     * swapped marker is sizeof(header), and records that the header is read.
     */
    method ReadHeader(fp: InStream) returns (r: Result<(), Error>)
      requires fp.Valid() && |header| == HeaderSize
      modifies this, fp
      ensures fp.Valid() && fp.bytes == old(fp.bytes) && fp.isOpen == old(fp.isOpen) && |header| == HeaderSize
      ensures var spec := ReadHeaderOf(old(fp.isOpen), old(fp.bytes), old(fp.pos));
        (r.Ok? <==> spec.Ok?) &&
        (r.Ok? ==> header == spec.value.header && endianSwap == (old(endianSwap) || spec.value.swapped) &&
                   headerIsRead && fp.pos == spec.value.next) &&
        (r.Err? ==> r.error == spec.error && endianSwap == old(endianSwap) && headerIsRead == old(headerIsRead))
    {
      if !fp.isOpen {
        return Err(NotOpen);
      }
      var start := fp.Read(4);
      if start.None? {
        return Err(Truncated);
      }
      var body := fp.Read(HeaderSize);
      if body.None? {
        return Err(Truncated);
      }
      header := body.value;
      var end := fp.Read(4);
      if end.None? {
        return Err(Truncated);
      }
      var bytesStart, bytesEnd := I32(start.value), I32(end.value);
      if bytesStart != bytesEnd {
        return Err(MarkerMismatch);
      }
      if bytesStart != HeaderSize {
        bytesStart := I32(SwapBytes(start.value));
        bytesEnd := I32(SwapBytes(end.value));
        if bytesStart != HeaderSize {
          return Err(BadHeaderSize);
        }
        header := SwapFields(header);
        endianSwap := true;
      }
      headerIsRead := true;
      return Ok(());
    }

    /** get_num_files: reads the header from fp only if it has not been read yet. */
    method GetNumFiles(fp: InStream) returns (r: Result<int, Error>)
      requires fp.Valid() && |header| == HeaderSize
      modifies this, fp
      ensures fp.Valid() && fp.bytes == old(fp.bytes) && fp.isOpen == old(fp.isOpen) && |header| == HeaderSize
      ensures old(headerIsRead) ==> (r == Ok(NumFiles(header)) && header == old(header) &&
        endianSwap == old(endianSwap) && headerIsRead && fp.pos == old(fp.pos))
      ensures !old(headerIsRead) ==>
        var spec := ReadHeaderOf(old(fp.isOpen), old(fp.bytes), old(fp.pos));
        (r.Ok? <==> spec.Ok?) &&
        (r.Ok? ==> r.value == NumFiles(spec.value.header) && header == spec.value.header &&
                   endianSwap == (old(endianSwap) || spec.value.swapped) &&
                   headerIsRead && fp.pos == spec.value.next) &&
        (r.Err? ==> r.error == spec.error && endianSwap == old(endianSwap) && !headerIsRead)
    {
      if !headerIsRead {
        if !fp.isOpen {
          return Err(NotOpen);
        }
        var read := ReadHeader(fp);
        if read.Err? {
          return Err(read.error);
        }
      }
      return Ok(NumFiles(header));
    }
  }

  //------------------------------------------------------------------
  // GadgetWriter
  //------------------------------------------------------------------

  /** The header after write_header set its mass, time, redshift, flags and cosmology fields. */
  function OtherFields(h: seq<byte>, d: Doubles): (r: seq<byte>)
    requires |h| == HeaderSize && DoublesWellFormed(d)
    ensures |r| == HeaderSize
  {
    var zero := I32Bytes(0);
    var h1 := Put(Put(Put(h, 32, d.mass1), 72, d.time), 80, d.redshift);
    var h2 := Put(Put(Put(h1, 88, zero), 92, zero), 120, zero);
    var h3 := Put(Put(Put(h2, 160, zero), 164, zero), 192, zero);
    var h4 := Put(Put(h3, 128, d.boxSize), 136, d.omega0);
    Put(Put(h4, 144, d.omegaLambda), 152, d.hubbleParam)
  }

  /** The header after write_header set its fields. */
  function WrittenHeader(h: seq<byte>, numPart: int, totNumPart: int, numFiles: int, d: Doubles): (r: seq<byte>)
    requires |h| == HeaderSize && DoublesWellFormed(d)
    requires 0 <= numPart < TwoTo32 && 0 <= totNumPart < TwoTo32 * TwoTo32 && -TwoTo31 <= numFiles < TwoTo31
    ensures |r| == HeaderSize
  {
    var h5 := OtherFields(h, d);
    // The counts last: every write is to its own field, so the order does not matter.
    var h6 := Put(h5, 124, I32Bytes(numFiles));
    var h7 := Put(h6, 4, U32Bytes(numPart));
    var h8 := Put(h7, 100, U32Bytes(totNumPart % TwoTo32));
    Put(h8, 172, U32Bytes(totNumPart / TwoTo32))
  }

  /**
   * The counts write_header stores: npart[1], num_files, and the total split into
   * two 32-bit words that recombine to it.
   */
  lemma WrittenCounts(h: seq<byte>, numPart: int, totNumPart: int, numFiles: int, d: Doubles)
    requires |h| == HeaderSize && DoublesWellFormed(d)
    requires 0 <= numPart < TwoTo32 && 0 <= totNumPart < TwoTo32 * TwoTo32 && -TwoTo31 <= numFiles < TwoTo31
    ensures var r := WrittenHeader(h, numPart, totNumPart, numFiles, d);
      Npart1(r) == numPart && NumFiles(r) == numFiles &&
      NpartTotal1(r) == totNumPart % TwoTo32 && NpartTotalHighWord1(r) == totNumPart / TwoTo32 &&
      TotalParticles(r) == totNumPart
  {
    var r := WrittenHeader(h, numPart, totNumPart, numFiles, d);
    var low, high := U32Bytes(totNumPart % TwoTo32), U32Bytes(totNumPart / TwoTo32);
    var h5 := OtherFields(h, d);
    var h6 := Put(h5, 124, I32Bytes(numFiles));
    var h7 := Put(h6, 4, U32Bytes(numPart));
    var h8 := Put(h7, 100, low);
    assert r == Put(h8, 172, high);
    PutAt(h8, 172, high);
    PutAt(h7, 100, low);
    PutKeeps(h8, 172, high, 100, 104);
    PutAt(h6, 4, U32Bytes(numPart));
    PutKeeps(h7, 100, low, 4, 8);
    PutKeeps(h8, 172, high, 4, 8);
    PutAt(h5, 124, I32Bytes(numFiles));
    PutKeeps(h6, 4, U32Bytes(numPart), 124, 128);
    PutKeeps(h7, 100, low, 124, 128);
    PutKeeps(h8, 172, high, 124, 128);
    U32OfBytes(numPart);
    U32OfBytes(totNumPart % TwoTo32);
    U32OfBytes(totNumPart / TwoTo32);
    I32OfBytes(numFiles);
  }

  class GadgetWriter {
    var header: seq<byte>

    /** A fresh writer; the header member starts with whatever bytes it is given. */
    constructor (initial: seq<byte>)
      requires |initial| == HeaderSize
      ensures header == initial
    {
      header := initial;
    }

    /** write_section: the marker `bytes`, the first `bytes` bytes of the buffer, the marker again. */
    method WriteSection(fp: OutStream, buffer: seq<byte>, bytes: int) returns (r: Result<(), Error>)
      requires -TwoTo31 <= bytes < TwoTo31
      modifies fp
      ensures fp.isOpen == old(fp.isOpen)
      ensures !old(fp.isOpen) ==> r == Err(NotOpen) && fp.bytes == old(fp.bytes)
      ensures old(fp.isOpen) && (bytes < 0 || |buffer| < bytes) ==> r == Err(BufferTooSmall) && fp.bytes == old(fp.bytes)
      ensures old(fp.isOpen) && 0 <= bytes <= |buffer| ==> r == Ok(()) && fp.bytes == old(fp.bytes) + Record(buffer[..bytes])
    {
      if !fp.isOpen {
        return Err(NotOpen);
      }
      if bytes < 0 || |buffer| < bytes {
        return Err(BufferTooSmall);
      }
      fp.Write(I32Bytes(bytes));
      fp.Write(buffer[..bytes]);
      fp.Write(I32Bytes(bytes));
      return Ok(());
    }

    /**
     * write_header: sets the header fields from the arguments and writes the
     * header record. The mass and the redshift are computed in floating point from
     * the arguments; their bytes come in `d` with the other doubles.
     */
    method WriteHeader(fp: OutStream, numPart: int, totNumPart: int, numFiles: int, d: Doubles)
      returns (r: Result<(), Error>)
      requires |header| == HeaderSize && DoublesWellFormed(d)
      requires 0 <= numPart < TwoTo32 && 0 <= totNumPart < TwoTo32 * TwoTo32 && -TwoTo31 <= numFiles < TwoTo31
      modifies this, fp
      ensures fp.isOpen == old(fp.isOpen) && |header| == HeaderSize
      ensures !old(fp.isOpen) ==> r == Err(NotOpen) && fp.bytes == old(fp.bytes) && header == old(header)
      ensures old(fp.isOpen) ==> (r == Ok(()) &&
        header == WrittenHeader(old(header), numPart, totNumPart, numFiles, d) &&
        fp.bytes == old(fp.bytes) + HeaderRecord(header))
    {
      if !fp.isOpen {
        return Err(NotOpen);
      }
      header := WrittenHeader(header, numPart, totNumPart, numFiles, d);
      var bytes := HeaderSize;
      fp.Write(I32Bytes(bytes));
      fp.Write(header);
      fp.Write(I32Bytes(bytes));
      return Ok(());
    }
  }
}
