/** The container of a serialized executable: a fixed header, then three sections. */
module Container {
  import opened Basics

  type Byte = b: int | 0 <= b < 256

  type Bytes = seq<Byte>

  /** The ways a container is turned down, in the order in which they are looked for. */
  datatype Error = BadMagic | BadOrder | TtirOverlapsTtnn | TtnnOverlapsFlatbuffer | FlatbufferTooLong

  datatype Result<+T> = Ok(value: T) | Err(error: Error)

  datatype Sections = Sections(ttir: Bytes, ttnn: Bytes, flatbuffer: Bytes)

  const MAGIC: Bytes := [84, 84, 83, 69, 82, 118, 48, 48]

  const HEADER_SIZE := 56

  const TWO_64 := 0x1_0000_0000_0000_0000

  // ---- little-endian integers ----

  /** `int.from_bytes(bytes, "little")`, of however many bytes there are. */
  function FromLittle(bytes: Bytes): nat {
    if bytes == [] then 0 else bytes[0] + 256 * FromLittle(bytes[1..])
  }

  /** The k low bytes of n, lowest first. */
  function ToLittle(n: nat, k: nat): (r: Bytes)
    ensures |r| == k
  {
    if k == 0 then [] else [n % 256] + ToLittle(n / 256, k - 1)
  }

  function Pow256(k: nat): nat {
    if k == 0 then 1 else 256 * Pow256(k - 1)
  }

  lemma {:induction false} LittleRoundTrip(n: nat, k: nat)
    requires n < Pow256(k)
    ensures FromLittle(ToLittle(n, k)) == n
  {
    if k > 0 {
      LittleRoundTrip(n / 256, k - 1);
      assert ToLittle(n, k)[1..] == ToLittle(n / 256, k - 1);
    }
  }

  lemma LowByte(low: Byte, rest: nat)
    ensures (low + 256 * rest) % 256 == low && (low + 256 * rest) / 256 == rest
  {}

  lemma {:induction false} LittleUnique(bytes: Bytes)
    ensures ToLittle(FromLittle(bytes), |bytes|) == bytes && FromLittle(bytes) < Pow256(|bytes|)
  {
    if bytes != [] {
      LittleUnique(bytes[1..]);
      LowByte(bytes[0], FromLittle(bytes[1..]));
      assert bytes == [bytes[0]] + bytes[1..];
    }
  }

  lemma EightBytes()
    ensures Pow256(8) == TWO_64
  {
    assert Pow256(4) == 256 * Pow256(3) && Pow256(3) == 256 * Pow256(2) && Pow256(2) == 256 * Pow256(1);
    assert Pow256(4) == 0x1_0000_0000;
    assert Pow256(8) == 256 * Pow256(7) && Pow256(7) == 256 * Pow256(6) && Pow256(6) == 256 * Pow256(5)
           && Pow256(5) == 256 * Pow256(4);
  }

  /** Eight bytes, and the number they spell. */
  lemma EightBytesSpell(b: Bytes, n: nat)
    requires |b| == 8
    requires n == (b[0] as int) + 0x100 * (b[1] as int) + 0x1_0000 * (b[2] as int) + 0x100_0000 * (b[3] as int)
                  + 0x1_0000_0000 * (b[4] as int) + 0x100_0000_0000 * (b[5] as int)
                  + 0x1_0000_0000_0000 * (b[6] as int) + 0x100_0000_0000_0000 * (b[7] as int)
    ensures FromLittle(b) == n && ToLittle(n, 8) == b
  {
    assert FromLittle(b[7..]) == b[7] by { assert b[7..][1..] == []; }
    assert FromLittle(b[6..]) == b[6] + 256 * FromLittle(b[7..]) by { assert b[6..][1..] == b[7..]; }
    assert FromLittle(b[5..]) == b[5] + 256 * FromLittle(b[6..]) by { assert b[5..][1..] == b[6..]; }
    assert FromLittle(b[4..]) == b[4] + 256 * FromLittle(b[5..]) by { assert b[4..][1..] == b[5..]; }
    assert FromLittle(b[3..]) == b[3] + 256 * FromLittle(b[4..]) by { assert b[3..][1..] == b[4..]; }
    assert FromLittle(b[2..]) == b[2] + 256 * FromLittle(b[3..]) by { assert b[2..][1..] == b[3..]; }
    assert FromLittle(b[1..]) == b[1] + 256 * FromLittle(b[2..]) by { assert b[1..][1..] == b[2..]; }
    LittleUnique(b);
  }

  // ---- the header ----

  datatype Header = Header(ttirOffset: nat, ttirSize: nat, ttnnOffset: nat, ttnnSize: nat, fbOffset: nat, fbSize: nat) {
    /** The sections come in order, do not overlap, and end within a body of `room` bytes. */
    predicate Fits(room: int) {
      && ttirOffset <= ttnnOffset <= fbOffset
      && ttirOffset + ttirSize <= ttnnOffset && ttnnOffset + ttnnSize <= fbOffset && fbOffset + fbSize <= room
    }

    /** The sections follow one another without gaps. */
    predicate Packed() {
      ttirOffset == 0 && ttnnOffset == ttirSize && fbOffset == ttnnOffset + ttnnSize
    }

    predicate InRange() {
      && ttirOffset < TWO_64 && ttirSize < TWO_64 && ttnnOffset < TWO_64
      && ttnnSize < TWO_64 && fbOffset < TWO_64 && fbSize < TWO_64
    }

    function Encode(): (r: Bytes)
      ensures |r| == HEADER_SIZE
    {
      MAGIC + ToLittle(ttirOffset, 8) + ToLittle(ttirSize, 8) + ToLittle(ttnnOffset, 8)
      + ToLittle(ttnnSize, 8) + ToLittle(fbOffset, 8) + ToLittle(fbSize, 8)
    }
  }

  /** Sums of 64-bit offsets wrap around. */
  function HeaderOf(s: Sections): Header {
    var ttir, ttnn, fb := |s.ttir| % TWO_64, |s.ttnn| % TWO_64, |s.flatbuffer| % TWO_64;
    var ttnnOffset := (0 + ttir) % TWO_64;
    Header(0, ttir, ttnnOffset, ttnn, (ttnnOffset + ttnn) % TWO_64, fb)
  }

  function Total(s: Sections): nat {
    HEADER_SIZE + |s.ttir| + |s.ttnn| + |s.flatbuffer|
  }

  /** The container of three sections. */
  function Pack(s: Sections): Bytes {
    HeaderOf(s).Encode() + s.ttir + s.ttnn + s.flatbuffer
  }

  // ---- the writer ----

  /** Copy bytes to the buffer, and move on. */
  method WriteRaw(buffer: array<Byte>, at: nat, src: Bytes) returns (next: nat)
    requires at + |src| <= buffer.Length
    modifies buffer
    ensures next == at + |src| && buffer[..next] == old(buffer[..at]) + src
  {
    forall k | 0 <= k < |src| {
      buffer[at + k] := src[k];
    }
    next := at + |src|;
    assert buffer[..at] == old(buffer[..at]) && buffer[at..next] == src;
    assert buffer[..next] == buffer[..at] + buffer[at..next];
  }

  /** Header and sections, one behind the other, into a buffer of exactly their size. */
  method Serialize(s: Sections) returns (payload: array<Byte>)
    requires Total(s) < TWO_64
    ensures payload[..] == Pack(s)
  {
    hide HeaderOf;
    var header := HeaderOf(s).Encode();
    payload := new Byte[Total(s)](_ => 0);
    var at := WriteRaw(payload, 0, header);
    assert payload[..at] == header;
    at := WriteRaw(payload, at, s.ttir);
    assert payload[..at] == header + s.ttir;
    at := WriteRaw(payload, at, s.ttnn);
    assert payload[..at] == header + s.ttir + s.ttnn;
    at := WriteRaw(payload, at, s.flatbuffer);
    assert payload[..at] == payload[..];
  }

  // ---- the parser ----

  /** Up to n bytes from position `at` on: fewer when the data ends. */
  function Slice(data: Bytes, at: nat, n: nat): (r: Bytes)
    ensures at + n <= |data| ==> r == data[at..at + n]
  {
    data[Min(at, |data|)..Min(at + n, |data|)]
  }

  /** A cursor over bytes. */
  class Stream {
    const data: Bytes
    var pos: nat

    constructor (data: Bytes)
      ensures this.data == data && pos == 0
    {
      this.data, pos := data, 0;
    }

    method Read(n: nat) returns (r: Bytes)
      modifies this
      ensures r == Slice(data, old(pos), n) && pos == old(pos) + |r|
    {
      r := Slice(data, pos, n);
      pos := pos + |r|;
    }

    method Seek(to: nat)
      modifies this
      ensures pos == to
    {
      pos := to;
    }
  }

  function Word(data: Bytes, k: nat): nat {
    FromLittle(Slice(data, 8 + 8 * k, 8))
  }

  function HeaderIn(data: Bytes): Header {
    Header(Word(data, 0), Word(data, 1), Word(data, 2), Word(data, 3), Word(data, 4), Word(data, 5))
  }

  /** What the parser makes of any bytes at all. */
  function Parse(data: Bytes): Result<Sections> {
    var h, room := HeaderIn(data), |data| - HEADER_SIZE;
    if Slice(data, 0, 8) != MAGIC then Err(BadMagic)
    else if !(h.ttirOffset <= h.ttnnOffset <= h.fbOffset) then Err(BadOrder)
    else if h.ttirOffset + h.ttirSize > h.ttnnOffset then Err(TtirOverlapsTtnn)
    else if h.ttnnOffset + h.ttnnSize > h.fbOffset then Err(TtnnOverlapsFlatbuffer)
    else if h.fbOffset + h.fbSize > room then Err(FlatbufferTooLong)
    else Ok(Sections(Slice(data, HEADER_SIZE + h.ttirOffset, h.ttirSize),
                    Slice(data, HEADER_SIZE + h.ttnnOffset, h.ttnnSize),
                     Slice(data, HEADER_SIZE + h.fbOffset, h.fbSize)))
  }

  method ReadWord(stream: Stream, ghost k: nat) returns (n: nat)
    requires stream.pos == Min(8 + 8 * k, |stream.data|)
    modifies stream
    ensures n == Word(stream.data, k) && stream.pos == Min(8 + 8 * (k + 1), |stream.data|)
  {
    var bytes := stream.Read(8);
    n := FromLittle(bytes);
  }

  method ReadHeader(stream: Stream) returns (h: Header)
    requires stream.pos == Min(8, |stream.data|)
    modifies stream
    ensures h == HeaderIn(stream.data)
  {
    var a := ReadWord(stream, 0);
    var b := ReadWord(stream, 1);
    var c := ReadWord(stream, 2);
    var d := ReadWord(stream, 3);
    var e := ReadWord(stream, 4);
    var f := ReadWord(stream, 5);
    h := Header(a, b, c, d, e, f);
  }

  method ParseExecutable(stream: Stream) returns (r: Result<Sections>)
    requires stream.pos == 0
    modifies stream
    ensures r == Parse(stream.data)
  {
    hide HeaderIn;
    var magic := stream.Read(8);
    if magic != MAGIC {
      return Err(BadMagic);
    }
    var total := |stream.data|;
    var h := ReadHeader(stream);
    if !(h.ttirOffset <= h.ttnnOffset <= h.fbOffset) {
      return Err(BadOrder);
    }
    if h.ttirOffset + h.ttirSize > h.ttnnOffset {
      return Err(TtirOverlapsTtnn);
    }
    if h.ttnnOffset + h.ttnnSize > h.fbOffset {
      return Err(TtnnOverlapsFlatbuffer);
    }
    if h.fbOffset + h.fbSize > total - HEADER_SIZE {
      return Err(FlatbufferTooLong);
    }
    stream.Seek(HEADER_SIZE + h.ttirOffset);
    var ttir := stream.Read(h.ttirSize);
    stream.Seek(HEADER_SIZE + h.ttnnOffset);
    var ttnn := stream.Read(h.ttnnSize);
    stream.Seek(HEADER_SIZE + h.fbOffset);
    var flatbuffer := stream.Read(h.fbSize);
    r := Ok(Sections(ttir, ttnn, flatbuffer));
  }

  // ---- what the parser accepts, and what it gives back ----

  /** A container is accepted exactly when it has the magic, and its sections lie in order, apart,
      and within the body. */
  lemma AcceptsExactly(data: Bytes)
    ensures Parse(data).Ok? <==>
            |data| >= HEADER_SIZE && data[..8] == MAGIC && HeaderIn(data).Fits(|data| - HEADER_SIZE)
  {
    if |data| >= HEADER_SIZE {
      assert Slice(data, 0, 8) == data[..8];
    }
  }

  lemma WordsAre(data: Bytes, w: seq<nat>)
    requires |data| >= 56 && |w| == 6
    requires w[0] == FromLittle(data[8..16]) && w[1] == FromLittle(data[16..24]) && w[2] == FromLittle(data[24..32])
    requires w[3] == FromLittle(data[32..40]) && w[4] == FromLittle(data[40..48]) && w[5] == FromLittle(data[48..56])
    ensures HeaderIn(data) == Header(w[0], w[1], w[2], w[3], w[4], w[5])
  {
    hide FromLittle;
  }

  lemma SliceOfBody(data: Bytes, at: nat, n: nat)
    requires HEADER_SIZE + at + n <= |data|
    ensures Slice(data, HEADER_SIZE + at, n) == data[HEADER_SIZE..][at..at + n]
  {}

  /** What the parser says of a container, from its first eight bytes and its six header words. */
  lemma ParseSays(data: Bytes, w: seq<nat>)
    requires |data| >= 56 && |w| == 6
    requires w[0] == FromLittle(data[8..16]) && w[1] == FromLittle(data[16..24]) && w[2] == FromLittle(data[24..32])
    requires w[3] == FromLittle(data[32..40]) && w[4] == FromLittle(data[40..48]) && w[5] == FromLittle(data[48..56])
    ensures var room := |data| - 56;
            if data[..8] != [84, 84, 83, 69, 82, 118, 48, 48] then Parse(data) == Err(BadMagic)
            else if w[0] > w[2] || w[2] > w[4] then Parse(data) == Err(BadOrder)
            else if w[0] + w[1] > w[2] then Parse(data) == Err(TtirOverlapsTtnn)
            else if w[2] + w[3] > w[4] then Parse(data) == Err(TtnnOverlapsFlatbuffer)
            else if w[4] + w[5] > room then Parse(data) == Err(FlatbufferTooLong)
            else Parse(data) == Ok(Sections(data[56..][w[0]..w[0] + w[1]], data[56..][w[2]..w[2] + w[3]],
                                            data[56..][w[4]..w[4] + w[5]]))
  {
    hide HeaderIn, FromLittle;
    WordsAre(data, w);
    assert Slice(data, 0, 8) == data[..8];
    if w[0] + w[1] <= w[2] && w[2] + w[3] <= w[4] && w[4] + w[5] <= |data| - 56 {
      SliceOfBody(data, w[0], w[1]);
      SliceOfBody(data, w[2], w[3]);
      SliceOfBody(data, w[4], w[5]);
    }
  }

  /** Less than a whole header is never accepted. */
  lemma ShortIsRefused(data: Bytes)
    requires |data| < 56
    ensures Parse(data).Err?
    ensures Parse(data) == Err(BadMagic) <==> |data| < 8 || data[..8] != [84, 84, 83, 69, 82, 118, 48, 48]
  {
    hide HeaderIn;
    if |data| >= 8 {
      assert Slice(data, 0, 8) == data[..8];
    } else {
      assert |Slice(data, 0, 8)| < 8;
    }
  }

  lemma ParsedIs(data: Bytes)
    requires Parse(data).Ok?
    ensures var h := HeaderIn(data);
            && HEADER_SIZE + h.fbOffset + h.fbSize <= |data|
            && h.ttirOffset + h.ttirSize <= h.ttnnOffset && h.ttnnOffset + h.ttnnSize <= h.fbOffset
            && Parse(data).value == Sections(Slice(data, HEADER_SIZE + h.ttirOffset, h.ttirSize),
                                             Slice(data, HEADER_SIZE + h.ttnnOffset, h.ttnnSize),
                                             Slice(data, HEADER_SIZE + h.fbOffset, h.fbSize))
  {
    hide HeaderIn, Slice;
  }

  /** The sections of an accepted container are the whole ranges its header names. */
  lemma SectionsAreRanges(data: Bytes)
    requires Parse(data).Ok?
    ensures var h, body, s := HeaderIn(data), data[HEADER_SIZE..], Parse(data).value;
            && h.fbOffset + h.fbSize <= |body|
            && s.ttir == body[h.ttirOffset..h.ttirOffset + h.ttirSize]
            && s.ttnn == body[h.ttnnOffset..h.ttnnOffset + h.ttnnSize]
            && s.flatbuffer == body[h.fbOffset..h.fbOffset + h.fbSize]
  {
    hide HeaderIn, Slice, Parse;
    var h := HeaderIn(data);
    ParsedIs(data);
    SliceOfBody(data, h.ttirOffset, h.ttirSize);
    SliceOfBody(data, h.ttnnOffset, h.ttnnSize);
    SliceOfBody(data, h.fbOffset, h.fbSize);
  }

  /** Header fields can be read back from an encoded header, whatever follows it. */
  lemma HeaderRoundTrip(h: Header, body: Bytes)
    requires h.InRange()
    ensures HeaderIn(h.Encode() + body) == h && (h.Encode() + body)[..8] == MAGIC
  {
    var data := h.Encode() + body;
    EightBytes();
    var words := [h.ttirOffset, h.ttirSize, h.ttnnOffset, h.ttnnSize, h.fbOffset, h.fbSize];
    forall k | 0 <= k < 6 ensures Word(data, k) == words[k] {
      assert data[8 + 8 * k..16 + 8 * k] == ToLittle(words[k], 8);
      LittleRoundTrip(words[k], 8);
    }
    assert Word(data, 0) == words[0] && Word(data, 1) == words[1] && Word(data, 2) == words[2];
    assert Word(data, 3) == words[3] && Word(data, 4) == words[4] && Word(data, 5) == words[5];
  }

  /** All offsets and sizes fit their header fields. */
  predicate Writable(s: Sections) {
    |s.ttir| + |s.ttnn| < TWO_64 && |s.flatbuffer| < TWO_64
  }

  lemma HeaderOfSmall(s: Sections)
    requires Writable(s)
    ensures HeaderOf(s) == Header(0, |s.ttir|, |s.ttir|, |s.ttnn|, |s.ttir| + |s.ttnn|, |s.flatbuffer|)
    ensures HeaderOf(s).InRange() && HeaderOf(s).Packed()
  {}

  lemma PackIs(s: Sections)
    ensures Pack(s) == HeaderOf(s).Encode() + (s.ttir + s.ttnn + s.flatbuffer)
    ensures |Pack(s)| >= HEADER_SIZE && Pack(s)[HEADER_SIZE..] == s.ttir + s.ttnn + s.flatbuffer
  {
    hide HeaderOf;
  }

  /** A packed container byte for byte: eight fixed ones, six words, and the sections. */
  lemma PackedBytes(s: Sections)
    requires |s.ttir| + |s.ttnn| < 0x1_0000_0000_0000_0000 && |s.flatbuffer| < 0x1_0000_0000_0000_0000
    ensures Pack(s) == [84, 84, 83, 69, 82, 118, 48, 48]
                       + ToLittle(0, 8) + ToLittle(|s.ttir|, 8)
                       + ToLittle(|s.ttir|, 8) + ToLittle(|s.ttnn|, 8)
                       + ToLittle(|s.ttir| + |s.ttnn|, 8) + ToLittle(|s.flatbuffer|, 8)
                       + s.ttir + s.ttnn + s.flatbuffer
  {
    hide ToLittle, HeaderOf;
    HeaderOfSmall(s);
  }

  lemma Middle(a: Bytes, b: Bytes, c: Bytes)
    ensures var all := a + b + c;
            && all[0..0 + |a|] == a && all[|a|..|a| + |b|] == b && all[|a| + |b|..|a| + |b| + |c|] == c
  {}

  lemma WritableRoundTrip(s: Sections)
    requires Writable(s)
    ensures Parse(Pack(s)) == Ok(s)
  {
    hide HeaderOf, HeaderIn, Parse;
    var h, body := HeaderOf(s), s.ttir + s.ttnn + s.flatbuffer;
    HeaderOfSmall(s);
    HeaderRoundTrip(h, body);
    PackIs(s);
    AcceptsExactly(Pack(s));
    SectionsAreRanges(Pack(s));
    Middle(s.ttir, s.ttnn, s.flatbuffer);
  }

  lemma HeaderInRange(s: Sections)
    ensures HeaderOf(s).InRange()
  {}

  /** Sections that come back have fitted their header. */
  lemma ParsedIsWritable(s: Sections)
    requires Parse(Pack(s)) == Ok(s)
    ensures Writable(s)
  {
    hide HeaderOf, HeaderIn, Parse;
    var h := HeaderOf(s);
    HeaderInRange(s);
    PackIs(s);
    HeaderRoundTrip(h, s.ttir + s.ttnn + s.flatbuffer);
    AcceptsExactly(Pack(s));
    SectionsAreRanges(Pack(s));
    assert |s.ttir| == h.ttirSize && |s.ttnn| == h.ttnnSize && |s.flatbuffer| == h.fbSize;
  }

  /** What is packed is parsed back, exactly when the header's fields are wide enough for it. */
  lemma RoundTrip(s: Sections)
    ensures Parse(Pack(s)) == Ok(s)
            <==> |s.ttir| + |s.ttnn| < 0x1_0000_0000_0000_0000 && |s.flatbuffer| < 0x1_0000_0000_0000_0000
  {
    hide Parse, Pack;
    if Writable(s) {
      WritableRoundTrip(s);
    }
    if Parse(Pack(s)) == Ok(s) {
      ParsedIsWritable(s);
    }
  }

  lemma HeaderBytes(data: Bytes)
    requires |data| >= HEADER_SIZE && data[..8] == MAGIC
    ensures HeaderIn(data).Encode() == data[..HEADER_SIZE] && HeaderIn(data).InRange()
  {
    EightBytes();
    forall k | 0 <= k < 6 ensures ToLittle(Word(data, k), 8) == data[8 + 8 * k..16 + 8 * k] && Word(data, k) < TWO_64 {
      LittleUnique(data[8 + 8 * k..16 + 8 * k]);
    }
    assert ToLittle(Word(data, 0), 8) == data[8..16] && ToLittle(Word(data, 1), 8) == data[16..24];
    assert ToLittle(Word(data, 2), 8) == data[24..32] && ToLittle(Word(data, 3), 8) == data[32..40];
    assert ToLittle(Word(data, 4), 8) == data[40..48] && ToLittle(Word(data, 5), 8) == data[48..56];
  }

  lemma Whole(body: Bytes, a: nat, b: nat)
    requires a + b <= |body|
    ensures body == body[0..0 + a] + body[a..a + b] + body[a + b..a + b + (|body| - (a + b))]
  {}

  /** An accepted container is what packing its sections gives, exactly when it has no gaps and no trailing bytes. */
  lemma Repacks(data: Bytes)
    requires Parse(data).Ok?
    ensures Pack(Parse(data).value) == data
            <==> HeaderIn(data).Packed() && HeaderIn(data).fbOffset + HeaderIn(data).fbSize == |data| - HEADER_SIZE
  {
    hide HeaderIn, HeaderOf, Pack, Parse, Slice, Header.Encode, Header.InRange;
    AcceptsExactly(data);
    var h, s, body := HeaderIn(data), Parse(data).value, data[HEADER_SIZE..];
    SectionsAreRanges(data);
    HeaderBytes(data);
    HeaderOfSmall(s);
    PackIs(s);
    if h.Packed() && h.fbOffset + h.fbSize == |data| - HEADER_SIZE {
      assert HeaderOf(s) == h;
      Whole(body, h.ttirSize, h.ttnnSize);
      assert data == data[..HEADER_SIZE] + body;
    }
    if Pack(s) == data {
      HeaderRoundTrip(HeaderOf(s), s.ttir + s.ttnn + s.flatbuffer);
    }
  }
}
