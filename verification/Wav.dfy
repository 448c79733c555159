/** The WAV writer of static/audio-capture.js, and a reader that undoes it: the mono PCM16 form of the WAVE
    section of IBM/Microsoft's Multimedia Programming Interface and Data Specifications 1.0. */
module Wav {
  import opened Wrappers

  type byte = b: int | 0 <= b < 256

  type int16 = v: int | -0x8000 <= v < 0x8000

  const HEADER := 44
  const TWO32 := 0x1_0000_0000

  // ---------------------------------------------------------------- fields of a file

  // The unsigned little-endian number at i.
  function Read16(b: seq<byte>, i: nat): (r: int)
    requires i + 2 <= |b|
    ensures 0 <= r < 0x1_0000
  {
    var lo: int, hi: int := b[i], b[i + 1];
    lo + 256 * hi
  }

  function Read32(b: seq<byte>, i: nat): (r: int)
    requires i + 4 <= |b|
    ensures 0 <= r < TWO32
  {
    Read16(b, i) + 0x1_0000 * Read16(b, i + 2)
  }

  // The field at i holds v, modulo the width of the field.
  predicate Has16(b: seq<byte>, i: nat, v: int) {
    i + 2 <= |b| && Read16(b, i) == v % 0x1_0000
  }

  predicate Has32(b: seq<byte>, i: nat, v: int) {
    i + 4 <= |b| && Read32(b, i) == v % TWO32
  }

  predicate HasText(b: seq<byte>, i: nat, s: string) {
    i + |s| <= |b| && forall k :: 0 <= k < |s| ==> b[i + k] == s[k] as int % 256
  }

  predicate HasRiff(b: seq<byte>, n: nat) {
    HasText(b, 0, "RIFF") && Has32(b, 4, 36 + n * 2) && HasText(b, 8, "WAVE")
  }

  predicate HasFormat(b: seq<byte>, sampleRate: int) {
    && HasText(b, 12, "fmt ") && Has32(b, 16, 16) && Has16(b, 20, 1) && Has16(b, 22, 1)
    && Has32(b, 24, sampleRate) && Has32(b, 28, sampleRate * 2) && Has16(b, 32, 2) && Has16(b, 34, 16)
  }

  predicate HasData(b: seq<byte>, n: nat) {
    HasText(b, 36, "data") && Has32(b, 40, n * 2)
  }

  predicate HasHeader(b: seq<byte>, sampleRate: int, n: nat) {
    HasRiff(b, n) && HasFormat(b, sampleRate) && HasData(b, n)
  }

  predicate HasSamples(b: seq<byte>, s: seq<int16>) {
    forall k :: 0 <= k < |s| ==> Has16(b, HEADER + 2 * k, s[k])
  }

  ghost predicate WavFile(b: seq<byte>, sampleRate: int, s: seq<int16>) {
    |b| == HEADER + 2 * |s| && HasHeader(b, sampleRate, |s|) && HasSamples(b, s)
  }

  function Flatten(chunks: seq<seq<int16>>): seq<int16> {
    if chunks == [] then [] else Flatten(chunks[..|chunks| - 1]) + chunks[|chunks| - 1]
  }

  // ---------------------------------------------------------------- the writer

  /** A DataView over its own buffer. `hits` counts how often each byte has been stored to. */
  class DataView {
    const buffer: array<byte>
    ghost var hits: seq<nat>

    ghost predicate Valid()
      reads this
    {
      |hits| == buffer.Length
    }

    constructor (length: nat)
      ensures Valid() && fresh(buffer) && buffer.Length == length && HitOnce(hits, 0)
    {
      buffer := new byte[length](_ => 0);
      hits := seq(length, _ => 0);
    }

    // Exactly the n bytes from offset on were stored to, once each.
    twostate predicate Touched(offset: nat, n: nat)
      reads this, buffer
    {
      && old(Valid()) && Valid() && offset + n <= buffer.Length
      && (forall k :: 0 <= k < buffer.Length && !(offset <= k < offset + n) ==> buffer[k] == old(buffer[k]))
      && (forall k :: 0 <= k < buffer.Length ==> hits[k] == old(hits[k]) + if offset <= k < offset + n then 1 else 0)
    }

    method SetUint8(offset: nat, v: int)
      requires Valid() && offset + 1 <= buffer.Length
      modifies this, buffer
      ensures Touched(offset, 1) && buffer[offset] == v % 256
    {
      buffer[offset] := v % 256;
      hits := hits[offset := hits[offset] + 1];
    }

    // Also setInt16: both store a number modulo 2^16.
    method SetUint16(offset: nat, v: int)
      requires Valid() && offset + 2 <= buffer.Length
      modifies this, buffer
      ensures Touched(offset, 2) && Has16(buffer[..], offset, v)
    {
      SetUint8(offset, v);
      SetUint8(offset + 1, v / 256);
      TwoBytes(v);
    }

    method SetUint32(offset: nat, v: int)
      requires Valid() && offset + 4 <= buffer.Length
      modifies this, buffer
      ensures Touched(offset, 4) && Has32(buffer[..], offset, v)
    {
      SetUint16(offset, v);
      SetUint16(offset + 2, v / 0x1_0000);
      TwoWords(v);
    }

    method WriteStr(offset: nat, s: string)
      requires Valid() && offset + |s| <= buffer.Length
      modifies this, buffer
      ensures Touched(offset, |s|) && HasText(buffer[..], offset, s)
    {
      for i := 0 to |s|
        invariant Touched(offset, i) && HasText(buffer[..], offset, s[..i])
      {
        SetUint8(offset + i, s[i] as int);
      }
    }
  }

  ghost predicate HitOnce(hits: seq<nat>, upTo: nat) {
    forall k :: 0 <= k < |hits| ==> hits[k] == if k < upTo then 1 else 0
  }

  lemma TwoBytes(v: int)
    ensures v % 256 + 256 * (v / 256 % 256) == v % 0x1_0000
  {
    var q := v / 256;
    assert v == 256 * q + v % 256 && q == 256 * (q / 256) + q % 256;
  }

  lemma TwoWords(v: int)
    ensures v % 0x1_0000 + 0x1_0000 * (v / 0x1_0000 % 0x1_0000) == v % TWO32
  {
    var q := v / 0x1_0000;
    assert v == 0x1_0000 * q + v % 0x1_0000 && q == 0x1_0000 * (q / 0x1_0000) + q % 0x1_0000;
  }

  method WriteHeader(view: DataView, sampleRate: int, n: nat)
    requires view.Valid() && view.buffer.Length >= HEADER && HitOnce(view.hits, 0)
    modifies view, view.buffer
    ensures view.Valid() && HasHeader(view.buffer[..], sampleRate, n) && HitOnce(view.hits, HEADER)
  {
    WriteRiff(view, n);
    WriteFormat(view, sampleRate);
    view.WriteStr(36, "data");
    view.SetUint32(40, n * 2);
  }

  method WriteRiff(view: DataView, n: nat)
    requires view.Valid() && view.buffer.Length >= HEADER
    modifies view, view.buffer
    ensures view.Touched(0, 12) && HasRiff(view.buffer[..], n)
  {
    view.WriteStr(0, "RIFF");
    view.SetUint32(4, 36 + n * 2);
    view.WriteStr(8, "WAVE");
  }

  method WriteFormat(view: DataView, sampleRate: int)
    requires view.Valid() && view.buffer.Length >= HEADER
    modifies view, view.buffer
    ensures view.Touched(12, 24) && HasFormat(view.buffer[..], sampleRate)
  {
    WriteEncoding(view);
    WriteRates(view, sampleRate);
  }

  method WriteEncoding(view: DataView)
    requires view.Valid() && view.buffer.Length >= HEADER
    modifies view, view.buffer
    ensures view.Touched(12, 12)
    ensures var b := view.buffer[..]; HasText(b, 12, "fmt ") && Has32(b, 16, 16) && Has16(b, 20, 1) && Has16(b, 22, 1)
  {
    view.WriteStr(12, "fmt ");
    view.SetUint32(16, 16);
    view.SetUint16(20, 1);
    view.SetUint16(22, 1);
  }

  method WriteRates(view: DataView, sampleRate: int)
    requires view.Valid() && view.buffer.Length >= HEADER
    modifies view, view.buffer
    ensures view.Touched(24, 12)
    ensures var b := view.buffer[..];
            Has32(b, 24, sampleRate) && Has32(b, 28, sampleRate * 2) && Has16(b, 32, 2) && Has16(b, 34, 16)
  {
    view.SetUint32(24, sampleRate);
    view.SetUint32(28, sampleRate * 2);
    view.SetUint16(32, 2);
    view.SetUint16(34, 16);
  }

  lemma FlattenPrefix(chunks: seq<seq<int16>>, k: nat)
    requires k < |chunks|
    ensures Flatten(chunks[..k + 1]) == Flatten(chunks[..k]) + chunks[k]
  {
    assert chunks[..k + 1][..k] == chunks[..k];
  }

  lemma {:induction false} FlattenGrows(chunks: seq<seq<int16>>, k: nat)
    requires k <= |chunks|
    ensures |Flatten(chunks[..k])| <= |Flatten(chunks)|
    decreases |chunks| - k
  {
    if k < |chunks| {
      FlattenPrefix(chunks, k);
      FlattenGrows(chunks, k + 1);
    } else {
      assert chunks[..k] == chunks;
    }
  }

  method TotalLength(chunks: seq<seq<int16>>) returns (length: nat)
    ensures length == |Flatten(chunks)|
  {
    length := 0;
    for k := 0 to |chunks|
      invariant length == |Flatten(chunks[..k])|
    {
      FlattenPrefix(chunks, k);
      length := length + |chunks[k]|;
    }
    assert chunks[..|chunks|] == chunks;
  }

  ghost predicate Filled(view: DataView, offset: nat, sampleRate: int, n: nat, done: seq<int16>)
    reads view, view.buffer
  {
    && view.Valid() && view.buffer.Length == HEADER + 2 * n
    && offset == HEADER + 2 * |done| && |done| <= n
    && HasHeader(view.buffer[..], sampleRate, n) && HasSamples(view.buffer[..], done)
    && HitOnce(view.hits, offset)
  }

  // One turn of the inner loop.
  method WriteSample(view: DataView, offset: nat, v: int16, ghost sampleRate: int, ghost n: nat, ghost done: seq<int16>)
    requires Filled(view, offset, sampleRate, n, done) && |done| < n
    modifies view, view.buffer
    ensures Filled(view, offset + 2, sampleRate, n, done + [v])
  {
    ghost var before := view.buffer[..];
    view.SetUint16(offset, v);
    HeaderKept(before, view.buffer[..], sampleRate, n);
    forall k | 0 <= k < |done| ensures Has16(view.buffer[..], HEADER + 2 * k, done[k]) {
      assert Has16(before, HEADER + 2 * k, done[k]);
    }
  }

  lemma HeaderKept(b: seq<byte>, b': seq<byte>, sampleRate: int, n: nat)
    requires |b| == |b'| >= HEADER && HasHeader(b, sampleRate, n)
    requires forall k :: 0 <= k < HEADER ==> b'[k] == b[k]
    ensures HasHeader(b', sampleRate, n)
  {
  }

  // The inner loop.
  method WriteChunk(view: DataView, start: nat, c: seq<int16>, ghost sampleRate: int, ghost n: nat,
                    ghost done: seq<int16>)
    returns (offset: nat)
    requires Filled(view, start, sampleRate, n, done) && |done| + |c| <= n
    modifies view, view.buffer
    ensures Filled(view, offset, sampleRate, n, done + c)
  {
    offset := start;
    assert done + c[..0] == done;
    for i := 0 to |c|
      invariant Filled(view, offset, sampleRate, n, done + c[..i])
    {
      assert done + c[..i + 1] == (done + c[..i]) + [c[i]];
      WriteSample(view, offset, c[i], sampleRate, n, done + c[..i]);
      offset := offset + 2;
    }
    assert c[..|c|] == c;
  }

  /** Fills the buffer with the WAV file of the concatenated chunks, storing to each byte exactly once. That
      no store falls outside the buffer is the precondition of every Set method. */
  method EncodeWav(chunks: seq<seq<int16>>, sampleRate: int) returns (view: DataView)
    ensures WavFile(view.buffer[..], sampleRate, Flatten(chunks))
    ensures view.Valid() && HitOnce(view.hits, view.buffer.Length)
  {
    var length := TotalLength(chunks);
    view := new DataView(HEADER + length * 2);
    WriteHeader(view, sampleRate, length);
    var offset: nat := HEADER;
    for k := 0 to |chunks|
      invariant fresh(view) && fresh(view.buffer)
      invariant Filled(view, offset, sampleRate, length, Flatten(chunks[..k]))
    {
      FlattenPrefix(chunks, k);
      FlattenGrows(chunks, k + 1);
      offset := WriteChunk(view, offset, chunks[k], sampleRate, length, Flatten(chunks[..k]));
    }
    assert chunks[..|chunks|] == chunks;
  }

  /** The description leaves no byte open: two files of the same rate and samples are equal. */
  lemma OneFile(b: seq<byte>, b': seq<byte>, sampleRate: int, s: seq<int16>)
    requires WavFile(b, sampleRate, s) && WavFile(b', sampleRate, s)
    ensures b == b'
  {
    HeadersEqual(b, b', sampleRate, |s|);
    forall i | HEADER <= i < |b| ensures b[i] == b'[i] {
      var k := (i - HEADER) / 2;
      assert Has16(b, HEADER + 2 * k, s[k]) && Has16(b', HEADER + 2 * k, s[k]);
      BytesEqual(b, b', HEADER + 2 * k);
    }
  }

  lemma HeadersEqual(b: seq<byte>, b': seq<byte>, sampleRate: int, n: nat)
    requires |b| == |b'| >= HEADER && HasHeader(b, sampleRate, n) && HasHeader(b', sampleRate, n)
    ensures forall i :: 0 <= i < HEADER ==> b[i] == b'[i]
  {
    TextsEqual(b, b', 0, "RIFF");
    WordsEqual(b, b', 4);
    TextsEqual(b, b', 8, "WAVE");
    TextsEqual(b, b', 12, "fmt ");
    WordsEqual(b, b', 16);
    BytesEqual(b, b', 20);
    BytesEqual(b, b', 22);
    WordsEqual(b, b', 24);
    WordsEqual(b, b', 28);
    BytesEqual(b, b', 32);
    BytesEqual(b, b', 34);
    TextsEqual(b, b', 36, "data");
    WordsEqual(b, b', 40);
  }

  lemma BytesEqual(b: seq<byte>, b': seq<byte>, i: nat)
    requires |b| == |b'| && i + 2 <= |b| && Read16(b, i) == Read16(b', i)
    ensures b[i] == b'[i] && b[i + 1] == b'[i + 1]
  {
  }

  lemma LowAndHigh(lo: int, hi: int, lo': int, hi': int)
    requires 0 <= lo < 0x1_0000 && 0 <= lo' < 0x1_0000 && lo + 0x1_0000 * hi == lo' + 0x1_0000 * hi'
    ensures lo == lo' && hi == hi'
  {
  }

  lemma WordsEqual(b: seq<byte>, b': seq<byte>, i: nat)
    requires |b| == |b'| && i + 4 <= |b| && Read32(b, i) == Read32(b', i)
    ensures b[i] == b'[i] && b[i + 1] == b'[i + 1] && b[i + 2] == b'[i + 2] && b[i + 3] == b'[i + 3]
  {
    LowAndHigh(Read16(b, i), Read16(b, i + 2), Read16(b', i), Read16(b', i + 2));
    BytesEqual(b, b', i);
    BytesEqual(b, b', i + 2);
  }

  lemma TextsEqual(b: seq<byte>, b': seq<byte>, at: nat, s: string)
    requires |b| == |b'| && HasText(b, at, s) && HasText(b', at, s)
    ensures forall i :: at <= i < at + |s| ==> b[i] == b'[i]
  {
    forall i | at <= i < at + |s| ensures b[i] == b'[i] {
      assert b[at + (i - at)] == s[i - at] as int % 256;
      assert b'[at + (i - at)] == s[i - at] as int % 256;
    }
  }

  // ---------------------------------------------------------------- the reader

  datatype Wave = Wave(sampleRate: int, samples: seq<int16>)

  function ToInt16(u: int): int16
    requires 0 <= u < 0x1_0000
  {
    if u < 0x8000 then u else u - 0x1_0000
  }

  predicate MonoPcm16(b: seq<byte>) {
    && HasText(b, 0, "RIFF") && HasText(b, 8, "WAVE") && HasText(b, 12, "fmt ") && HasText(b, 36, "data")
    && Has32(b, 16, 16) && Has16(b, 20, 1) && Has16(b, 22, 1) && Has16(b, 32, 2) && Has16(b, 34, 16)
  }

  function ReadSamples(b: seq<byte>): seq<int16>
    requires |b| >= HEADER
  {
    var n := (|b| - HEADER) / 2;
    seq(n, k requires 0 <= k < n => ToInt16(Read16(b, HEADER + 2 * k)))
  }

  predicate SizesAgree(b: seq<byte>)
    requires |b| >= HEADER
  {
    |b| % 2 == 0 && Read32(b, 4) == |b| - 8 && Read32(b, 40) == |b| - HEADER
  }

  // Accepts mono PCM16 files whose two size fields agree with the file.
  function ReadWav(b: seq<byte>): Option<Wave> {
    if |b| >= HEADER && MonoPcm16(b) && SizesAgree(b) then Some(Wave(Read32(b, 24), ReadSamples(b))) else None
  }

  lemma SamplesRead(b: seq<byte>, s: seq<int16>)
    requires |b| == HEADER + 2 * |s| && HasSamples(b, s)
    ensures ReadSamples(b) == s
  {
    forall k | 0 <= k < |s| ensures ToInt16(Read16(b, HEADER + 2 * k)) == s[k] {
      assert Has16(b, HEADER + 2 * k, s[k]);
    }
  }

  lemma WrapsExactly(v: int)
    ensures v % TWO32 == v <==> 0 <= v < TWO32
  {
  }

  // A 32-bit field reads back as what was stored exactly if that fits.
  lemma FieldFits(b: seq<byte>, i: nat, v: int)
    requires Has32(b, i, v)
    ensures Read32(b, i) == v <==> 0 <= v < TWO32
  {
    WrapsExactly(v);
  }

  lemma SizesAgreeExactly(b: seq<byte>, n: nat)
    requires |b| == HEADER + 2 * n && Has32(b, 4, 36 + n * 2) && Has32(b, 40, n * 2)
    ensures SizesAgree(b) <==> 36 + 2 * n < TWO32
  {
    hide Read32, Has32;
    assert Read32(b, 4) == 36 + n * 2 <==> 36 + n * 2 < TWO32 by { FieldFits(b, 4, 36 + n * 2); }
    assert Read32(b, 40) == n * 2 <==> n * 2 < TWO32 by { FieldFits(b, 40, n * 2); }
    assert |b| % 2 == 0;
  }

  lemma ReadsBack(b: seq<byte>, sampleRate: int, s: seq<int16>)
    requires WavFile(b, sampleRate, s)
    ensures ReadWav(b) == if SizesAgree(b) then Some(Wave(Read32(b, 24), s)) else None
  {
    assert MonoPcm16(b);
    SamplesRead(b, s);
  }

  /** Round trip: reading the written file gives back the rate and exactly the samples, if and only if the
      sizes and the rate fit their 32-bit fields. With EncodeWav this holds of any list of chunks. */
  lemma WavRoundTrip(b: seq<byte>, sampleRate: int, s: seq<int16>)
    requires WavFile(b, sampleRate, s)
    ensures ReadWav(b) == Some(Wave(sampleRate, s)) <==> 36 + 2 * |s| < TWO32 && 0 <= sampleRate < TWO32
  {
    ReadsBack(b, sampleRate, s);
    assert SizesAgree(b) <==> 36 + 2 * |s| < TWO32 by { SizesAgreeExactly(b, |s|); }
    assert Read32(b, 24) == sampleRate <==> 0 <= sampleRate < TWO32 by { FieldFits(b, 24, sampleRate); }
  }

  /** The byte-rate field of a written file is the true byte rate exactly for rates below 2^31. */
  lemma ByteRateField(b: seq<byte>, sampleRate: nat)
    requires HasFormat(b, sampleRate)
    ensures Read32(b, 28) == sampleRate * 2 <==> sampleRate < 0x8000_0000
  {
    FieldFits(b, 28, sampleRate * 2);
  }

  // ---------------------------------------------------------------- the file, byte by byte

  // Numbers as the format stores them: least significant byte first.
  function Le16(v: int): seq<byte> { [v % 256, v / 256 % 256] }

  function Le32(v: int): seq<byte> { [v % 256, v / 256 % 256, v / 65_536 % 256, v / 16_777_216 % 256] }

  function Ascii(s: string): seq<byte> {
    seq(|s|, k requires 0 <= k < |s| => s[k] as int % 256)
  }

  // The WAVE section of the specification, for one channel of 16-bit samples.
  function WavHeader(sampleRate: int, n: nat): seq<byte> {
    Ascii("RIFF") + Le32(36 + 2 * n) + Ascii("WAVE")
    + (Ascii("fmt ") + Le32(16) + Le16(1) + Le16(1) + Le32(sampleRate) + Le32(sampleRate * 2) + Le16(2) + Le16(16))
    + (Ascii("data") + Le32(2 * n))
  }

  function WavSamples(s: seq<int16>): seq<byte> {
    if s == [] then [] else WavSamples(s[..|s| - 1]) + Le16(s[|s| - 1])
  }

  lemma Field16(b: seq<byte>, i: nat, v: int)
    requires Has16(b, i, v)
    ensures b[i..i + 2] == Le16(v)
  {
    TwoBytes(v);
    LowAndHighBytes(b[i], b[i + 1], v % 256, v / 256 % 256);
  }

  lemma LowAndHighBytes(lo: int, hi: int, lo': int, hi': int)
    requires 0 <= lo < 256 && 0 <= lo' < 256 && lo + 256 * hi == lo' + 256 * hi'
    ensures lo == lo' && hi == hi'
  {
  }

  lemma Digits(v: int, q: int, r: int)
    requires v == 0x1_0000 * q + r && 0 <= r < 0x1_0000
    ensures v % 256 == r % 256 && v / 256 % 256 == r / 256
    ensures v / 0x1_0000 == q && v % 0x1_0000 == r
  {
    assert v == 256 * (256 * q + r / 256) + r % 256;
    assert v / 256 == 256 * q + r / 256;
  }

  lemma TopDigit(v: int, q: int)
    requires q == v / 0x1_0000
    ensures q / 256 == v / 16_777_216
  {
    var p, rest := q / 256, 0x1_0000 * (q % 256) + v % 0x1_0000;
    assert 0 <= rest < 16_777_216 && v == 16_777_216 * p + rest;
  }

  lemma HighWord(v: int)
    ensures v % 0x1_0000 % 256 == v % 256 && v % 0x1_0000 / 256 % 256 == v / 256 % 256
    ensures v / 0x1_0000 / 256 == v / 16_777_216
  {
    Digits(v, v / 0x1_0000, v % 0x1_0000);
    TopDigit(v, v / 0x1_0000);
  }

  lemma Field32(b: seq<byte>, i: nat, v: int)
    requires Has32(b, i, v)
    ensures b[i..i + 4] == Le32(v)
  {
    TwoWords(v);
    LowAndHigh(Read16(b, i), Read16(b, i + 2), v % 0x1_0000, v / 0x1_0000 % 0x1_0000);
    Field16(b, i, v);
    Field16(b, i + 2, v / 0x1_0000);
    HighWord(v);
    assert b[i..i + 4] == b[i..i + 2] + b[i + 2..i + 4];
  }

  lemma FieldText(b: seq<byte>, i: nat, s: string)
    requires HasText(b, i, s)
    ensures b[i..i + |s|] == Ascii(s)
  {
  }

  lemma Glue(b: seq<byte>, i: nat, j: nat, k: nat)
    requires i <= j <= k <= |b|
    ensures b[i..j] + b[j..k] == b[i..k]
  {
  }

  lemma RiffBytes(b: seq<byte>, n: nat)
    requires |b| >= HEADER && HasRiff(b, n)
    ensures b[0..12] == Ascii("RIFF") + Le32(36 + 2 * n) + Ascii("WAVE")
  {
    hide Has32, HasText, Le32, Ascii;
    FieldText(b, 0, "RIFF");
    Field32(b, 4, 36 + n * 2);
    FieldText(b, 8, "WAVE");
    Glue(b, 0, 4, 8);
    Glue(b, 0, 8, 12);
  }

  lemma FormatBytes(b: seq<byte>, sampleRate: int)
    requires |b| >= HEADER && HasFormat(b, sampleRate)
    ensures b[12..36] == Ascii("fmt ") + Le32(16) + Le16(1) + Le16(1) + Le32(sampleRate) + Le32(sampleRate * 2)
                         + Le16(2) + Le16(16)
  {
    hide Has16, Has32, HasText, Le16, Le32, Ascii;
    FieldText(b, 12, "fmt ");
    Field32(b, 16, 16);
    Field16(b, 20, 1);
    Field16(b, 22, 1);
    Field32(b, 24, sampleRate);
    Field32(b, 28, sampleRate * 2);
    Field16(b, 32, 2);
    Field16(b, 34, 16);
    Glue(b, 12, 16, 20);
    Glue(b, 12, 20, 22);
    Glue(b, 12, 22, 24);
    Glue(b, 12, 24, 28);
    Glue(b, 12, 28, 32);
    Glue(b, 12, 32, 34);
    Glue(b, 12, 34, 36);
  }

  lemma DataBytes(b: seq<byte>, n: nat)
    requires |b| >= HEADER && HasData(b, n)
    ensures b[36..44] == Ascii("data") + Le32(2 * n)
  {
    hide Has32, HasText, Le32, Ascii;
    FieldText(b, 36, "data");
    Field32(b, 40, n * 2);
    Glue(b, 36, 40, 44);
  }

  lemma {:induction false} SampleBytes(b: seq<byte>, s: seq<int16>)
    requires HEADER + 2 * |s| <= |b| && HasSamples(b, s)
    ensures b[HEADER..HEADER + 2 * |s|] == WavSamples(s)
  {
    if s != [] {
      var n := |s| - 1;
      assert HasSamples(b, s[..n]) by {
        forall k | 0 <= k < n ensures Has16(b, HEADER + 2 * k, s[..n][k]) {
          assert Has16(b, HEADER + 2 * k, s[k]);
        }
      }
      SampleBytes(b, s[..n]);
      assert Has16(b, HEADER + 2 * n, s[n]);
      Field16(b, HEADER + 2 * n, s[n]);
      Glue(b, HEADER, HEADER + 2 * n, HEADER + 2 * |s|);
    }
  }

  /** The file is, byte for byte, the header of the specification followed by the samples, least significant byte
      first. */
  lemma FileIsTheFormat(b: seq<byte>, sampleRate: int, s: seq<int16>)
    requires WavFile(b, sampleRate, s)
    ensures b == WavHeader(sampleRate, |s|) + WavSamples(s)
  {
    hide HasRiff, HasFormat, HasData, HasSamples, WavSamples, Le16, Le32, Ascii;
    assert b[0..44] == WavHeader(sampleRate, |s|) by { HeaderBytes(b, sampleRate, |s|); }
    SampleBytes(b, s);
    Glue(b, 0, 44, |b|);
    assert b[0..|b|] == b;
  }

  lemma HeaderBytes(b: seq<byte>, sampleRate: int, n: nat)
    requires |b| >= HEADER && HasHeader(b, sampleRate, n)
    ensures b[0..44] == WavHeader(sampleRate, n)
  {
    hide HasRiff, HasFormat, HasData, Le16, Le32, Ascii;
    RiffBytes(b, n);
    FormatBytes(b, sampleRate);
    DataBytes(b, n);
    Glue(b, 0, 12, 36);
    Glue(b, 0, 36, 44);
  }
}
