/**
  The A-law encoder and the RTP pcap writer: aivoicemail/sipp/pcap.py.

  The decoder is written from section 3 of ITU-T G.711, the packet reader from the pcap record layout, section 3.1 of
  RFC 791, RFC 768 and section 5.1 of RFC 3550; neither looks at the encoder or the writer.
*/
module Pcap {
  import opened Common

  type Byte = n: int | 0 <= n < 256

  const SPP := 160
  const PTIME_MS := 20

  // ---- A-law ----

  type Nibble = n: int | 0 <= n < 16

  /** `n ^ 0x5`: bits 0 and 2 inverted. */
  function InvertNibble(n: Nibble): Nibble {
    n + (if n % 2 == 1 then -1 else 1) + (if (n / 4) % 2 == 1 then -4 else 4)
  }

  /** `b ^ 0x55`: every other bit inverted. */
  function InvertEvenBits(b: Byte): Byte {
    16 * InvertNibble(b / 16) + InvertNibble(b % 16)
  }

  lemma InvertNibbleTwice(n: Nibble)
    ensures InvertNibble(InvertNibble(n)) == n
  {
  }

  lemma InvertTwice(b: Byte)
    ensures InvertEvenBits(InvertEvenBits(b)) == b
  {
    InvertNibbleTwice(b / 16);
    InvertNibbleTwice(b % 16);
    var h: int := InvertNibble(b / 16);
    var l: int := InvertNibble(b % 16);
    assert (16 * h + l) / 16 == h && (16 * h + l) % 16 == l;
  }

  /** `n.bit_length()`. */
  function BitLength(n: nat): nat {
    if n == 0 then 0 else 1 + BitLength(n / 2)
  }

  /** The 13-bit magnitude the code is made from: `min(|sample|, 32767) >> 3`. */
  function Magnitude(sample: int): (m: nat)
    ensures m < 4096
  {
    var m := if sample < 0 then -sample - 1 else sample;
    (if m > 32767 then 32767 else m) / 8
  }

  /** `alaw` before the sign bit and the inversion. */
  function Code(m: nat): int {
    if m < 32 then m / 2
    else
      var exp := BitLength(m) - 5;
      if exp < 0 then 0 else exp * 16 + (m / Pow2(exp)) % 16
  }

  /** `alaw`. */
  method Alaw(sample: int) returns (b: Byte)
    ensures b == Encode(sample)
  {
    var sign := if sample >= 0 then 0x80 else 0;
    var s := sample;
    if s < 0 {
      s := -s - 1;
    }
    s := (if s > 32767 then 32767 else s) / 8;
    var code;
    if s < 32 {
      code := s / 2;
    } else {
      var exp := BitLength(s) - 5;
      Segment(s);
      code := exp * 16 + (s / Pow2(exp)) % 16;
    }
    assert code == Code(Magnitude(sample));
    CodeFits(s);
    b := InvertEvenBits(code + sign);
  }

  function Encode(sample: int): Byte {
    CodeFits(Magnitude(sample));
    InvertEvenBits(Code(Magnitude(sample)) + (if sample >= 0 then 0x80 else 0))
  }

  /** The segment a magnitude of 32 and more falls in. */
  lemma Segment(m: nat)
    requires 32 <= m < 4096
    ensures 6 <= BitLength(m) <= 12
    ensures var e := BitLength(m) - 5; 16 * Pow2(e) <= m < 32 * Pow2(e) && 1 <= e <= 7
  {
    var l := BitLength(m);
    BitLengthBounds(m);
    LengthInRange(m, l);
    Pow2Five(l - 5);
    assert (l - 5) + 4 == l - 1 && (l - 5) + 5 == l;
  }

  lemma LengthInRange(m: nat, l: nat)
    requires l >= 1 && Pow2(l - 1) <= m < Pow2(l) && 32 <= m < 4096
    ensures 6 <= l <= 12
  {
    assert Pow2(5) == 32 && Pow2(12) == 4096 by { Powers(); }
    if l < 6 { Pow2Grows(l, 5); }
    if l > 12 { Pow2Grows(12, l - 1); }
  }

  lemma Powers()
    ensures Pow2(1) == 2 && Pow2(2) == 4 && Pow2(3) == 8 && Pow2(4) == 16 && Pow2(5) == 32 && Pow2(6) == 64
    ensures Pow2(7) == 128 && Pow2(8) == 256 && Pow2(12) == 4096
  {
  }

  lemma Pow2Five(e: nat)
    ensures Pow2(e + 5) == 32 * Pow2(e) && Pow2(e + 4) == 16 * Pow2(e)
  {
    assert Pow2(e + 2) == 4 * Pow2(e);
    assert Pow2(e + 4) == 4 * Pow2(e + 2);
  }

  lemma {:induction false} BitLengthBounds(n: nat)
    requires n > 0
    ensures BitLength(n) >= 1 && Pow2(BitLength(n) - 1) <= n < Pow2(BitLength(n))
  {
    if n > 1 {
      BitLengthBounds(n / 2);
    }
  }

  lemma CodeFits(m: nat)
    requires m < 4096
    ensures 0 <= Code(m) < 128
  {
    if m >= 32 { Segment(m); }
  }

  /** Segment and interval number of a code word, section 3 of ITU-T G.711 (16-bit scale). */
  function StepSize(code: int): int {
    if code < 32 then 16 else 16 * Pow2(code / 16 - 1)
  }

  /** The decoder output for a code word without sign: the middle of its quantising interval. */
  function Middle(code: int): int {
    if code < 16 then code * 16 + 8
    else (code % 16 + 16) * StepSize(code) + StepSize(code) / 2
  }

  /** Half a byte with its even bits inverted, as the standard transmits it. */
  const EVEN_INVERTED: seq<nat> := [5, 4, 7, 6, 1, 0, 3, 2, 13, 12, 15, 14, 9, 8, 11, 10]

  lemma InvertsEvenBits(b: Byte)
    ensures 16 * EVEN_INVERTED[b / 16] + EVEN_INVERTED[b % 16] == InvertEvenBits(b)
  {
    assert forall n: Nibble :: EVEN_INVERTED[n] == InvertNibble(n);
  }

  /** The A-law decoder. */
  function Decode(b: Byte): int {
    var c := 16 * EVEN_INVERTED[b / 16] + EVEN_INVERTED[b % 16];
    if c >= 128 then Middle(c - 128) else -Middle(c)
  }

  function Abs(x: int): int {
    if x < 0 then -x else x
  }

  /** A magnitude lies in the quantising interval its code names. */
  lemma InInterval(m: nat)
    requires m < 4096
    ensures var c := Code(m); var step := StepSize(c);
      Middle(c) - step / 2 <= 8 * m && 8 * m + 7 < Middle(c) + step / 2 && step % 16 == 0
  {
    Powers();
    if m >= 32 {
      Segment(m);
      var e := BitLength(m) - 5;
      var p := Pow2(e);
      var q := m / p;
      DivBounds(m, p);
      CodeOfSegment(m, e, q);
      Scale(p, q);
    }
  }

  /** The step and the middle of a code in a segment above the first. */
  lemma CodeOfSegment(m: nat, e: nat, q: nat)
    requires 32 <= m < 4096 && 1 <= e <= 7 && BitLength(m) == e + 5 && q == m / Pow2(e) && 16 <= q < 32
    ensures StepSize(Code(m)) == 8 * Pow2(e) && Middle(Code(m)) == q * (8 * Pow2(e)) + 4 * Pow2(e)
    ensures StepSize(Code(m)) % 16 == 0
  {
    CodeIs(m, e, q);
    StepOfSegment(e, q - 16);
  }

  lemma CodeIs(m: nat, e: nat, q: nat)
    requires 32 <= m && e >= 1 && BitLength(m) == e + 5 && q == m / Pow2(e) && 16 <= q < 32
    ensures Code(m) == e * 16 + (q - 16)
  {
  }

  lemma StepOfSegment(e: nat, r: nat)
    requires 1 <= e <= 7 && r < 16
    ensures StepSize(e * 16 + r) == 8 * Pow2(e) && StepSize(e * 16 + r) % 16 == 0 && (e * 16 + r) % 16 == r
  {
    Digits16(e, r);
    Multiple16(Pow2(e - 1));
    assert Pow2(e) == 2 * Pow2(e - 1);
    if e == 1 {
      assert Pow2(1) == 2;
    }
  }

  lemma Digits16(e: nat, r: nat)
    requires r < 16
    ensures (e * 16 + r) / 16 == e && (e * 16 + r) % 16 == r
  {
  }

  lemma Multiple16(x: int)
    ensures (16 * x) % 16 == 0
  {
  }

  lemma Scale(p: int, q: int)
    ensures q * (8 * p) == 8 * (p * q)
  {
  }

  lemma DivBounds(m: nat, p: nat)
    requires p > 0
    ensures p * (m / p) <= m < p * (m / p) + p
    ensures 16 * p <= m < 32 * p ==> 16 <= m / p < 32
  {
  }

  /** Steps of 16 up to magnitude 64, and of no more than half the magnitude beyond. */
  lemma StepIsSmall(m: nat)
    requires m < 4096
    ensures StepSize(Code(m)) == 16 || StepSize(Code(m)) <= m / 2
  {
    Powers();
    if m >= 32 {
      Segment(m);
      var e := BitLength(m) - 5;
      DivBounds(m, Pow2(e));
      CodeOfSegment(m, e, m / Pow2(e));
    }
  }

  /** What the decoder hears is the sample within 8, or within its 32nd part. */
  predicate Near(heard: int, sample: int) {
    Abs(heard - sample) <= 8 || 32 * Abs(heard - sample) <= Abs(sample)
  }

  /** Quantisation: decoding gives every 16-bit sample back within half the step of its interval, and that step is small. */
  lemma QuantisationBound(sample: int)
    requires -32768 <= sample <= 32767
    ensures var c := Code(Magnitude(sample)); Abs(Decode(Encode(sample)) - sample) <= StepSize(c) / 2
    ensures Near(Decode(Encode(sample)), sample)
  {
    var m := Magnitude(sample);
    CodeFits(m);
    InInterval(m);
    StepIsSmall(m);
    var code := Code(m) + (if sample >= 0 then 0x80 else 0);
    InvertTwice(code);
    InvertsEvenBits(InvertEvenBits(code));
  }

  // ---- byte layout ----

  const TWO16 := 0x1_0000
  const TWO32 := 0x1_0000_0000

  function Be16(n: nat): seq<Byte>
    requires n < TWO16
  {
    [n / 256, n % 256]
  }

  function Be32(n: nat): seq<Byte>
    requires n < TWO32
  {
    [n / 0x100_0000, n / TWO16 % 256, n / 256 % 256, n % 256]
  }

  function Le16(n: nat): seq<Byte>
    requires n < TWO16
  {
    [n % 256, n / 256]
  }

  function Le32(n: nat): seq<Byte>
    requires n < TWO32
  {
    [n % 256, n / 256 % 256, n / TWO16 % 256, n / 0x100_0000]
  }

  function GetBe16(b: seq<Byte>, at: nat): (n: nat)
    requires at + 2 <= |b|
    ensures n < TWO16
  {
    (b[at] as int) * 256 + b[at + 1] as int
  }

  function GetBe32(b: seq<Byte>, at: nat): (n: nat)
    requires at + 4 <= |b|
    ensures n < TWO32
  {
    (b[at] as int) * 0x100_0000 + (b[at + 1] as int) * TWO16 + (b[at + 2] as int) * 256 + b[at + 3] as int
  }

  function GetLe32(b: seq<Byte>, at: nat): (n: nat)
    requires at + 4 <= |b|
    ensures n < TWO32
  {
    (b[at + 3] as int) * 0x100_0000 + (b[at + 2] as int) * TWO16 + (b[at + 1] as int) * 256 + b[at] as int
  }

  lemma Split32(n: nat)
    requires n < TWO32
    ensures n == (n / 0x100_0000) * 0x100_0000 + (n / TWO16 % 256) * TWO16 + (n / 256 % 256) * 256 + n % 256
    ensures n / 0x100_0000 < 256
  {
    var q := n / 256;
    var r := q / 256;
    assert n / TWO16 == r && n / 0x100_0000 == r / 256;
  }

  lemma GetBe32After(a: seq<Byte>, n: nat, z: seq<Byte>)
    requires n < TWO32
    ensures |a + Be32(n) + z| == |a| + 4 + |z| && GetBe32(a + Be32(n) + z, |a|) == n
  {
    Split32(n);
    var b := a + Be32(n) + z;
    assert b[|a|] == Be32(n)[0] && b[|a| + 1] == Be32(n)[1] && b[|a| + 2] == Be32(n)[2] && b[|a| + 3] == Be32(n)[3];
  }

  lemma GetLe32After(a: seq<Byte>, n: nat, z: seq<Byte>)
    requires n < TWO32
    ensures |a + Le32(n) + z| == |a| + 4 + |z| && GetLe32(a + Le32(n) + z, |a|) == n
  {
    Split32(n);
    var b := a + Le32(n) + z;
    assert b[|a|] == Le32(n)[0] && b[|a| + 1] == Le32(n)[1] && b[|a| + 2] == Le32(n)[2] && b[|a| + 3] == Le32(n)[3];
  }

  // ---- the writer ----

  const FILE_HEADER: seq<Byte> :=
    Le32(0xA1B2C3D4) + Le16(2) + Le16(4) + Le32(0) + Le32(0) + Le32(65535) + Le32(1)

  function RtpHeader(seq_: nat, ts: nat, ssrc: nat): seq<Byte>
    requires seq_ < TWO16 && ts < TWO32 && ssrc < TWO32
  {
    [0x80, 8] + Be16(seq_) + Be32(ts) + Be32(ssrc)
  }

  function UdpHeader(len: nat): seq<Byte>
    requires len < TWO16
  {
    Be16(6000) + Be16(6000) + Be16(len) + [0, 0]
  }

  function IpHeader(len: nat): seq<Byte>
    requires len < TWO16
  {
    [0x45, 0] + Be16(len) + [0, 0, 0, 0, 64, 17, 0, 0, 127, 0, 0, 1, 127, 0, 0, 1]
  }

  const ETHERNET: seq<Byte> := [0, 0, 0, 0, 0, 0, 0, 0, 0, 0, 0, 0, 8, 0]

  function Frame(i: nat, payload: seq<Byte>, seq0: int, ssrc: nat): seq<Byte>
    requires |payload| == SPP && ssrc < TWO32
  {
    ETHERNET + IpHeader(20 + 8 + 12 + SPP) + UdpHeader(8 + 12 + SPP)
    + RtpHeader((seq0 + i) % TWO16, (i * SPP) % TWO32, ssrc) + payload
  }

  function RecordHeader(i: nat, len: nat): seq<Byte>
    requires i * PTIME_MS / 1000 < TWO32 && len < TWO32
  {
    var t := i * PTIME_MS;
    Le32(t / 1000) + Le32((t % 1000) * 1000) + Le32(len) + Le32(len)
  }

  const FRAME_LENGTH := 14 + 20 + 8 + 12 + SPP

  function Record(i: nat, payload: seq<Byte>, seq0: int, ssrc: nat): seq<Byte>
    requires |payload| == SPP && ssrc < TWO32 && i * PTIME_MS / 1000 < TWO32
  {
    RecordHeader(i, FRAME_LENGTH) + Frame(i, payload, seq0, ssrc)
  }

  function Padded(samples: seq<int>): (r: seq<int>)
    ensures |r| % SPP == 0 && |samples| <= |r| < |samples| + SPP && samples <= r
    ensures forall k | |samples| <= k < |r| :: r[k] == 0
  {
    samples + seq((-|samples|) % SPP, _ => 0)
  }

  function Payload(samples: seq<int>, i: nat): (p: seq<Byte>)
    requires (i + 1) * SPP <= |samples|
    ensures |p| == SPP
  {
    seq<Byte>(SPP, k requires 0 <= k < SPP => Encode(samples[i * SPP + k]))
  }

  function Joined(parts: seq<seq<Byte>>): seq<Byte>
    decreases |parts|
  {
    if parts == [] then [] else Joined(parts[..|parts| - 1]) + parts[|parts| - 1]
  }

  /** The first n records. */
  function Records(samples: seq<int>, n: nat, seq0: int, ssrc: int): (r: seq<seq<Byte>>)
    requires n * SPP <= |samples| && Fits(n, ssrc)
    ensures |r| == n
  {
    if n == 0 then []
    else Records(samples, n - 1, seq0, ssrc) + [Record(n - 1, Payload(samples, n - 1), seq0, ssrc)]
  }

  /** struct.pack refuses an SSRC or a time stamp that does not fit 32 bits. */
  predicate Fits(n: nat, ssrc: int) {
    n > 0 ==> 0 <= ssrc < TWO32 && (n - 1) * PTIME_MS / 1000 < TWO32
  }

  /** `bytes(alaw(v) for v in samples)`. */
  method EncodeAll(samples: seq<int>) returns (audio: seq<Byte>)
    ensures |audio| == |samples| && forall j | 0 <= j < |audio| :: audio[j] == Encode(samples[j])
  {
    audio := [];
    for k := 0 to |samples|
      invariant |audio| == k && forall j | 0 <= j < k :: audio[j] == Encode(samples[j])
    {
      var b := Alaw(samples[k]);
      audio := audio + [b];
    }
  }

  lemma PayloadIsSlice(audio: seq<Byte>, samples: seq<int>, i: nat)
    requires |audio| == |samples| && (forall j | 0 <= j < |audio| :: audio[j] == Encode(samples[j]))
    requires (i + 1) * SPP <= |samples|
    ensures audio[i * SPP..(i + 1) * SPP] == Payload(samples, i)
  {
  }

  /** The file after its first n packets. */
  function FileOf(samples: seq<int>, n: nat, seq0: int, ssrc: int): seq<Byte>
    requires n * SPP <= |samples| && Fits(n, ssrc)
  {
    FILE_HEADER + Joined(Records(samples, n, seq0, ssrc))
  }

  lemma FileGrows(samples: seq<int>, n: nat, seq0: int, ssrc: int)
    requires (n + 1) * SPP <= |samples| && Fits(n + 1, ssrc) && Fits(n, ssrc)
    ensures FileOf(samples, n + 1, seq0, ssrc) ==
            FileOf(samples, n, seq0, ssrc) + Record(n, Payload(samples, n), seq0, ssrc)
  {
  }

  /** `write_pcap`: the bytes of the file and the number of packets, or the struct.error. */
  method WritePcap(samples: seq<int>, seq0: int, ssrc: int) returns (r: Result<seq<Byte>, ()>, npkts: nat)
    ensures npkts == (|samples| + SPP - 1) / SPP && npkts * SPP == |Padded(samples)|
    ensures r.Success? <==>
              samples == [] || (0 <= ssrc < 0x1_0000_0000 && 20 * (npkts - 1) / 1000 < 0x1_0000_0000)
    ensures r.Success? ==> Fits(npkts, ssrc) && r.value == FileOf(Padded(samples), npkts, seq0, ssrc)
  {
    var padded := Padded(samples);
    var audio := EncodeAll(padded);
    npkts := |audio| / SPP;
    var file := FILE_HEADER;
    for i := 0 to npkts
      invariant Fits(i, ssrc) && file == FileOf(padded, i, seq0, ssrc)
    {
      var payload := audio[i * SPP..(i + 1) * SPP];
      PayloadIsSlice(audio, padded, i);
      if !(0 <= ssrc < TWO32) || i * PTIME_MS / 1000 >= TWO32 {
        LaterIsWorse(i, npkts, ssrc);
        return Failure(()), npkts;
      }
      FileGrows(padded, i, seq0, ssrc);
      file := file + Record(i, payload, seq0, ssrc);
    }
    return Success(file), npkts;
  }

  lemma LaterIsWorse(i: nat, n: nat, ssrc: int)
    requires i < n && (!(0 <= ssrc < TWO32) || i * PTIME_MS / 1000 >= TWO32)
    ensures !Fits(n, ssrc)
  {
  }

  // ---- the reader ----

  /** An address and a port. */
  datatype Socket = Socket(address: seq<Byte>, port: nat)

  datatype Packet = Packet(seconds: nat, micros: nat, source: Socket, target: Socket, payloadType: int, marker: bool,
                           number: nat, timestamp: nat, ssrc: nat, payload: seq<Byte>)

  /** One captured frame as an RTP packet: Ethernet carrying IPv4 without options, fragments or an expired time to live,
      UDP without a checksum, and RTP version 2 without padding, extension or contributing sources; all lengths must add
      up. */
  function ReadFrame(seconds: nat, micros: nat, f: seq<Byte>): Option<Packet> {
    if |f| < 54 || f[12..14] != [8, 0] then None
    else
      var ip := f[14..34];
      var udp := f[34..42];
      var rtp := f[42..54];
      if ip[0] != 0x45 || GetBe16(ip, 2) != |f| - 14 || GetBe16(ip, 6) != 0 || ip[8] == 0 || ip[9] != 17 then None
      else if GetBe16(udp, 4) != |f| - 34 || GetBe16(udp, 6) != 0 || rtp[0] != 0x80 then None
      else Some(Packet(seconds, micros, Socket(ip[12..16], GetBe16(udp, 0)), Socket(ip[16..20], GetBe16(udp, 2)),
                       rtp[1] % 128, rtp[1] >= 128, GetBe16(rtp, 2), GetBe32(rtp, 4), GetBe32(rtp, 8), f[54..]))
  }

  function ReadRecords(data: seq<Byte>): Option<seq<Packet>>
    decreases |data|
  {
    if data == [] then Some([])
    else if |data| < 16 || GetLe32(data, 8) != GetLe32(data, 12) || |data| < 16 + GetLe32(data, 8) then None
    else
      var n := GetLe32(data, 8);
      var p := ReadFrame(GetLe32(data, 0), GetLe32(data, 4), data[16..16 + n]);
      var rest := ReadRecords(data[16 + n..]);
      if p.Some? && rest.Some? then Some([p.value] + rest.value) else None
  }

  /** A little-endian pcap file, version 2.4, of Ethernet frames with microsecond time stamps in UTC, whose snapshot length
      cuts no frame of IPv4. */
  predicate HeaderOk(data: seq<Byte>) {
    && |data| >= 24
    && GetLe32(data, 0) == 0xA1B2C3D4
    && data[4..6] == [2, 0] && data[6..8] == [4, 0]
    && GetLe32(data, 8) == 0
    && GetLe32(data, 16) >= 0xFFFF
    && GetLe32(data, 20) == 1
  }

  function ReadPcap(data: seq<Byte>): Option<seq<Packet>> {
    if HeaderOk(data) then ReadRecords(data[24..]) else None
  }

  // ---- round trip ----

  const LOOPBACK: Socket := Socket([127, 0, 0, 1], 6000)

  function Expected(samples: seq<int>, i: nat, seq0: int, ssrc: nat): Packet
    requires (i + 1) * SPP <= |samples|
  {
    Packet(20 * i / 1000, (20 * i % 1000) * 1000, LOOPBACK, LOOPBACK, 8, false, (seq0 + i) % TWO16, (160 * i) % TWO32,
           ssrc, Payload(samples, i))
  }

  lemma FrameReads(i: nat, payload: seq<Byte>, seq0: int, ssrc: nat, seconds: nat, micros: nat)
    requires |payload| == SPP && ssrc < TWO32
    ensures |Frame(i, payload, seq0, ssrc)| == FRAME_LENGTH
    ensures ReadFrame(seconds, micros, Frame(i, payload, seq0, ssrc)) ==
            Some(Packet(seconds, micros, LOOPBACK, LOOPBACK, 8, false, (seq0 + i) % TWO16, (160 * i) % TWO32, ssrc, payload))
  {
    var f := Frame(i, payload, seq0, ssrc);
    var ip := IpHeader(200);
    var udp := UdpHeader(180);
    var ts := (i * SPP) % TWO32;
    var rtp := RtpHeader((seq0 + i) % TWO16, ts, ssrc);
    assert f[12..14] == [8, 0];
    assert f[14..34] == ip;
    assert f[34..42] == udp;
    assert f[42..54] == rtp;
    assert f[54..] == payload;
    IpReads();
    UdpReads();
    RtpReads((seq0 + i) % TWO16, ts, ssrc);
  }

  lemma IpReads()
    ensures var ip := IpHeader(200);
      && |ip| == 20 && ip[0] == 0x45 && GetBe16(ip, 2) == 200 && GetBe16(ip, 6) == 0 && ip[8] > 0 && ip[9] == 17
      && ip[12..16] == LOOPBACK.address && ip[16..20] == LOOPBACK.address
  {
    assert IpHeader(200) == [0x45, 0, 0, 200, 0, 0, 0, 0, 64, 17, 0, 0, 127, 0, 0, 1, 127, 0, 0, 1];
  }

  lemma UdpReads()
    ensures var udp := UdpHeader(180);
      |udp| == 8 && GetBe16(udp, 0) == 6000 && GetBe16(udp, 2) == 6000 && GetBe16(udp, 4) == 180 && GetBe16(udp, 6) == 0
  {
    assert UdpHeader(180) == [23, 112, 23, 112, 0, 180, 0, 0];
  }

  lemma RtpReads(n: nat, ts: nat, ssrc: nat)
    requires n < TWO16 && ts < TWO32 && ssrc < TWO32
    ensures var r := RtpHeader(n, ts, ssrc);
      && |r| == 12 && r[0] == 0x80 && r[1] == 8 && GetBe16(r, 2) == n && GetBe32(r, 4) == ts && GetBe32(r, 8) == ssrc
  {
    var r := RtpHeader(n, ts, ssrc);
    var head: seq<Byte> := [0x80, 8];
    assert r == (head + Be16(n)) + Be32(ts) + Be32(ssrc);
    GetBe32After(head + Be16(n), ts, Be32(ssrc));
    GetBe32After(head + Be16(n) + Be32(ts), ssrc, []);
    assert r == (head + Be16(n) + Be32(ts)) + Be32(ssrc) + [];
    assert r[2] == Be16(n)[0] && r[3] == Be16(n)[1];
  }

  lemma HeaderReads(i: nat, rest: seq<Byte>)
    requires i * PTIME_MS / 1000 < TWO32
    ensures var d := RecordHeader(i, FRAME_LENGTH) + rest;
      && |RecordHeader(i, FRAME_LENGTH)| == 16
      && GetLe32(d, 0) == 20 * i / 1000 && GetLe32(d, 4) == (20 * i % 1000) * 1000
      && GetLe32(d, 8) == FRAME_LENGTH && GetLe32(d, 12) == FRAME_LENGTH
  {
    var t := i * PTIME_MS;
    var a := Le32(t / 1000);
    var b := Le32((t % 1000) * 1000);
    var c := Le32(FRAME_LENGTH);
    var d := RecordHeader(i, FRAME_LENGTH) + rest;
    assert d == [] + a + (b + c + c + rest);
    GetLe32After([], t / 1000, b + c + c + rest);
    assert d == a + b + (c + c + rest);
    GetLe32After(a, (t % 1000) * 1000, c + c + rest);
    assert d == (a + b) + c + (c + rest);
    GetLe32After(a + b, FRAME_LENGTH, c + rest);
    assert d == (a + b + c) + c + rest;
    GetLe32After(a + b + c, FRAME_LENGTH, rest);
  }

  type Reader = seq<Byte> -> Option<seq<Packet>>

  /** Reading `part` gives the packet p and goes on with what follows. */
  ghost predicate Carries(read: Reader, part: seq<Byte>, p: Packet) {
    forall rest: seq<Byte> {:trigger read(part + rest)} | read(rest).Some? :: read(part + rest) == Some([p] + read(rest).value)
  }

  lemma RecordCarries(samples: seq<int>, i: nat, seq0: int, ssrc: nat)
    requires (i + 1) * SPP <= |samples| && ssrc < TWO32 && i * PTIME_MS / 1000 < TWO32
    ensures Carries(ReadRecords, Record(i, Payload(samples, i), seq0, ssrc), Expected(samples, i, seq0, ssrc))
  {
    var part := Record(i, Payload(samples, i), seq0, ssrc);
    forall rest: seq<Byte> | ReadRecords(rest).Some?
      ensures ReadRecords(part + rest) == Some([Expected(samples, i, seq0, ssrc)] + ReadRecords(rest).value)
    {
      RecordReads(samples, i, seq0, ssrc, rest);
    }
  }

  lemma RecordReads(samples: seq<int>, i: nat, seq0: int, ssrc: nat, rest: seq<Byte>)
    requires (i + 1) * SPP <= |samples| && ssrc < TWO32 && i * PTIME_MS / 1000 < TWO32
    ensures var tail := ReadRecords(rest);
      ReadRecords(Record(i, Payload(samples, i), seq0, ssrc) + rest) ==
      if tail.Some? then Some([Expected(samples, i, seq0, ssrc)] + tail.value) else None
  {
    var frame := Frame(i, Payload(samples, i), seq0, ssrc);
    var head := RecordHeader(i, FRAME_LENGTH);
    var data := Record(i, Payload(samples, i), seq0, ssrc) + rest;
    assert data == head + (frame + rest);
    HeaderReads(i, frame + rest);
    FrameReads(i, Payload(samples, i), seq0, ssrc, 20 * i / 1000, (20 * i % 1000) * 1000);
    assert data[16..16 + FRAME_LENGTH] == frame;
    assert data[16 + FRAME_LENGTH..] == rest;
  }

  /** Reading records one after the other, with any reader. */
  lemma {:induction false} JoinedReads(read: Reader, parts: seq<seq<Byte>>, packets: seq<Packet>, rest: seq<Byte>)
    requires |parts| == |packets| && (forall i | 0 <= i < |parts| :: Carries(read, parts[i], packets[i]))
    requires read(rest).Some?
    ensures read(Joined(parts) + rest) == Some(packets + read(rest).value)
    decreases |parts|
  {
    if parts == [] {
      assert [] + rest == rest;
      assert packets + read(rest).value == read(rest).value;
    } else {
      var n := |parts| - 1;
      var tail := read(rest).value;
      assert Carries(read, parts[n], packets[n]);
      JoinedReads(read, parts[..n], packets[..n], parts[n] + rest);
      assert Joined(parts) + rest == Joined(parts[..n]) + (parts[n] + rest);
      assert packets + tail == packets[..n] + ([packets[n]] + tail);
    }
  }

  function ExpectedAll(samples: seq<int>, n: nat, seq0: int, ssrc: nat): (r: seq<Packet>)
    requires n * SPP <= |samples|
    ensures |r| == n && forall i | 0 <= i < n :: r[i] == Expected(samples, i, seq0, ssrc)
  {
    if n == 0 then [] else ExpectedAll(samples, n - 1, seq0, ssrc) + [Expected(samples, n - 1, seq0, ssrc)]
  }

  lemma {:induction false} RecordsCarry(samples: seq<int>, n: nat, seq0: int, ssrc: nat)
    requires n * SPP <= |samples| && Fits(n, ssrc) && ssrc < TWO32
    ensures forall i | 0 <= i < n ::
              Carries(ReadRecords, Records(samples, n, seq0, ssrc)[i], ExpectedAll(samples, n, seq0, ssrc)[i])
    decreases n
  {
    if n > 0 {
      RecordsCarry(samples, n - 1, seq0, ssrc);
      RecordCarries(samples, n - 1, seq0, ssrc);
    }
  }

  lemma TakeDrop<T>(a: seq<T>, b: seq<T>)
    ensures (a + b)[..|a|] == a && (a + b)[|a|..] == b
  {
  }

  /** The writer's header is one. */
  lemma FileHeaderReads(rest: seq<Byte>)
    ensures |FILE_HEADER| == 24 && HeaderOk(FILE_HEADER + rest)
  {
    var head := Le32(0xA1B2C3D4) + Le16(2) + Le16(4) + Le32(0);
    var tail := Le32(0) + Le32(65535) + Le32(1);
    assert FILE_HEADER + rest == head + (tail + rest);
    HeadReads(tail + rest);
    TailReads(head, rest);
  }

  lemma HeadReads(rest: seq<Byte>)
    ensures var head := Le32(0xA1B2C3D4) + Le16(2) + Le16(4) + Le32(0); var d := head + rest;
      |head| == 12 && GetLe32(d, 0) == 0xA1B2C3D4 && d[4..6] == [2, 0] && d[6..8] == [4, 0] && GetLe32(d, 8) == 0
  {
    var version := Le16(2) + Le16(4);
    var d := Le32(0xA1B2C3D4) + Le16(2) + Le16(4) + Le32(0) + rest;
    assert d == [] + Le32(0xA1B2C3D4) + (version + Le32(0) + rest);
    GetLe32After([], 0xA1B2C3D4, version + Le32(0) + rest);
    assert d == (Le32(0xA1B2C3D4) + version) + Le32(0) + rest;
    GetLe32After(Le32(0xA1B2C3D4) + version, 0, rest);
  }

  lemma TailReads(head: seq<Byte>, rest: seq<Byte>)
    requires |head| == 12
    ensures var tail := Le32(0) + Le32(65535) + Le32(1); var d := head + (tail + rest);
      |tail| == 12 && GetLe32(d, 16) == 65535 && GetLe32(d, 20) == 1
  {
    var d := head + (Le32(0) + Le32(65535) + Le32(1) + rest);
    assert d == (head + Le32(0)) + Le32(65535) + (Le32(1) + rest);
    GetLe32After(head + Le32(0), 65535, Le32(1) + rest);
    assert d == (head + Le32(0) + Le32(65535)) + Le32(1) + rest;
    GetLe32After(head + Le32(0) + Le32(65535), 1, rest);
  }

  lemma FileReads(samples: seq<int>, n: nat, seq0: int, ssrc: nat)
    requires n * SPP <= |samples| && Fits(n, ssrc) && ssrc < TWO32
    ensures ReadPcap(FileOf(samples, n, seq0, ssrc)) == Some(ExpectedAll(samples, n, seq0, ssrc))
  {
    var parts := Records(samples, n, seq0, ssrc);
    FileHeaderReads(Joined(parts));
    TakeDrop(FILE_HEADER, Joined(parts));
    RecordsCarry(samples, n, seq0, ssrc);
    JoinedReads(ReadRecords, parts, ExpectedAll(samples, n, seq0, ssrc), []);
    assert Joined(parts) + [] == Joined(parts);
    assert ExpectedAll(samples, n, seq0, ssrc) + [] == ExpectedAll(samples, n, seq0, ssrc);
  }

  lemma PayloadAt(samples: seq<int>, k: nat)
    requires k < |samples| && |samples| % SPP == 0
    ensures k / SPP < |samples| / SPP && (k / SPP + 1) * SPP <= |samples|
    ensures Payload(samples, k / SPP)[k % SPP] == Encode(samples[k])
  {
  }

  lemma CaptureTime(i: nat)
    ensures (20 * i % 1000) * 1000 < 1_000_000
    ensures 1000 * (20 * i / 1000) + (20 * i % 1000) * 1000 / 1000 == 20 * i
  {
  }

  /** Round trip of the headers: the reader gets back ceil(n / 160) packets; packet i has sequence number (s + i) mod
      2^16, time stamp 160 * i mod 2^32, capture time 20 * i ms, 160 payload bytes of type 8, and goes from port 6000 of
      127.0.0.1 to itself. */
  lemma HeadersRoundTrip(samples: seq<int>, seq0: int, ssrc: nat, n: nat)
    requires n * SPP == |Padded(samples)| && ssrc < TWO32 && Fits(n, ssrc)
    ensures var r := ReadPcap(FileOf(Padded(samples), n, seq0, ssrc));
      && r.Some? && |r.value| == n && n == (|samples| + 159) / 160
      && (forall i | 0 <= i < n :: var p := r.value[i];
            && p.number == (seq0 + i) % 0x1_0000 && p.timestamp == (160 * i) % 0x1_0000_0000 && p.ssrc == ssrc
            && p.payloadType == 8 && !p.marker && |p.payload| == 160
            && p.source == p.target == Socket([127, 0, 0, 1], 6000)
            && p.micros < 1_000_000 && 1000 * p.seconds + p.micros / 1000 == 20 * i)
  {
    var padded := Padded(samples);
    FileReads(padded, n, seq0, ssrc);
    forall i | 0 <= i < n
      ensures (20 * i % 1000) * 1000 < 1_000_000
      ensures 1000 * (20 * i / 1000) + (20 * i % 1000) * 1000 / 1000 == 20 * i
    {
      CaptureTime(i);
    }
  }

  /** The sample at index k of the file, decoded by the reader. */
  function Heard(packets: seq<Packet>, k: nat): int
    requires k / 160 < |packets| && |packets[k / 160].payload| == 160
  {
    Decode(packets[k / 160].payload[k % 160])
  }

  lemma PayloadOfPacket(samples: seq<int>, seq0: int, ssrc: nat, n: nat, i: nat)
    requires n * SPP == |samples| && ssrc < TWO32 && Fits(n, ssrc) && i < n
    ensures var r := ReadPcap(FileOf(samples, n, seq0, ssrc));
      && r.Some? && |r.value| == n && (i + 1) * SPP <= |samples| && r.value[i].payload == Payload(samples, i)
  {
    FileReads(samples, n, seq0, ssrc);
    assert (i + 1) * SPP <= n * SPP;
    assert ExpectedAll(samples, n, seq0, ssrc)[i] == Expected(samples, i, seq0, ssrc);
  }

  lemma HeardIs(samples: seq<int>, seq0: int, ssrc: nat, n: nat, k: nat)
    requires n * SPP == |samples| && ssrc < TWO32 && Fits(n, ssrc) && k < |samples|
    ensures var r := ReadPcap(FileOf(samples, n, seq0, ssrc));
      && r.Some? && k / 160 < |r.value| && |r.value[k / 160].payload| == 160
      && r.value[k / 160].payload[k % 160] == Encode(samples[k])
  {
    PayloadAt(samples, k);
    PayloadOfPacket(samples, seq0, ssrc, n, k / 160);
  }

  /** Round trip of the audio: every 16-bit sample comes back within half a quantiser step, and is followed by fewer than
      160 samples of padding that decode to the smallest positive value. */
  lemma AudioRoundTrip(samples: seq<int>, seq0: int, ssrc: nat, n: nat, k: nat)
    requires n * SPP == |Padded(samples)| && ssrc < TWO32 && Fits(n, ssrc) && k < n * 160
    requires k < |samples| ==> -32768 <= samples[k] <= 32767
    ensures var r := ReadPcap(FileOf(Padded(samples), n, seq0, ssrc));
      && r.Some? && k / 160 < |r.value| && |r.value[k / 160].payload| == 160
      && (k < |samples| ==> Abs(Heard(r.value, k) - samples[k]) <= StepSize(Code(Magnitude(samples[k]))) / 2
                            && Near(Heard(r.value, k), samples[k]))
      && (k >= |samples| ==> Heard(r.value, k) == 8 && k - |samples| < 159)
  {
    HeardIs(Padded(samples), seq0, ssrc, n, k);
    SilenceDecodes();
    if k < |samples| {
      assert Padded(samples)[k] == samples[k];
      QuantisationBound(samples[k]);
    }
  }

  lemma SilenceDecodes()
    ensures Decode(Encode(0)) == 8
  {
    CodeFits(0);
    assert Encode(0) == 0xD5;
  }
}
