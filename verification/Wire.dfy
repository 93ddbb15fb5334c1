/** The continuity frame on the wire (internal/continuity/wire.go): a four-byte
    length, a fixed header and the payload, all integers big endian. */
module Wire {
  import opened Arithmetic

  type Byte = b: int | 0 <= b < 256

  const MAX_PAYLOAD: nat := 65507
  const HEADER_SIZE: nat := 25
  const FIRST_KIND: nat := 1
  const LAST_KIND: nat := 13
  const TWO64: nat := 0x1_0000_0000_0000_0000

  datatype Frame = Frame(kind: nat, flow: nat, offset: nat, value: nat, data: seq<Byte>) {

    /** A frame whose fields fit their Go types. */
    predicate Typed() {
      kind < 256 && flow < TWO64 && offset < TWO64 && value < TWO64
    }

    predicate Valid() {
      Typed() && FIRST_KIND <= kind <= LAST_KIND && |data| <= MAX_PAYLOAD
    }
  }

  // ----- big-endian integers of any width

  function Power(width: nat): (r: nat)
    ensures r > 0
  {
    if width == 0 then 1 else 256 * Power(width - 1)
  }

  function Put(n: nat, width: nat): (r: seq<Byte>)
    ensures |r| == width
  {
    if width == 0 then [] else Put(n / 256, width - 1) + [n % 256]
  }

  /** Big endian: byte i of the field is the digit of weight 256 to the power of
      the bytes that follow it. */
  lemma {:induction false} PutDigits(n: nat, width: nat, i: nat)
    requires i < width
    ensures Put(n, width)[i] == n / Power(width - 1 - i) % 256
  {
    if i == width - 1 {
      assert Power(0) == 1;
    } else {
      PutDigits(n / 256, width - 1, i);
      Shifted(n, Power(width - 2 - i));
    }
  }

  function Get(s: seq<Byte>): nat {
    if s == [] then 0 else Get(s[..|s| - 1]) * 256 + s[|s| - 1]
  }

  lemma {:induction false} GetPut(n: nat, width: nat)
    requires n < Power(width)
    ensures Get(Put(n, width)) == n
  {
    if width > 0 {
      GetPut(n / 256, width - 1);
      assert Put(n, width)[..width - 1] == Put(n / 256, width - 1);
    }
  }

  lemma {:induction false} PutGet(s: seq<Byte>)
    ensures Put(Get(s), |s|) == s
    ensures Get(s) < Power(|s|)
  {
    if s != [] {
      PutGet(s[..|s| - 1]);
      assert s == s[..|s| - 1] + [s[|s| - 1]];
    }
  }

  lemma Widths()
    ensures Power(1) == 256 && Power(4) == 0x1_0000_0000 && Power(8) == TWO64
  {
    assert Power(2) == 0x1_0000;
    assert Power(3) == 0x100_0000;
    assert Power(4) == 0x1_0000_0000;
    assert Power(6) == 0x1_0000_0000_0000;
  }

  // ----- encoding

  function Header(f: Frame): (h: seq<Byte>)
    ensures |h| == 4 + HEADER_SIZE
  {
    Put(HEADER_SIZE + |f.data|, 4) + Put(f.kind, 1) + Put(f.flow, 8) + Put(f.offset, 8) + Put(f.value, 8)
  }

  function Encode(f: Frame): seq<Byte> {
    Header(f) + f.data
  }

  function EncodeAll(fs: seq<Frame>): seq<Byte> {
    if fs == [] then [] else Encode(fs[0]) + EncodeAll(fs[1..])
  }

  // ----- decoding

  datatype Result = Ok(frame: Frame, rest: seq<Byte>) | Truncated | BadSize | BadKind

  function Decode(s: seq<Byte>): Result {
    if |s| < 4 then Truncated else
      var n := Get(s[..4]);
      if n < HEADER_SIZE || n > HEADER_SIZE + MAX_PAYLOAD then BadSize
      else if |s| < 4 + HEADER_SIZE then Truncated
      else
        var kind := Get(s[4..5]);
        if kind < FIRST_KIND || kind > LAST_KIND then BadKind
        else if |s| < 4 + n then Truncated
        else Ok(Frame(kind, Get(s[5..13]), Get(s[13..21]), Get(s[21..29]), s[29..4 + n]), s[4 + n..])
  }

  /** Frames until the bytes run out or stop making sense. */
  function DecodeAll(s: seq<Byte>): seq<Frame>
    decreases |s|
  {
    match Decode(s)
    case Ok(f, rest) => if |rest| < |s| then [f] + DecodeAll(rest) else []
    case _ => []
  }

  lemma HeaderFields(f: Frame, rest: seq<Byte>)
    ensures var s := Encode(f) + rest;
            && s[..4] == Put(HEADER_SIZE + |f.data|, 4)
            && s[4..5] == Put(f.kind, 1)
            && s[5..13] == Put(f.flow, 8)
            && s[13..21] == Put(f.offset, 8)
            && s[21..29] == Put(f.value, 8)
            && s[29..29 + |f.data|] == f.data
            && s[29 + |f.data|..] == rest
  {
  }

  /** Decoding the encoding of a valid frame gives it back, whatever follows. */
  lemma DecodeEncode(f: Frame, rest: seq<Byte>)
    requires f.Valid()
    ensures Decode(Encode(f) + rest) == Ok(f, rest)
  {
    HeaderFields(f, rest);
    Widths();
    GetPut(HEADER_SIZE + |f.data|, 4);
    GetPut(f.kind, 1);
    GetPut(f.flow, 8);
    GetPut(f.offset, 8);
    GetPut(f.value, 8);
  }

  lemma Field(s: seq<Byte>, i: nat, j: nat)
    requires i <= j <= |s|
    ensures Put(Get(s[i..j]), j - i) == s[i..j] && Get(s[i..j]) < Power(j - i)
  {
    PutGet(s[i..j]);
  }

  lemma Pieces(s: seq<Byte>)
    requires |s| >= 29
    ensures s[..29] == s[0..4] + s[4..5] + s[5..13] + s[13..21] + s[21..29]
  {
  }

  lemma HeaderDecoded(s: seq<Byte>, f: Frame)
    requires |s| >= 29 && HEADER_SIZE + |f.data| == Get(s[0..4])
    requires f.kind == Get(s[4..5]) && f.flow == Get(s[5..13]) && f.offset == Get(s[13..21]) && f.value == Get(s[21..29])
    ensures Header(f) == s[..29] && f.Typed()
  {
    Widths();
    Field(s, 0, 4);
    Field(s, 4, 5);
    Field(s, 5, 13);
    Field(s, 13, 21);
    Field(s, 21, 29);
    Pieces(s);
  }

  lemma Join(s: seq<Byte>, n: nat)
    requires 29 <= n <= |s|
    ensures s[..29] + s[29..n] + s[n..] == s
  {
  }

  /** Any bytes the decoder accepts are the encoding of the frame it returns. */
  lemma EncodeDecode(s: seq<Byte>)
    requires Decode(s).Ok?
    ensures Decode(s).frame.Valid()
    ensures Encode(Decode(s).frame) + Decode(s).rest == s
  {
    assert s[0..4] == s[..4];
    HeaderDecoded(s, Decode(s).frame);
    Join(s, 4 + Get(s[..4]));
  }

  /** A cut-off frame is never mistaken for another frame or for an error. */
  lemma PrefixIsTruncated(f: Frame, k: nat)
    requires f.Valid() && k < |Encode(f)|
    ensures Decode(Encode(f)[..k]) == Truncated
  {
    HeaderFields(f, []);
    var s, p := Encode(f) + [], Encode(f)[..k];
    assert s == Encode(f);
    Widths();
    GetPut(HEADER_SIZE + |f.data|, 4);
    GetPut(f.kind, 1);
    if k >= 4 { assert p[..4] == s[..4]; }
    if k >= 29 { assert p[4..5] == s[4..5]; }
  }

  /** A stream of frames, followed by a cut-off one, decodes to the frames. */
  lemma {:induction false} DecodeEncodeAll(fs: seq<Frame>, rest: seq<Byte>)
    requires forall i :: 0 <= i < |fs| ==> fs[i].Valid()
    requires Decode(rest) == Truncated
    ensures DecodeAll(EncodeAll(fs) + rest) == fs
  {
    if fs == [] {
      assert EncodeAll(fs) + rest == rest;
    } else {
      var tail := EncodeAll(fs[1..]) + rest;
      assert EncodeAll(fs) + rest == Encode(fs[0]) + tail;
      DecodeEncode(fs[0], tail);
      DecodeEncodeAll(fs[1..], rest);
    }
  }

  // ----- the writer and reader loops

  /** A connection: each call moves as many bytes as it likes, possibly none. */
  class Conn {
    var sent: seq<Byte>
    var incoming: seq<Byte>

    constructor (incoming: seq<Byte>)
      ensures sent == [] && this.incoming == incoming
    {
      sent := [];
      this.incoming := incoming;
    }

    method Write(b: seq<Byte>) returns (n: nat, ok: bool)
      modifies this`sent
      ensures n <= |b| && sent == old(sent) + b[..n]
    {
      n :| 0 <= n <= |b|;
      ok := *;
      sent := sent + b[..n];
    }

    /** Blocks until at least one byte is there or the stream has ended. */
    method Read(max: nat) returns (b: seq<Byte>)
      requires max > 0
      modifies this`incoming
      ensures |b| <= max && old(incoming) == b + incoming
      ensures b == [] ==> old(incoming) == []
    {
      var n: nat := 0;
      if |incoming| > 0 {
        n :| 0 < n <= max && n <= |incoming|;
      }
      b := incoming[..n];
      incoming := incoming[n..];
    }

    method WriteAll(b: seq<Byte>) returns (ok: bool)
      modifies this`sent
      ensures ok ==> sent == old(sent) + b
      ensures old(sent) <= sent <= old(sent) + b
    {
      var left := b;
      while |left| > 0
        invariant |left| <= |b| && left == b[|b| - |left|..]
        invariant sent == old(sent) + b[..|b| - |left|]
        decreases |left|
      {
        var n, good := Write(left);
        if n > 0 {
          left := left[n..];
        }
        if !good {
          return false;
        }
        if n == 0 {
          return false;
        }
      }
      ok := true;
    }

    method WriteFrame(f: Frame) returns (ok: bool)
      requires f.Typed()
      modifies this`sent
      ensures |f.data| > MAX_PAYLOAD ==> !ok && sent == old(sent)
      ensures ok ==> sent == old(sent) + Encode(f)
      ensures old(sent) <= sent <= old(sent) + Encode(f)
    {
      if |f.data| > MAX_PAYLOAD {
        return false;
      }
      ok := WriteAll(Header(f));
      if ok {
        assert old(sent) + Header(f) + f.data == old(sent) + Encode(f);
        ok := WriteAll(f.data);
      }
    }

    method ReadFull(n: nat) returns (b: seq<Byte>)
      modifies this`incoming
      ensures old(incoming) == b + incoming
      ensures |b| == n || (|b| < n && incoming == [])
    {
      b := [];
      while |b| < n
        invariant |b| <= n && old(incoming) == b + incoming
        decreases n - |b|
      {
        var more := Read(n - |b|);
        if more == [] {
          return;
        }
        b := b + more;
      }
    }

    /** What the frame reader returns is what Decode finds at the front of the
        stream, however the bytes were split between reads. */
    method ReadFrame() returns (r: Result)
      modifies this`incoming
      ensures r == Decode(old(incoming))
      ensures r.Ok? ==> incoming == r.rest
    {
      ghost var s := incoming;
      var size := ReadFull(4);
      if |size| < 4 {
        return Truncated;
      }
      assert size == s[..4];
      var n := Get(size);
      if n < HEADER_SIZE || n > HEADER_SIZE + MAX_PAYLOAD {
        return BadSize;
      }
      var h := ReadFull(HEADER_SIZE);
      if |h| < HEADER_SIZE {
        return Truncated;
      }
      assert h == s[4..29];
      assert h[0..1] == s[4..5] && h[1..9] == s[5..13] && h[9..17] == s[13..21] && h[17..25] == s[21..29];
      var kind := Get(h[0..1]);
      if kind < FIRST_KIND || kind > LAST_KIND {
        return BadKind;
      }
      var data := ReadFull(n - HEADER_SIZE);
      if |data| < n - HEADER_SIZE {
        return Truncated;
      }
      assert data == s[29..4 + n] && incoming == s[4 + n..];
      r := Ok(Frame(kind, Get(h[1..9]), Get(h[9..17]), Get(h[17..25]), data), incoming);
    }
  }
}
