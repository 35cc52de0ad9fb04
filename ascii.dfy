/** The 'ascii' codec that the protocol uses between text and bytes. */
module Ascii {
  import opened Errors

  newtype byte = b: int | 0 <= b < 256

  predicate IsAscii(s: string) {
    forall i :: 0 <= i < |s| ==> s[i] as int < 128
  }

  predicate AsciiBytes(b: seq<byte>) {
    forall i :: 0 <= i < |b| ==> b[i] < 128
  }

  lemma AsciiAppend(s: string, t: string)
    ensures IsAscii(s + t) <==> IsAscii(s) && IsAscii(t)
  {
    if IsAscii(s + t) {
      assert forall i :: 0 <= i < |s| ==> s[i] == (s + t)[i];
      assert forall i :: 0 <= i < |t| ==> t[i] == (s + t)[|s| + i];
    }
  }

  /** The bytes of an ASCII string, one per character. */
  function Bytes(s: string): (b: seq<byte>)
    requires IsAscii(s)
    ensures |b| == |s| && AsciiBytes(b)
    ensures forall i :: 0 <= i < |s| ==> b[i] as int == s[i] as int
  {
    seq(|s|, i requires 0 <= i < |s| => s[i] as int as byte)
  }

  /** `s.encode('ascii')`: fails on any character beyond 127. */
  function Encode(s: string): (r: Option<seq<byte>>)
    ensures r.Some? <==> IsAscii(s)
  {
    if IsAscii(s) then Some(Bytes(s)) else None
  }

  lemma EncodeAscii(s: string)
    requires IsAscii(s)
    ensures Encode(s) == Some(Bytes(s))
  {
  }

  /** `b.decode('ascii')`: fails on any byte beyond 127. */
  function Decode(b: seq<byte>): (r: Option<string>)
    ensures r.Some? <==> AsciiBytes(b)
    ensures r.Some? ==> |r.value| == |b| && forall i :: 0 <= i < |b| ==> r.value[i] as int == b[i] as int
  {
    if AsciiBytes(b) then Some(seq(|b|, i requires 0 <= i < |b| => b[i] as int as char)) else None
  }

  /** Decoding undoes encoding... */
  lemma DecodeEncode(s: string)
    requires IsAscii(s)
    ensures Decode(Bytes(s)) == Some(s)
  {
    assert Decode(Bytes(s)).value == s;
  }

  /** ... and encoding undoes decoding. */
  lemma EncodeDecode(b: seq<byte>)
    requires AsciiBytes(b)
    ensures IsAscii(Decode(b).value) && Bytes(Decode(b).value) == b
  {
  }

  /** Encoding works character by character, so it distributes over concatenation. */
  lemma BytesAppend(s: string, t: string)
    requires IsAscii(s) && IsAscii(t)
    ensures IsAscii(s + t) && Bytes(s + t) == Bytes(s) + Bytes(t)
  {
    assert Bytes(s + t) == Bytes(s) + Bytes(t);
  }
}
