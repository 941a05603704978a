/** The ISO-8859-1 (Latin-1) codec: a string encodes exactly when every
    character is at most U+00FF, one byte per character; any other
    character is an encoding error. */
module Latin1 {
  import opened Common

  type Byte = b: int | 0 <= b < 256

  ghost predicate Encodable(s: string) {
    forall i :: 0 <= i < |s| ==> s[i] as int < 256
  }

  /** Encodes `s`, or `None` when some character lies outside Latin-1. */
  function Encode(s: string): (r: Option<seq<Byte>>)
    ensures r.Some? <==> Encodable(s)
    ensures r.Some? ==> |r.value| == |s|
    ensures r.Some? ==> forall i :: 0 <= i < |s| ==> r.value[i] == s[i] as int
    decreases |s|
  {
    if s == [] then Some([])
    else if s[0] as int >= 256 then None
    else
      match Encode(s[1..])
      case None => None
      case Some(rest) => Some([s[0] as int as Byte] + rest)
  }

  /** Decodes bytes back to the characters U+0000 .. U+00FF. */
  function Decode(b: seq<Byte>): (s: string)
    ensures |s| == |b|
    ensures forall i :: 0 <= i < |b| ==> s[i] as int == b[i]
  {
    seq(|b|, i requires 0 <= i < |b| => b[i] as char)
  }

  /** Decoding inverts encoding. */
  lemma DecodeEncode(s: string)
    requires Encodable(s)
    ensures Encode(s).Some? && Decode(Encode(s).value) == s
  {
    var d := Decode(Encode(s).value);
    assert forall i :: 0 <= i < |s| ==> d[i] == s[i];
  }
}
