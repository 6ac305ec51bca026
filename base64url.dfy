/** The base64 text handling of the OPAQUE login script: `_b64encode` strips
    the '=' padding off the URL- and filename-safe encoding of section 5 of
    RFC 4648, and `_b64decode` puts it back before decoding. The decoding
    itself is not modelled. */
module Base64Url {

  type Byte = x: int | 0 <= x < 256

  /** The 6-bit value `v` as a symbol of the URL- and filename-safe alphabet:
      A-Z, a-z, 0-9, '-', '_'. The padding character is not among them, and
      neither are the '+' and '/' of the standard alphabet. */
  function Symbol(v: int): (c: char)
    requires 0 <= v < 64
    ensures c != '=' && c != '+' && c != '/'
  {
    if v < 26 then ('A' as int + v) as char
    else if v < 52 then ('a' as int + (v - 26)) as char
    else if v < 62 then ('0' as int + (v - 52)) as char
    else if v == 62 then '-'
    else '_'
  }

  /** `base64.urlsafe_b64encode(data)` as text: each group of three bytes
      becomes four symbols, and a last group of one or two bytes becomes two
      or three symbols padded with '=' to four characters. */
  function Encode(data: seq<Byte>): (r: string)
    ensures |r| == 4 * ((|data| + 2) / 3)
    decreases |data|
  {
    if |data| == 0 then ""
    else if |data| == 1 then
      [Symbol(data[0] / 4), Symbol(data[0] % 4 * 16), '=', '=']
    else if |data| == 2 then
      [Symbol(data[0] / 4), Symbol(data[0] % 4 * 16 + data[1] / 16), Symbol(data[1] % 16 * 4), '=']
    else
      [Symbol(data[0] / 4), Symbol(data[0] % 4 * 16 + data[1] / 16),
       Symbol(data[1] % 16 * 4 + data[2] / 64), Symbol(data[2] % 64)]
      + Encode(data[3..])
  }

  /** How many '=' the encoding of `n` bytes ends with. */
  function PadCount(n: nat): (p: nat)
    ensures p < 3
    ensures (n + p) % 3 == 0
  {
    (3 - n % 3) % 3
  }

  /** The encoding is symbols followed by exactly `PadCount` '=' characters. */
  lemma {:induction false} EncodeShape(data: seq<Byte>)
    ensures PadCount(|data|) <= |Encode(data)|
    ensures forall i :: 0 <= i < |Encode(data)| - PadCount(|data|) ==> Encode(data)[i] != '='
    ensures forall i :: |Encode(data)| - PadCount(|data|) <= i < |Encode(data)| ==> Encode(data)[i] == '='
    decreases |data|
  {
    if |data| >= 3 {
      var rest := data[3..];
      EncodeShape(rest);
      var e := Encode(data);
      var head := e[..4];
      assert e == head + Encode(rest);
      assert PadCount(|data|) == PadCount(|rest|);
      forall i | 0 <= i < |e| - PadCount(|data|)
        ensures e[i] != '='
      {
        if i >= 4 {
          assert e[i] == Encode(rest)[i - 4];
        }
      }
      forall i | |e| - PadCount(|data|) <= i < |e|
        ensures e[i] == '='
      {
        assert e[i] == Encode(rest)[i - 4];
      }
    }
  }

  /** `s.rstrip(c)`: `s` without the run of `c` at its end. */
  function RStrip(s: string, c: char): (r: string)
    ensures |r| <= |s| && r == s[..|r|]
    ensures r == [] || r[|r| - 1] != c
    ensures forall i :: |r| <= i < |s| ==> s[i] == c
    decreases |s|
  {
    if |s| > 0 && s[|s| - 1] == c then RStrip(s[..|s| - 1], c) else s
  }

  /** A string made of non-`c` characters followed by a run of `c` loses
      exactly that run. */
  lemma {:induction false} RStripRun(s: string, c: char, q: nat)
    requires q <= |s|
    requires forall i :: 0 <= i < q ==> s[i] != c
    requires forall i :: q <= i < |s| ==> s[i] == c
    ensures RStrip(s, c) == s[..q]
    decreases |s|
  {
    if q < |s| {
      var t := s[..|s| - 1];
      RStripRun(t, c, q);
      assert t[..q] == s[..q];
    }
  }

  /** Stripping '=' off the encoding removes exactly its padding. */
  lemma StripRemovesPadding(data: seq<Byte>)
    ensures RStrip(Encode(data), '=') == Encode(data)[..|Encode(data)| - PadCount(|data|)]
  {
    EncodeShape(data);
    RStripRun(Encode(data), '=', |Encode(data)| - PadCount(|data|));
  }

  /** `_b64encode(data)`: the URL-safe encoding with its padding stripped. The
      result holds no '=' at all, and it is shorter than the padded encoding
      by exactly the padding. */
  function EncodeUnpadded(data: seq<Byte>): (r: string)
    ensures '=' !in r
    ensures |r| == |Encode(data)| - PadCount(|data|)
    ensures r == Encode(data)[..|r|]
  {
    StripRemovesPadding(data);
    EncodeShape(data);
    RStrip(Encode(data), '=')
  }

  /** `n` copies of `c`. */
  function Repeat(c: char, n: nat): (r: string)
    ensures |r| == n && forall i :: 0 <= i < n ==> r[i] == c
  {
    seq(n, _ => c)
  }

  /** The padding step of `_b64decode`: `data + '=' * (-len(data) % 4)`. Python's
      `%` floors and Dafny's is Euclidean; for the divisor 4 they agree. The
      result has a length divisible by 4, begins with `data` and adds at most
      three '='; input of such a length comes back unchanged. */
  function RestorePadding(data: string): (r: string)
    ensures |r| % 4 == 0
    ensures |data| <= |r| < |data| + 4
    ensures r[..|data|] == data
    ensures forall i :: |data| <= i < |r| ==> r[i] == '='
    ensures |data| % 4 == 0 ==> r == data
  {
    data + Repeat('=', (-|data|) % 4)
  }

  /** Restoring the padding undoes stripping it: `_b64decode` hands the decoder
      exactly the padded URL-safe encoding that `_b64encode` started from. */
  lemma {:induction false} PaddingRoundTrip(data: seq<Byte>)
    ensures RestorePadding(EncodeUnpadded(data)) == Encode(data)
  {
    var e := Encode(data);
    var u := EncodeUnpadded(data);
    var p := PadCount(|data|);
    var k := (|data| + 2) / 3;
    assert |u| == 4 * k - p;
    assert (-|u|) % 4 == p by {
      assert -|u| == p + 4 * (-k);
    }
    EncodeShape(data);
    var r := RestorePadding(u);
    assert |r| == |e|;
    forall i | 0 <= i < |e|
      ensures r[i] == e[i]
    {
      if i < |u| {
        assert r[i] == r[..|u|][i];
      }
    }
  }
}
