// The base64 codecs of the client bundle (base64-js, arrayBufferToBase64 of
// sc-formatter, base64clean of `buffer`) and the unpadded URL-safe form in which
// auth.go writes tokens (sections 4 and 5 of RFC 4648).
module Base64 {
  import opened Prelude
  import Utf8

  type sextet = x: int | 0 <= x < 64

  // The alphabets of sections 4 and 5.
  function Lookup(i: sextet, url: bool): char {
    if i < 26 then ('A' as int + i) as char
    else if i < 52 then ('a' as int + i - 26) as char
    else if i < 62 then ('0' as int + i - 52) as char
    else if i == 62 then (if url then '-' else '+')
    else (if url then '_' else '/')
  }

  predicate InAlphabet(c: char) {
    'A' <= c <= 'Z' || 'a' <= c <= 'z' || '0' <= c <= '9' || c in "+/-_"
  }

  // revLookup, which reads both alphabets; an undefined entry counts as 0 in a
  // JavaScript shift.
  function RevLookup(c: char): sextet {
    if 'A' <= c <= 'Z' then c as int - 'A' as int
    else if 'a' <= c <= 'z' then c as int - 'a' as int + 26
    else if '0' <= c <= '9' then c as int - '0' as int + 52
    else if c == '+' || c == '-' then 62
    else if c == '/' || c == '_' then 63
    else 0
  }

  lemma RevLookupInverse(i: sextet, url: bool)
    ensures RevLookup(Lookup(i, url)) == i && InAlphabet(Lookup(i, url)) && Lookup(i, url) != '='
  {
  }

  // ---- the encodings -------------------------------------------------------

  // Three bytes as four symbols.
  function EncodeBlock(a: byte, b: byte, c: byte, url: bool): seq<char> {
    [Lookup(a / 4, url), Lookup(a % 4 * 16 + b / 16, url), Lookup(b % 16 * 4 + c / 64, url), Lookup(c % 64, url)]
  }

  function EncodeBlocks(b: seq<byte>, url: bool): (r: seq<char>)
    requires |b| % 3 == 0
    ensures |r| % 4 == 0
  {
    if b == [] then [] else EncodeBlock(b[0], b[1], b[2], url) + EncodeBlocks(b[3..], url)
  }

  // The last one or two bytes.
  function EncodeTail(b: seq<byte>, url: bool): seq<char>
    requires |b| < 3
  {
    if |b| == 0 then []
    else if |b| == 1 then EncodeBlock(b[0], 0, 0, url)[..2]
    else EncodeBlock(b[0], b[1], 0, url)[..3]
  }

  function Whole(b: seq<byte>): (n: nat)
    ensures n <= |b| && n % 3 == 0 && |b| - n < 3
  {
    |b| - |b| % 3
  }

  // base64.RawURLEncoding of Go for url = true, without padding.
  function EncodeRaw(b: seq<byte>, url: bool): seq<char> {
    EncodeBlocks(b[..Whole(b)], url) + EncodeTail(b[Whole(b)..], url)
  }

  function Padding(n: nat): string {
    if n % 3 == 1 then "==" else if n % 3 == 2 then "=" else ""
  }

  // Section 4 of RFC 4648.
  function Standard(b: seq<byte>): string {
    EncodeRaw(b, false) + Padding(|b|)
  }

  lemma {:induction false} EncodeBlocksAppend(a: seq<byte>, b: seq<byte>, url: bool)
    requires |a| % 3 == 0 && |b| % 3 == 0
    ensures EncodeBlocks(a + b, url) == EncodeBlocks(a, url) + EncodeBlocks(b, url)
  {
    hide EncodeBlock;
    if a == [] {
      assert a + b == b;
    } else {
      assert (a + b)[0] == a[0] && (a + b)[1] == a[1] && (a + b)[2] == a[2];
      EncodeBlocksAppend(a[3..], b, url);
      assert (a + b)[3..] == a[3..] + b;
    }
  }

  lemma OneBlock(a: byte, b: byte, c: byte, url: bool)
    ensures EncodeBlocks([a, b, c], url) == EncodeBlock(a, b, c, url)
  {
    assert [a, b, c][3..] == [];
  }

  // ---- the decoding --------------------------------------------------------

  function DecodeBlock(s: string): seq<byte>
    requires |s| == 4
  {
    var tmp := RevLookup(s[0]) * 0x4_0000 + RevLookup(s[1]) * 0x1000 + RevLookup(s[2]) * 0x40 + RevLookup(s[3]);
    [tmp / 0x1_0000 % 256, tmp / 0x100 % 256, tmp % 256]
  }

  function DecodeBlocks(s: string): (r: seq<byte>)
    requires |s| % 4 == 0
    ensures |r| == |s| / 4 * 3
  {
    if s == [] then [] else DecodeBlock(s[..4]) + DecodeBlocks(s[4..])
  }

  function PlaceHolders(s: string): nat {
    if |s| >= 2 && s[|s| - 2] == '=' then 2 else if |s| >= 1 && s[|s| - 1] == '=' then 1 else 0
  }

  function DecodeTail(s: string, placeHolders: nat): (r: seq<byte>)
    requires |s| == 4 && 1 <= placeHolders <= 2
    ensures |r| == 3 - placeHolders
  {
    if placeHolders == 2 then
      [(RevLookup(s[0]) * 4 + RevLookup(s[1]) / 16) % 256]
    else
      var tmp := RevLookup(s[0]) * 0x400 + RevLookup(s[1]) * 0x10 + RevLookup(s[2]) / 4;
      [tmp / 0x100 % 256, tmp % 256]
  }

  // toByteArray; None is the exception for a length that is no multiple of four.
  function Decode(s: string): Option<seq<byte>> {
    if |s| % 4 != 0 then None
    else if s == [] || PlaceHolders(s) == 0 then Some(DecodeBlocks(s))
    else Some(DecodeBlocks(s[..|s| - 4]) + DecodeTail(s[|s| - 4..], PlaceHolders(s)))
  }

  lemma BlockRoundTrip(a: byte, b: byte, c: byte, url: bool)
    ensures DecodeBlock(EncodeBlock(a, b, c, url)) == [a, b, c]
  {
    hide Lookup, RevLookup;
    RevLookupInverse(a / 4, url);
    RevLookupInverse(a % 4 * 16 + b / 16, url);
    RevLookupInverse(b % 16 * 4 + c / 64, url);
    RevLookupInverse(c % 64, url);
    Regroup(a, b, c);
    SplitBytes(a, b, c);
  }

  lemma Regroup(a: byte, b: byte, c: byte)
    ensures a / 4 * 0x4_0000 + (a % 4 * 16 + b / 16) * 0x1000 + (b % 16 * 4 + c / 64) * 0x40 + c % 64
         == a * 0x1_0000 + b * 0x100 + c
  {
    var a1: int, a0: int := a / 4, a % 4;
    var b1: int, b0: int := b / 16, b % 16;
    var c1: int, c0: int := c / 64, c % 64;
    assert a == 4 * a1 + a0 && b == 16 * b1 + b0 && c == 64 * c1 + c0;
  }

  lemma SplitBytes(a: byte, b: byte, c: byte)
    ensures
      var tmp: int := a * 0x1_0000 + b * 0x100 + c;
      tmp / 0x1_0000 % 256 == a && tmp / 0x100 % 256 == b && tmp % 256 == c
  {
    var tmp: int := a * 0x1_0000 + b * 0x100 + c;
    assert tmp / 0x100 == a * 0x100 + b;
  }

  lemma {:induction false} BlocksRoundTrip(b: seq<byte>, url: bool)
    requires |b| % 3 == 0
    ensures DecodeBlocks(EncodeBlocks(b, url)) == b
  {
    hide EncodeBlock, DecodeBlock;
    if b != [] {
      var first := EncodeBlock(b[0], b[1], b[2], url);
      EncodeBlockSize(b[0], b[1], b[2], url);
      Append(first, EncodeBlocks(b[3..], url));
      BlockRoundTrip(b[0], b[1], b[2], url);
      BlocksRoundTrip(b[3..], url);
      assert b == [b[0], b[1], b[2]] + b[3..];
    }
  }

  lemma EncodeBlockSize(a: byte, b: byte, c: byte, url: bool)
    ensures |EncodeBlock(a, b, c, url)| == 4
  {
  }

  // The padded tail decodes to the last bytes, in either alphabet.
  lemma TailRoundTrip(b: seq<byte>, url: bool)
    requires 0 < |b| < 3
    ensures
      var t := EncodeTail(b, url) + Padding(|b|);
      |t| == 4 && PlaceHolders(t) == 3 - |b| && DecodeTail(t, 3 - |b|) == b
  {
    hide Lookup, RevLookup;
    var b1: byte := if |b| == 2 then b[1] else 0;
    RevLookupInverse(b[0] / 4, url);
    RevLookupInverse(b[0] % 4 * 16 + b1 / 16, url);
    RevLookupInverse(b1 % 16 * 4 + 0 / 64, url);
    if |b| == 2 { TailBytes(b[0], b1); }
  }

  lemma TailBytes(a: byte, b: byte)
    ensures
      var tmp: int := a / 4 * 0x400 + (a % 4 * 16 + b / 16) * 0x10 + (b % 16 * 4) / 4;
      tmp / 0x100 % 256 == a && tmp % 256 == b
  {
    var a1: int, a0: int := a / 4, a % 4;
    var b1: int, b0: int := b / 16, b % 16;
    assert a == 4 * a1 + a0 && b == 16 * b1 + b0;
    assert a1 * 0x400 + (a0 * 16 + b1) * 0x10 + b0 == a * 0x100 + b;
  }

  lemma {:induction false} BlocksAlphabet(b: seq<byte>, url: bool)
    requires |b| % 3 == 0
    ensures forall c | c in EncodeBlocks(b, url) :: InAlphabet(c) && c != '='
  {
    hide Lookup, InAlphabet;
    if b != [] {
      BlockAlphabet(b[0], b[1], b[2], url);
      BlocksAlphabet(b[3..], url);
    }
  }

  lemma BlockAlphabet(a: byte, b: byte, c: byte, url: bool)
    ensures forall x | x in EncodeBlock(a, b, c, url) :: InAlphabet(x) && x != '='
  {
    hide Lookup, InAlphabet;
    RevLookupInverse(a / 4, url);
    RevLookupInverse(a % 4 * 16 + b / 16, url);
    RevLookupInverse(b % 16 * 4 + c / 64, url);
    RevLookupInverse(c % 64, url);
  }

  lemma RawAlphabet(b: seq<byte>, url: bool)
    ensures forall c | c in EncodeRaw(b, url) :: InAlphabet(c) && c != '='
  {
    hide EncodeBlock, InAlphabet;
    BlocksAlphabet(b[..Whole(b)], url);
    var t := b[Whole(b)..];
    if |t| > 0 { BlockAlphabet(t[0], if |t| == 2 then t[1] else 0, 0, url); }
    BlockAlphabet(0, 0, 0, url);
    TailAlphabet(t, url);
  }

  lemma TailAlphabet(t: seq<byte>, url: bool)
    requires |t| < 3
    ensures forall c | c in EncodeTail(t, url) :: InAlphabet(c) && c != '='
  {
    hide EncodeBlock, InAlphabet;
    if |t| > 0 {
      var b1: byte := if |t| == 2 then t[1] else 0;
      BlockAlphabet(t[0], b1, 0, url);
    }
  }

  // Padding makes either alphabet decode back.
  lemma PaddedRoundTrip(b: seq<byte>, url: bool)
    ensures Decode(EncodeRaw(b, url) + Padding(|b|)) == Some(b)
  {
    hide Decode, EncodeRaw;
    if Whole(b) == |b| { WholeRoundTrip(b, url); } else { RestRoundTrip(b, url); }
  }

  lemma WholeRoundTrip(b: seq<byte>, url: bool)
    requires Whole(b) == |b|
    ensures Decode(EncodeRaw(b, url) + Padding(|b|)) == Some(b)
  {
    hide EncodeBlocks, EncodeTail, DecodeBlocks, DecodeTail, InAlphabet;
    assert b[..|b|] == b;
    var blocks := EncodeBlocks(b, url);
    BlocksRoundTrip(b, url);
    TailEmpty(b[|b|..], url);
    BlocksAlphabet(b, url);
    assert EncodeRaw(b, url) + Padding(|b|) == blocks;
    if blocks != [] { assert blocks[|blocks| - 2] in blocks && blocks[|blocks| - 1] in blocks; }
  }

  lemma RestRoundTrip(b: seq<byte>, url: bool)
    requires Whole(b) != |b|
    ensures Decode(EncodeRaw(b, url) + Padding(|b|)) == Some(b)
  {
    hide EncodeBlocks, EncodeTail, DecodeBlocks, DecodeTail;
    var n := Whole(b);
    var blocks, tail := EncodeBlocks(b[..n], url), EncodeTail(b[n..], url);
    BlocksRoundTrip(b[..n], url);
    assert b == b[..n] + b[n..];
    TailRoundTrip(b[n..], url);
    var t := tail + Padding(|b[n..]|);
    assert Padding(|b|) == Padding(|b[n..]|);
    assert EncodeRaw(b, url) + Padding(|b|) == blocks + t;
    Append(blocks, t);
    assert PlaceHolders(blocks + t) == PlaceHolders(t);
  }

  lemma TailEmpty(b: seq<byte>, url: bool)
    requires b == []
    ensures EncodeTail(b, url) == []
  {
  }

  // toByteArray(fromByteArray(b)) = b
  lemma StandardRoundTrip(b: seq<byte>)
    ensures Decode(Standard(b)) == Some(b)
  {
    PaddedRoundTrip(b, false);
  }

  // The test vectors of section 10 of RFC 4648, and both symbols in which the alphabet of
  // its section 5 differs.
  lemma Vectors()
    ensures Standard([]) == "" && Standard([102]) == "Zg==" && Standard([102, 111]) == "Zm8="
    ensures Standard([102, 111, 111]) == "Zm9v" && Standard([102, 111, 111, 98]) == "Zm9vYg=="
    ensures Standard([102, 111, 111, 98, 97]) == "Zm9vYmE=" && Standard([102, 111, 111, 98, 97, 114]) == "Zm9vYmFy"
    ensures EncodeRaw([0xfb, 0xff], false) == "+/8" && EncodeRaw([0xfb, 0xff], true) == "-_8"
  {
    VectorBlocks();
    hide EncodeBlock, EncodeRaw;
    Spelled([], [], [], false);
    Spelled([], [102], [102], false);
    Spelled([], [102, 111], [102, 111], false);
    Spelled([102, 111, 111], [], [102, 111, 111], false);
    Spelled([102, 111, 111], [98], [102, 111, 111, 98], false);
    Spelled([102, 111, 111], [98, 97], [102, 111, 111, 98, 97], false);
    Spelled([], [0xfb, 0xff], [0xfb, 0xff], false);
    Spelled([], [0xfb, 0xff], [0xfb, 0xff], true);
    LongestVector();
  }

  lemma LongestVector()
    ensures EncodeRaw([102, 111, 111, 98, 97, 114], false) == "Zm9vYmFy"
  {
    var a: seq<byte>, b: seq<byte> := [102, 111, 111], [98, 97, 114];
    VectorBlocks();
    hide EncodeBlock;
    OneBlock(102, 111, 111, false);
    OneBlock(98, 97, 114, false);
    EncodeBlocksAppend(a, b, false);
    assert (a + b)[..6] == a + b && (a + b)[6..] == [];
  }

  lemma VectorBlocks()
    ensures EncodeBlock(102, 111, 111, false) == "Zm9v" && EncodeBlock(98, 97, 114, false) == "YmFy"
    ensures EncodeBlock(102, 0, 0, false) == "ZgAA" && EncodeBlock(102, 111, 0, false) == "Zm8A"
    ensures EncodeBlock(98, 0, 0, false) == "YgAA" && EncodeBlock(98, 97, 0, false) == "YmEA"
    ensures EncodeBlock(0xfb, 0xff, 0, false) == "+/8A" && EncodeBlock(0xfb, 0xff, 0, true) == "-_8A"
  {
  }

  // One block at most, and a tail.
  lemma Spelled(block: seq<byte>, tail: seq<byte>, b: seq<byte>, url: bool)
    requires (|block| == 0 || |block| == 3) && |tail| < 3 && b == block + tail
    ensures EncodeRaw(b, url) ==
      (if block == [] then "" else EncodeBlock(block[0], block[1], block[2], url)) + EncodeTail(tail, url)
  {
    assert Whole(b) == |block| && b[..|block|] == block && b[|block|..] == tail;
    if block != [] {
      assert block == [block[0], block[1], block[2]];
      OneBlock(block[0], block[1], block[2], url);
    }
    hide EncodeBlock, EncodeTail;
  }

  // ---- base64clean ---------------------------------------------------------

  function BeforeEquals(s: string): string {
    if s == [] || s[0] == '=' then [] else [s[0]] + BeforeEquals(s[1..])
  }

  // `trim` only drops characters that the filter drops as well.
  function OnlyAlphabet(s: string): string {
    if s == [] then [] else (if InAlphabet(s[0]) then [s[0]] else []) + OnlyAlphabet(s[1..])
  }

  function PadToFour(s: string): string {
    s + (if |s| % 4 == 0 then "" else if |s| % 4 == 3 then "=" else if |s| % 4 == 2 then "==" else "===")
  }

  function Clean(s: string): string {
    var t := OnlyAlphabet(BeforeEquals(s));
    if |t| < 2 then "" else PadToFour(t)
  }

  method Base64Clean(s: string) returns (str: string)
    ensures str == Clean(s)
  {
    str := OnlyAlphabet(BeforeEquals(s));
    if |str| < 2 { return ""; }
    ghost var t := str;
    while |str| % 4 != 0
      invariant t <= str && |str| <= |PadToFour(t)|
      invariant str == PadToFour(t)[..|str|]
      decreases |PadToFour(t)| - |str|
    {
      str := str + "=";
    }
  }

  lemma {:induction false} CleanText(s: string)
    requires forall c | c in s :: InAlphabet(c) && c != '='
    ensures OnlyAlphabet(BeforeEquals(s)) == s
  {
    hide InAlphabet;
    if s != [] {
      assert s[0] in s;
      CleanText(s[1..]);
    }
  }

  lemma RawSize(b: seq<byte>, url: bool)
    ensures |EncodeRaw(b, url)| % 4 == (if |b| % 3 == 0 then 0 else |b| % 3 + 1)
    ensures b != [] ==> |EncodeRaw(b, url)| >= 2
  {
    var blocks, tail := b[..Whole(b)], b[Whole(b)..];
    assert |tail| == |b| % 3;
    TailSize(tail, url);
    hide EncodeBlock, EncodeTail;
    if blocks != [] { EncodeBlockSize(blocks[0], blocks[1], blocks[2], url); }
    hide EncodeBlocks;
    FoursAnd(|EncodeBlocks(blocks, url)|, |EncodeTail(tail, url)|);
  }

  lemma TailSize(tail: seq<byte>, url: bool)
    requires |tail| < 3
    ensures |EncodeTail(tail, url)| == if |tail| == 0 then 0 else |tail| + 1
  {
    hide EncodeBlock;
    if tail != [] { EncodeBlockSize(tail[0], if |tail| == 2 then tail[1] else 0, 0, url); }
  }

  lemma FoursAnd(n: nat, k: nat)
    requires n % 4 == 0 && k < 4
    ensures (n + k) % 4 == k
  {
  }

  // The client's cleaned decoder inverts the unpadded form, URL-safe or not.
  lemma CleanRoundTrip(b: seq<byte>, url: bool)
    ensures Decode(Clean(EncodeRaw(b, url))) == Some(b)
  {
    var s := EncodeRaw(b, url);
    RawAlphabet(b, url);
    CleanText(s);
    RawSize(b, url);
    PaddedRoundTrip(b, url);
    if b == [] {
      assert s == [];
    } else {
      assert PadToFour(s) == s + Padding(|b|);
    }
  }

  // The browser reads exactly the payload text that the Go server signed.
  lemma TokenPayloadReadBack(text: seq<Utf8.unit>)
    requires Utf8.WellFormed(text)
    ensures
      var sent := EncodeRaw(Utf8.ToBytes(text), true);
      Decode(Clean(sent)).Some? && Utf8.Slice(Decode(Clean(sent)).value) == text
  {
    CleanRoundTrip(Utf8.ToBytes(text), true);
    Utf8.StringRoundTrip(text);
  }

  // ---- the loops -----------------------------------------------------------

  function TripletToBase64(num: nat): string {
    [Lookup(num / 0x4_0000 % 64, false), Lookup(num / 0x1000 % 64, false), Lookup(num / 0x40 % 64, false), Lookup(num % 64, false)]
  }

  function Triplet(a: byte, b: byte, c: byte): nat {
    a * 0x1_0000 + b * 0x100 + c
  }

  lemma TripletQuotients(a: byte, b: byte, c: byte)
    ensures Triplet(a, b, c) / 0x40 == 0x400 * a + 4 * b + c / 64
    ensures Triplet(a, b, c) / 0x1000 == 16 * a + b / 16
    ensures Triplet(a, b, c) / 0x4_0000 == a / 4
  {
    var num: int, b1: int, b0: int := Triplet(a, b, c), b / 16, b % 16;
    assert num == 0x1000 * (16 * a + b1) + (0x100 * b0 + c);
  }

  lemma TripletRemainders(a: byte, b: byte, c: byte)
    ensures (0x400 * a + 4 * b + c / 64) % 64 == b % 16 * 4 + c / 64
    ensures (16 * a + b / 16) % 64 == a % 4 * 16 + b / 16
    ensures Triplet(a, b, c) % 64 == c % 64
    ensures a / 4 % 64 == a / 4
  {
    var b1: int, b0: int, a1: int, a0: int := b / 16, b % 16, a / 4, a % 4;
    assert 0x400 * a + 4 * b + c / 64 == 64 * (16 * a + b1) + (4 * b0 + c / 64);
    assert 16 * a + b / 16 == 64 * a1 + (16 * a0 + b1);
  }

  lemma TripletIsBlock(a: byte, b: byte, c: byte)
    ensures TripletToBase64(Triplet(a, b, c)) == EncodeBlock(a, b, c, false)
  {
    hide Lookup, Triplet;
    TripletQuotients(a, b, c);
    TripletRemainders(a, b, c);
  }

  lemma BlocksExtend(b: seq<byte>, i: nat, j: nat, url: bool)
    requires i <= j && j + 3 <= |b| && (j - i) % 3 == 0
    ensures EncodeBlocks(b[i..j + 3], url) == EncodeBlocks(b[i..j], url) + EncodeBlock(b[j], b[j + 1], b[j + 2], url)
  {
    assert b[i..j + 3] == b[i..j] + [b[j], b[j + 1], b[j + 2]];
    EncodeBlocksAppend(b[i..j], [b[j], b[j + 1], b[j + 2]], url);
    OneBlock(b[j], b[j + 1], b[j + 2], url);
  }

  method EncodeChunk(bytes: seq<byte>, start: nat, end: nat) returns (output: string)
    requires start <= end <= |bytes| && (end - start) % 3 == 0
    ensures output == EncodeBlocks(bytes[start..end], false)
  {
    hide EncodeBlocks, EncodeBlock, TripletToBase64;
    output := [];
    var i := start;
    assert bytes[start..start] == [] && EncodeBlocks([], false) == [] by { NoBlocks(); }
    while i < end
      invariant start <= i <= end && (i - start) % 3 == 0
      invariant output == EncodeBlocks(bytes[start..i], false)
    {
      TripletIsBlock(bytes[i], bytes[i + 1], bytes[i + 2]);
      BlocksExtend(bytes, start, i, false);
      output := output + TripletToBase64(Triplet(bytes[i], bytes[i + 1], bytes[i + 2]));
      i := i + 3;
    }
  }

  lemma NoBlocks()
    ensures EncodeBlocks([], false) == []
  {
  }

  const MAX_CHUNK_LENGTH: nat := 16383

  // The chunked encoder computes the standard encoding.
  method FromByteArray(bytes: seq<byte>) returns (output: string)
    ensures output == Standard(bytes)
  {
    hide EncodeBlocks, EncodeTail;
    var len := |bytes|;
    var extraBytes := len % 3;
    var len2 := len - extraBytes;
    var parts := "";
    var i := 0;
    NoBlocks();
    assert bytes[..0] == [];
    while i < len2
      invariant 0 <= i && i % 3 == 0
      invariant parts == EncodeBlocks(bytes[..if i < len2 then i else len2], false)
    {
      var next := if i + MAX_CHUNK_LENGTH > len2 then len2 else i + MAX_CHUNK_LENGTH;
      var chunk := EncodeChunk(bytes, i, next);
      assert bytes[..next] == bytes[..i] + bytes[i..next];
      EncodeBlocksAppend(bytes[..i], bytes[i..next], false);
      parts := parts + chunk;
      i := i + MAX_CHUNK_LENGTH;
    }
    assert parts == EncodeBlocks(bytes[..len2], false);
    var last := EncodeExtra(bytes);
    output := parts + last;
  }

  // The one or two bytes that do not fill a group.
  method EncodeExtra(bytes: seq<byte>) returns (output: string)
    ensures output == EncodeTail(bytes[Whole(bytes)..], false) + Padding(|bytes|)
  {
    hide EncodeBlock, Lookup, Triplet;
    var len := |bytes|;
    output := "";
    if len % 3 == 1 {
      var tmp: int := bytes[len - 1];
      output := [Lookup(tmp / 4, false), Lookup(tmp * 16 % 64, false)] + "==";
      LastByte(bytes[len - 1]);
    } else if len % 3 == 2 {
      var tmp := Triplet(0, bytes[len - 2], bytes[len - 1]);
      LastTwoBytes(bytes[len - 2], bytes[len - 1]);
      output := [Lookup(tmp / 0x400, false), Lookup(tmp / 16 % 64, false), Lookup(tmp * 4 % 64, false)] + "=";
    }
  }

  lemma LastByte(a: byte)
    ensures [Lookup(a / 4, false), Lookup(a * 16 % 64, false)] == EncodeBlock(a, 0, 0, false)[..2]
  {
    assert a * 16 % 64 == a % 4 * 16 + 0 / 16;
  }

  lemma LastTwoBytes(a: byte, b: byte)
    ensures
      var tmp := Triplet(0, a, b);
      && tmp / 0x400 < 64
      && [Lookup(tmp / 0x400, false), Lookup(tmp / 16 % 64, false), Lookup(tmp * 4 % 64, false)] == EncodeBlock(a, b, 0, false)[..3]
  {
    hide Lookup;
    var tmp: int := a * 256 + b;
    assert tmp / 0x400 == a / 4;
    assert tmp / 16 == a * 16 + b / 16;
    assert tmp * 4 % 64 == b % 16 * 4 + 0 / 64;
  }

  // Reading past the end yields undefined, which counts as 0 in a shift.
  function ByteAt(bytes: seq<byte>, i: nat): byte {
    if i < |bytes| then bytes[i] else 0
  }

  function ZeroPadded(bytes: seq<byte>): (r: seq<byte>)
    ensures |r| % 3 == 0
  {
    bytes + (if |bytes| % 3 == 0 then [] else if |bytes| % 3 == 1 then [0, 0] else [0])
  }

  // sc-formatter's arrayBufferToBase64 computes the standard encoding as well.
  method ArrayBufferToBase64(bytes: seq<byte>) returns (base64: string)
    ensures base64 == Standard(bytes)
  {
    hide EncodeBlocks, EncodeBlock;
    var len := |bytes|;
    ghost var padded := ZeroPadded(bytes);
    base64 := "";
    var i := 0;
    NoBlocks();
    assert padded[..0] == [];
    while i < len
      invariant 0 <= i <= |padded| && i % 3 == 0
      invariant base64 == EncodeBlocks(padded[..i], false)
    {
      var a, b, c := ByteAt(bytes, i), ByteAt(bytes, i + 1), ByteAt(bytes, i + 2);
      assert a == padded[i] && b == padded[i + 1] && c == padded[i + 2];
      BlocksExtend(padded, 0, i, false);
      assert padded[0..i] == padded[..i] && padded[0..i + 3] == padded[..i + 3];
      base64 := base64 + Symbols(a, b, c);
      i := i + 3;
    }
    assert padded[..i] == padded;
    ZeroPaddedTail(bytes);
    if len % 3 == 2 {
      base64 := base64[..|base64| - 1] + "=";
    } else if len % 3 == 1 {
      base64 := base64[..|base64| - 2] + "==";
    }
  }

  function Symbols(a: byte, b: byte, c: byte): (r: string)
    ensures r == EncodeBlock(a, b, c, false)
  {
    [Lookup(a / 4, false), Lookup(a % 4 * 16 + b / 16, false), Lookup(b % 16 * 4 + c / 64, false), Lookup(c % 64, false)]
  }

  lemma ZeroPaddedTail(bytes: seq<byte>)
    ensures
      var all, k := EncodeBlocks(ZeroPadded(bytes), false), |Padding(|bytes|)|;
      |all| >= k && all[..|all| - k] == EncodeRaw(bytes, false)
  {
    hide EncodeBlock;
    var n := Whole(bytes);
    var padded, tail := ZeroPadded(bytes), bytes[n..];
    if tail != [] {
      var b1: byte := if |tail| == 2 then tail[1] else 0;
      assert padded == bytes[..n] + [tail[0], b1, 0];
      EncodeBlocksAppend(bytes[..n], [tail[0], b1, 0], false);
      OneBlock(tail[0], b1, 0, false);
      EncodeBlockSize(tail[0], b1, 0, false);
    } else {
      assert padded == bytes == bytes[..n];
    }
  }

  method ToByteArray(b64: string) returns (r: Option<array<byte>>)
    ensures r.Some? == Decode(b64).Some?
    ensures r.Some? ==> fresh(r.value) && r.value[..] == Decode(b64).value
  {
    hide DecodeBlocks, DecodeBlock, DecodeTail;
    var len := |b64|;
    if len % 4 > 0 { return None; }
    var placeHolders := if len == 0 then 0 else PlaceHolders(b64);
    var arr := new byte[len * 3 / 4 - placeHolders](_ => 0);
    var l := if placeHolders > 0 then len - 4 else len;
    var n := ToBlocks(b64, arr, l);
    if placeHolders == 2 {
      arr[n] := DecodeTail(b64[l..], 2)[0];
      assert arr[..] == arr[..n] + [arr[n]];
    } else if placeHolders == 1 {
      var tail := DecodeTail(b64[l..], 1);
      arr[n], arr[n + 1] := tail[0], tail[1];
      assert arr[..] == arr[..n] + [arr[n], arr[n + 1]];
    } else {
      assert b64[..l] == b64 && arr[..] == arr[..n];
    }
    return Some(arr);
  }

  // The loop of toByteArray over the complete groups.
  method ToBlocks(b64: string, arr: array<byte>, l: nat) returns (n: nat)
    requires l <= |b64| && l % 4 == 0 && l / 4 * 3 <= arr.Length
    modifies arr
    ensures n == l / 4 * 3 && arr[..n] == DecodeBlocks(b64[..l])
  {
    hide DecodeBlocks, DecodeBlock;
    var i := 0;
    n := 0;
    NoSymbols();
    assert b64[..0] == [];
    while i < l
      invariant 0 <= i <= l && i % 4 == 0 && n == i / 4 * 3
      invariant arr[..n] == DecodeBlocks(b64[..i])
    {
      var block := DecodeBlock(b64[i..i + 4]);
      DecodeExtend(b64, i);
      DecodeBlockSize(b64[i..i + 4]);
      ghost var done := arr[..n];
      arr[n], arr[n + 1], arr[n + 2] := block[0], block[1], block[2];
      assert arr[..n + 3] == done + block;
      i, n := i + 4, n + 3;
    }
  }

  lemma DecodeBlockSize(s: string)
    requires |s| == 4
    ensures |DecodeBlock(s)| == 3
  {
  }

  lemma NoSymbols()
    ensures DecodeBlocks([]) == []
  {
  }

  lemma {:induction false} DecodeBlocksAppend(a: string, b: string)
    requires |a| % 4 == 0 && |b| % 4 == 0
    ensures DecodeBlocks(a + b) == DecodeBlocks(a) + DecodeBlocks(b)
  {
    hide DecodeBlock, DecodeBlocks;
    FoursSum(|a|, |b|);
    if a == [] {
      assert a + b == b;
      NoSymbols();
    } else {
      FoursSum(|a| - 4, |b|);
      DecodeBlocksAppend(a[4..], b);
      assert (a + b)[..4] == a[..4] && (a + b)[4..] == a[4..] + b;
      DecodeBlocksFirst(a);
      DecodeBlocksFirst(a + b);
    }
  }

  lemma FoursSum(m: nat, n: nat)
    requires m % 4 == 0 && n % 4 == 0
    ensures (m + n) % 4 == 0 && (m >= 4 ==> (m - 4) % 4 == 0)
  {
  }

  lemma DecodeBlocksFirst(s: string)
    requires |s| % 4 == 0 && s != []
    ensures DecodeBlocks(s) == DecodeBlock(s[..4]) + DecodeBlocks(s[4..])
  {
    hide DecodeBlock;
  }

  lemma DecodeExtend(s: string, i: nat)
    requires i + 4 <= |s| && i % 4 == 0
    ensures DecodeBlocks(s[..i + 4]) == DecodeBlocks(s[..i]) + DecodeBlock(s[i..i + 4])
  {
    hide DecodeBlock;
    var block := s[i..i + 4];
    assert s[..i + 4] == s[..i] + block;
    DecodeBlocksAppend(s[..i], block);
    assert block[..4] == block && block[4..] == [];
  }
}
