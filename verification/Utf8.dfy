// The UTF-8 codec of the bundled `buffer` module (utf8ToBytes and utf8Slice).
// A JavaScript string is its sequence of 16-bit code units.
module Utf8 {
  import opened Prelude

  type unit = x: int | 0 <= x < 0x1_0000

  predicate IsLead(u: int) { 0xD800 <= u < 0xDC00 }
  predicate IsTrail(u: int) { 0xDC00 <= u < 0xE000 }
  predicate IsSurrogate(u: int) { IsLead(u) || IsTrail(u) }

  // Unicode scalar values (section 3 of RFC 3629 excludes the surrogates).
  type scalar = x: int | 0 <= x < 0x11_0000 && !IsSurrogate(x)

  const REPLACEMENT: scalar := 0xFFFD

  function Utf16(cp: scalar): seq<unit> {
    if cp < 0x1_0000 then [cp]
    else [0xD800 + (cp - 0x1_0000) / 0x400, 0xDC00 + (cp - 0x1_0000) % 0x400]
  }

  function Combine(lead: unit, trail: unit): (cp: scalar)
    requires IsLead(lead) && IsTrail(trail)
    ensures cp >= 0x1_0000 && Utf16(cp) == [lead, trail]
  {
    (lead - 0xD800) * 0x400 + (trail - 0xDC00) + 0x1_0000
  }

  function Utf8Of(cp: scalar): (r: seq<byte>)
    ensures 1 <= |r| <= 4
  {
    if cp < 0x80 then [cp]
    else if cp < 0x800 then [0xC0 + cp / 0x40, 0x80 + cp % 0x40]
    else if cp < 0x1_0000 then [0xE0 + cp / 0x1000, 0x80 + cp / 0x40 % 0x40, 0x80 + cp % 0x40]
    else [0xF0 + cp / 0x4_0000, 0x80 + cp / 0x1000 % 0x40, 0x80 + cp / 0x40 % 0x40, 0x80 + cp % 0x40]
  }

  function EncodeScalars(cps: seq<scalar>): seq<byte> {
    if cps == [] then [] else Utf8Of(cps[0]) + EncodeScalars(cps[1..])
  }

  function Utf16All(cps: seq<scalar>): seq<unit> {
    if cps == [] then [] else Utf16(cps[0]) + Utf16All(cps[1..])
  }

  ghost predicate WellFormed(s: seq<unit>) {
    if s == [] then true
    else if IsLead(s[0]) then |s| > 1 && IsTrail(s[1]) && WellFormed(s[2..])
    else !IsTrail(s[0]) && WellFormed(s[1..])
  }

  // The scalars of a string, every surrogate without its partner being replaced.
  function Scalars(s: seq<unit>): seq<scalar> {
    if s == [] then []
    else if IsLead(s[0]) && |s| > 1 && IsTrail(s[1]) then [Combine(s[0], s[1])] + Scalars(s[2..])
    else [if IsSurrogate(s[0]) then REPLACEMENT else s[0]] + Scalars(s[1..])
  }

  lemma {:induction false} ScalarsOfWellFormed(s: seq<unit>)
    requires WellFormed(s)
    ensures Utf16All(Scalars(s)) == s
  {
    if s != [] {
      if IsLead(s[0]) {
        ScalarsOfWellFormed(s[2..]);
        assert s == [s[0], s[1]] + s[2..];
      } else {
        ScalarsOfWellFormed(s[1..]);
        assert s == [s[0]] + s[1..];
      }
    }
  }

  // ---- utf8ToBytes ---------------------------------------------------------

  // One round of utf8ToBytes: what it pushes, the leading surrogate it leaves
  // pending, the count of bytes still allowed, and whether the loop is left.
  datatype Round = Round(pushed: seq<byte>, lead: Option<unit>, left: int, stop: bool)

  function Replace(bounded: bool, left: int): seq<byte> {
    if bounded && left - 3 <= -1 then [] else [0xEF, 0xBF, 0xBD]
  }

  function Put(before: seq<byte>, cp: scalar, bounded: bool, left: int): Round {
    if bounded && left - |Utf8Of(cp)| < 0 then Round(before, None, left - |Utf8Of(cp)|, true)
    else Round(before + Utf8Of(cp), None, left - |Utf8Of(cp)|, false)
  }

  function EncodeRound(u: unit, last: bool, lead: Option<unit>, bounded: bool, left: int): (r: Round)
    requires lead.Some? ==> IsLead(lead.value)
    ensures r.lead.Some? ==> IsLead(r.lead.value)
  {
    if IsSurrogate(u) && lead.None? then
      if IsTrail(u) || last then Round(Replace(bounded, left), None, left - 3, false)
      else Round([], Some(u), left, false)
    else if IsLead(u) then Round(Replace(bounded, left), Some(u), left - 3, false)
    else if IsTrail(u) then Put([], Combine(lead.value, u), bounded, left)
    else if lead.Some? then Put(Replace(bounded, left), u, bounded, left - 3)
    else Put([], u, bounded, left)
  }

  // The loop of utf8ToBytes over the code units still to come. `left` counts down
  // the bytes that may still be pushed when the output is `bounded`.
  function Encode(s: seq<unit>, lead: Option<unit>, bounded: bool, left: int): seq<byte>
    requires lead.Some? ==> IsLead(lead.value)
  {
    if s == [] then []
    else
      var r := EncodeRound(s[0], |s| == 1, lead, bounded, left);
      if r.stop then r.pushed else r.pushed + Encode(s[1..], r.lead, bounded, r.left)
  }

  function ToBytes(s: seq<unit>): seq<byte> {
    Encode(s, None, false, 0)
  }

  lemma EncodeOneRound(before: seq<byte>, s: seq<unit>, i: nat, lead: Option<unit>, bounded: bool, left: int)
    requires i < |s| && (lead.Some? ==> IsLead(lead.value))
    ensures
      var r := EncodeRound(s[i], i + 1 == |s|, lead, bounded, left);
      before + Encode(s[i..], lead, bounded, left)
      == before + r.pushed + if r.stop then [] else Encode(s[i + 1..], r.lead, bounded, r.left)
  {
    assert s[i..][1..] == s[i + 1..];
  }

  lemma EncodeEnd(lead: Option<unit>, bounded: bool, left: int)
    requires lead.Some? ==> IsLead(lead.value)
    ensures Encode([], lead, bounded, left) == []
  {
  }

  // The body of the loop.
  method Utf8Round(u: unit, last: bool, pending: Option<unit>, bounded: bool, units: int)
    returns (pushed: seq<byte>, lead: Option<unit>, left: int, stop: bool)
    requires pending.Some? ==> IsLead(pending.value)
    ensures Round(pushed, lead, left, stop) == EncodeRound(u, last, pending, bounded, units)
  {
    pushed, lead, left, stop := [], pending, units, false;
    var codePoint: scalar;
    if IsSurrogate(u) {
      if lead.None? {
        if IsTrail(u) || last {
          left := left - 3;
          if !bounded || left > -1 { pushed := [0xEF, 0xBF, 0xBD]; }
          return;
        }
        lead := Some(u);
        return;
      }
      if IsLead(u) {
        left := left - 3;
        if !bounded || left > -1 { pushed := [0xEF, 0xBF, 0xBD]; }
        lead := Some(u);
        return;
      }
      codePoint := Combine(lead.value, u);
    } else {
      if lead.Some? {
        left := left - 3;
        if !bounded || left > -1 { pushed := [0xEF, 0xBF, 0xBD]; }
      }
      codePoint := u;
    }
    lead := None;
    left := left - |Utf8Of(codePoint)|;
    if bounded && left < 0 { return pushed, lead, left, true; }
    pushed := pushed + Utf8Of(codePoint);
  }

  // `units` 0 means no bound, as `units || Infinity` has it.
  method Utf8ToBytes(s: seq<unit>, units: nat) returns (bytes: seq<byte>)
    ensures bytes == Encode(s, None, units != 0, units)
  {
    hide Encode, EncodeRound;
    var bounded, left := units != 0, units as int;
    var lead: Option<unit> := None;
    bytes := [];
    var i := 0;
    while i < |s|
      invariant 0 <= i <= |s|
      invariant lead.Some? ==> IsLead(lead.value)
      invariant Encode(s, None, units != 0, units) == bytes + Encode(s[i..], lead, bounded, left)
    {
      EncodeOneRound(bytes, s, i, lead, bounded, left);
      var pushed, stop;
      pushed, lead, left, stop := Utf8Round(s[i], i + 1 == |s|, lead, bounded, left);
      bytes := bytes + pushed;
      if stop { return; }
      i := i + 1;
    }
    assert s[i..] == [];
    EncodeEnd(lead, bounded, left);
  }

  // Under a bound the output is a prefix of the full encoding, within the bound,
  // and all of it when it fits.
  lemma {:induction false} BoundedEncode(s: seq<unit>, lead: Option<unit>, left: int, other: int)
    requires lead.Some? ==> IsLead(lead.value)
    ensures
      var part, full := Encode(s, lead, true, left), Encode(s, lead, false, other);
      && part <= full
      && (|part| <= left || part == [])
      && (|full| <= left ==> part == full)
  {
    hide Utf8Of, Combine;
    if s != [] {
      var p, f := EncodeRound(s[0], |s| == 1, lead, true, left), EncodeRound(s[0], |s| == 1, lead, false, other);
      RoundBounded(s[0], |s| == 1, lead, left, other);
      BoundedEncode(s[1..], f.lead, p.left, f.left);
    }
  }

  lemma RoundBounded(u: unit, last: bool, lead: Option<unit>, left: int, other: int)
    requires lead.Some? ==> IsLead(lead.value)
    ensures
      var p, f := EncodeRound(u, last, lead, true, left), EncodeRound(u, last, lead, false, other);
      && !f.stop && p.lead == f.lead && p.left == left - |f.pushed|
      && p.pushed <= f.pushed
      && (p.left >= 0 ==> p.pushed == f.pushed && !p.stop)
      && (p.left < 0 ==> |p.pushed| <= left || p.pushed == [])
  {
  }

  // What utf8ToBytes does with surrogates that have no partner: each becomes a
  // replacement character, except that of two leading surrogates at the end of
  // the string the second is dropped.
  predicate EndsInTwoLeads(s: seq<unit>) {
    |s| >= 2 && IsLead(s[|s| - 2]) && IsLead(s[|s| - 1])
  }

  function Kept(s: seq<unit>): seq<unit> {
    if EndsInTwoLeads(s) then s[..|s| - 1] else s
  }

  // The unbounded encoding, without the bookkeeping of `left`.
  function Full(s: seq<unit>, lead: Option<unit>): seq<byte>
    requires lead.Some? ==> IsLead(lead.value)
  {
    if s == [] then []
    else if !IsSurrogate(s[0]) then
      (if lead.Some? then Utf8Of(REPLACEMENT) else []) + (Utf8Of(s[0]) + Full(s[1..], None))
    else if lead.None? && (IsTrail(s[0]) || |s| == 1) then Utf8Of(REPLACEMENT) + Full(s[1..], None)
    else if lead.None? then Full(s[1..], Some(s[0]))
    else if IsLead(s[0]) then Utf8Of(REPLACEMENT) + Full(s[1..], Some(s[0]))
    else Utf8Of(Combine(lead.value, s[0])) + Full(s[1..], None)
  }

  lemma ReplacementBytes()
    ensures Utf8Of(REPLACEMENT) == [0xEF, 0xBF, 0xBD]
  {
  }

  lemma {:induction false} EncodeIsFull(s: seq<unit>, lead: Option<unit>, left: int)
    requires lead.Some? ==> IsLead(lead.value)
    ensures Encode(s, lead, false, left) == Full(s, lead)
  {
    if s != [] {
      var r := EncodeRound(s[0], |s| == 1, lead, false, left);
      EncodeIsFull(s[1..], r.lead, r.left);
      RoundIsFull(s, lead, left);
    }
  }

  lemma RoundIsFull(s: seq<unit>, lead: Option<unit>, left: int)
    requires lead.Some? ==> IsLead(lead.value)
    requires s != []
    ensures
      var r := EncodeRound(s[0], |s| == 1, lead, false, left);
      !r.stop && Full(s, lead) == r.pushed + Full(s[1..], r.lead)
  {
    hide Utf8Of, Combine;
    ReplacementBytes();
  }

  lemma LoneLead(s: seq<unit>)
    requires |s| >= 2 && IsLead(s[0]) && !IsTrail(s[1]) && (|s| == 2 ==> !IsLead(s[1]))
    ensures Full(s, None) == Utf8Of(REPLACEMENT) + Full(s[1..], None)
  {
    hide Utf8Of;
    var t := s[1..];
    if !IsSurrogate(t[0]) {
      assert [] + (Utf8Of(t[0]) + Full(t[1..], None)) == Utf8Of(t[0]) + Full(t[1..], None);
    }
  }

  lemma PairedLead(s: seq<unit>)
    requires |s| >= 2 && IsLead(s[0]) && IsTrail(s[1])
    ensures Full(s, None) == Utf8Of(Combine(s[0], s[1])) + Full(s[2..], None)
  {
    hide Utf8Of, Combine;
    assert s[1..][1..] == s[2..];
  }

  lemma {:induction false} EncodesKept(s: seq<unit>)
    ensures ToBytes(s) == EncodeScalars(Scalars(Kept(s)))
    decreases |s|
  {
    hide Encode, Utf8Of, Combine;
    EncodeIsFull(s, None, 0);
    if s == [] {
    } else if |s| == 2 && EndsInTwoLeads(s) {
      assert Kept(s) == [s[0]] && Scalars([s[0]])[1..] == [];
      var t := s[1..];
      assert Full(t, Some(s[0])) == Utf8Of(REPLACEMENT) + Full(t[1..], Some(t[0]));
    } else {
      var k := Kept(s);
      KeptTail(s);
      if IsLead(s[0]) && |s| > 1 && IsTrail(s[1]) {
        PairedLead(s);
        EncodesKept(s[2..]);
        EncodeIsFull(s[2..], None, 0);
        KeptTail(s[1..]);
        assert s[1..][1..] == s[2..] && k[1..][1..] == k[2..] == Kept(s[2..]);
        assert Scalars(k) == [Combine(s[0], s[1])] + Scalars(k[2..]);
      } else {
        EncodesKept(s[1..]);
        EncodeIsFull(s[1..], None, 0);
        assert |k| > 1 ==> k[1] == s[1];
        assert Scalars(k) == [if IsSurrogate(s[0]) then REPLACEMENT else s[0]] + Scalars(k[1..]);
        if IsLead(s[0]) && |s| > 1 { LoneLead(s); }
        if !IsSurrogate(s[0]) { assert [] + (Utf8Of(s[0]) + Full(s[1..], None)) == Utf8Of(s[0]) + Full(s[1..], None); }
      }
    }
  }

  lemma KeptTail(s: seq<unit>)
    requires s != [] && !(|s| == 2 && EndsInTwoLeads(s))
    ensures Kept(s) != [] && Kept(s)[0] == s[0] && Kept(s)[1..] == Kept(s[1..])
  {
  }

  lemma {:induction false} EncodeScalarsAppend(a: seq<scalar>, b: seq<scalar>)
    ensures EncodeScalars(a + b) == EncodeScalars(a) + EncodeScalars(b)
  {
    hide Utf8Of;
    if a == [] {
      assert a + b == b;
    } else {
      EncodeScalarsAppend(a[1..], b);
      assert (a + b)[1..] == a[1..] + b;
    }
  }

  lemma {:induction false} ScalarsOfDropped(s: seq<unit>)
    requires EndsInTwoLeads(s)
    ensures Scalars(s) == Scalars(Kept(s)) + [REPLACEMENT]
    decreases |s|
  {
    hide Combine;
    var k := Kept(s);
    if |s| == 2 {
      assert k == [s[0]] && k[1..] == [] && s[1..][1..] == [];
      assert Scalars(s[1..]) == [REPLACEMENT] + Scalars([]);
      assert Scalars(k) == [REPLACEMENT] + Scalars([]);
    } else if IsLead(s[0]) && IsTrail(s[1]) {
      assert |s| > 3;
      assert k[2..] == Kept(s[2..]);
      ScalarsOfDropped(s[2..]);
    } else {
      assert k[1..] == Kept(s[1..]);
      ScalarsOfDropped(s[1..]);
    }
  }

  // Exactly when every lone surrogate is replaced.
  lemma ReplacesEverySurrogateIff(s: seq<unit>)
    ensures ToBytes(s) == EncodeScalars(Scalars(s)) <==> !EndsInTwoLeads(s)
  {
    EncodesKept(s);
    if EndsInTwoLeads(s) {
      ScalarsOfDropped(s);
      EncodeScalarsAppend(Scalars(Kept(s)), [REPLACEMENT]);
      assert EncodeScalars([REPLACEMENT]) == Utf8Of(REPLACEMENT) + EncodeScalars([]);
    }
  }

  // Two leading surrogates: six bytes are due, three are written.
  lemma DroppedLeadWitness()
    ensures ToBytes([0xD800, 0xD800]) == [0xEF, 0xBF, 0xBD]
    ensures EncodeScalars(Scalars([0xD800, 0xD800])) == [0xEF, 0xBF, 0xBD, 0xEF, 0xBF, 0xBD]
  {
    var s: seq<unit> := [0xD800, 0xD800];
    EncodesKept(s);
    ScalarsOfDropped(s);
    var k := Kept(s);
    assert k == [0xD800] && k[1..] == [];
    assert Scalars(k) == [REPLACEMENT] + Scalars([]) == [REPLACEMENT];
    EncodeScalarsAppend([REPLACEMENT], [REPLACEMENT]);
    assert [REPLACEMENT][1..] == [];
    assert EncodeScalars([REPLACEMENT]) == Utf8Of(REPLACEMENT) + EncodeScalars([]);
  }

  // ---- utf8Slice -----------------------------------------------------------

  predicate IsContinuation(b: byte) { 0x80 <= b < 0xC0 }

  // The bits of `b` below `modulus`.
  function Low(b: byte, modulus: nat): nat
    requires modulus > 0
  {
    b % modulus
  }

  // The character at the start of `b` and the number of bytes it takes; anything
  // that is not one is a replacement character over a single byte.
  function DecodeOne(b: seq<byte>): (r: (scalar, nat))
    requires b != []
    ensures 1 <= r.1 <= |b|
  {
    var first, n := b[0], |b|;
    if first > 0xEF then
      if n >= 4 && IsContinuation(b[1]) && IsContinuation(b[2]) && IsContinuation(b[3]) then
        var cp := 0x4_0000 * Low(first, 16) + 0x1000 * Low(b[1], 64) + 0x40 * Low(b[2], 64) + Low(b[3], 64);
        if 0xFFFF < cp < 0x11_0000 then (cp, 4) else (REPLACEMENT, 1)
      else (REPLACEMENT, 1)
    else if first > 0xDF then
      if n >= 3 && IsContinuation(b[1]) && IsContinuation(b[2]) then
        var cp := 0x1000 * Low(first, 16) + 0x40 * Low(b[1], 64) + Low(b[2], 64);
        if cp > 0x7FF && !IsSurrogate(cp) then (cp, 3) else (REPLACEMENT, 1)
      else (REPLACEMENT, 1)
    else if first > 0xBF then
      if n >= 2 && IsContinuation(b[1]) then
        var cp := 0x40 * Low(first, 32) + Low(b[1], 64);
        if cp > 0x7F then (cp, 2) else (REPLACEMENT, 1)
      else (REPLACEMENT, 1)
    else if first < 0x80 then (first, 1)
    else (REPLACEMENT, 1)
  }

  function DecodeAll(b: seq<byte>): seq<scalar> {
    if b == [] then [] else [DecodeOne(b).0] + DecodeAll(b[DecodeOne(b).1..])
  }

  // The six-bit groups of a code point, from the lowest.
  lemma Groups(cp: nat)
    ensures cp == 0x40 * (cp / 0x40) + cp % 0x40
    ensures cp / 0x40 == 0x40 * (cp / 0x1000) + cp / 0x40 % 0x40
    ensures cp / 0x1000 == 0x40 * (cp / 0x4_0000) + cp / 0x1000 % 0x40
  {
    assert cp / 0x40 / 0x40 == cp / 0x1000;
    assert cp / 0x1000 / 0x40 == cp / 0x4_0000;
  }

  lemma LowOf(modulus: nat, mark: nat, rest: nat)
    requires modulus in {16, 32, 64} && mark % modulus == 0 && rest < modulus && mark + rest < 256
    ensures Low(mark + rest, modulus) == rest
  {
  }

  lemma DecodesOne(cp: scalar, tail: seq<byte>)
    ensures DecodeOne(Utf8Of(cp) + tail) == (cp, |Utf8Of(cp)|)
  {
    hide Low;
    Groups(cp);
    LowOf(64, 0x80, cp % 0x40);
    LowOf(64, 0x80, cp / 0x40 % 0x40);
    LowOf(64, 0x80, cp / 0x1000 % 0x40);
    if 0x80 <= cp < 0x800 {
      LowOf(32, 0xC0, cp / 0x40);
    } else if 0x800 <= cp < 0x1_0000 {
      LowOf(16, 0xE0, cp / 0x1000);
    } else if 0x1_0000 <= cp {
      LowOf(16, 0xF0, cp / 0x4_0000);
    }
  }

  lemma {:induction false} DecodeEncodeScalars(cps: seq<scalar>)
    ensures DecodeAll(EncodeScalars(cps)) == cps
  {
    hide DecodeOne, Utf8Of;
    if cps != [] {
      var tail := EncodeScalars(cps[1..]);
      DecodesOne(cps[0], tail);
      Append(Utf8Of(cps[0]), tail);
      DecodeEncodeScalars(cps[1..]);
      assert cps == [cps[0]] + cps[1..];
    }
  }

  lemma {:induction false} ScalarsOfUtf16All(cps: seq<scalar>)
    ensures WellFormed(Utf16All(cps)) && Scalars(Utf16All(cps)) == cps
  {
    if cps != [] {
      ScalarsOfUtf16All(cps[1..]);
      var s := Utf16All(cps);
      Append(Utf16(cps[0]), Utf16All(cps[1..]));
      assert cps == [cps[0]] + cps[1..];
      if cps[0] >= 0x1_0000 {
        assert Combine(s[0], s[1]) == cps[0];
      }
    }
  }

  lemma {:induction false} WellFormedEnds(s: seq<unit>)
    requires WellFormed(s)
    ensures !EndsInTwoLeads(s)
  {
    if s != [] {
      if IsLead(s[0]) { WellFormedEnds(s[2..]); } else { WellFormedEnds(s[1..]); }
    }
  }

  // What utf8Slice returns for the bytes of a range.
  function Slice(b: seq<byte>): seq<unit> {
    Utf16All(DecodeAll(b))
  }

  // Every well-formed string survives encoding and decoding.
  lemma StringRoundTrip(s: seq<unit>)
    requires WellFormed(s)
    ensures Slice(ToBytes(s)) == s
  {
    WellFormedEnds(s);
    ReplacesEverySurrogateIff(s);
    DecodeEncodeScalars(Scalars(s));
    ScalarsOfWellFormed(s);
  }

  // On arbitrary bytes the result is well formed and a fixed point of encoding
  // and decoding again.
  lemma SliceIsStable(b: seq<byte>)
    ensures WellFormed(Slice(b)) && Slice(ToBytes(Slice(b))) == Slice(b)
  {
    ScalarsOfUtf16All(DecodeAll(b));
    StringRoundTrip(Slice(b));
  }

  // Bytes survive decoding and encoding exactly when they are valid UTF-8.
  lemma BytesRoundTripIff(b: seq<byte>)
    ensures ToBytes(Slice(b)) == b <==> exists cps :: b == EncodeScalars(cps)
  {
    ScalarsOfUtf16All(DecodeAll(b));
    WellFormedEnds(Slice(b));
    ReplacesEverySurrogateIff(Slice(b));
    assert ToBytes(Slice(b)) == EncodeScalars(DecodeAll(b));
    if cps :| b == EncodeScalars(cps) {
      DecodeEncodeScalars(cps);
    }
  }

  method Utf8Slice(buf: seq<byte>, start: nat, end: nat) returns (r: seq<unit>)
    requires start <= |buf|
    ensures
      var last := if end < |buf| then end else |buf|;
      r == if start <= last then Slice(buf[start..last]) else []
  {
    hide DecodeOne;
    var last := if end < |buf| then end else |buf|;
    if start > last { return []; }
    ghost var range := buf[start..last];
    var res: seq<unit> := [];
    var i := start;
    while i < last
      invariant start <= i <= last
      invariant Slice(range) == res + Slice(range[i - start..])
    {
      ghost var here := range[i - start..];
      assert here == buf[i..last];
      var (codePoint, bytesPerSequence) := DecodeOne(buf[i..last]);
      SliceStep(res, here);
      if codePoint > 0xFFFF {
        res := res + [0xD800 + (codePoint - 0x1_0000) / 0x400];
        res := res + [0xDC00 + (codePoint - 0x1_0000) % 0x400];
      } else {
        res := res + [codePoint];
      }
      assert range[i + bytesPerSequence - start..] == here[bytesPerSequence..];
      i := i + bytesPerSequence;
    }
    assert range[i - start..] == [] && res + Slice([]) == res;
    r := DecodeCodePointsArray(res);
  }

  lemma SliceStep(res: seq<unit>, b: seq<byte>)
    requires b != []
    ensures
      var (cp, n) := DecodeOne(b);
      && res + Slice(b) == (res + Utf16(cp)) + Slice(b[n..])
      && (cp > 0xFFFF ==> res + Utf16(cp) == res + [0xD800 + (cp - 0x1_0000) / 0x400] + [0xDC00 + (cp - 0x1_0000) % 0x400])
  {
    hide DecodeOne;
    assert DecodeAll(b)[1..] == DecodeAll(b[DecodeOne(b).1..]);
  }

  const MAX_ARGUMENTS_LENGTH: nat := 0x1000

  // String.fromCharCode in chunks.
  method DecodeCodePointsArray(codePoints: seq<unit>) returns (res: seq<unit>)
    ensures res == codePoints
  {
    var len := |codePoints|;
    if len <= MAX_ARGUMENTS_LENGTH { return codePoints; }
    res := [];
    var i := 0;
    while i < len
      invariant 0 <= i && res == codePoints[..if i < len then i else len]
    {
      var next := if i + MAX_ARGUMENTS_LENGTH < len then i + MAX_ARGUMENTS_LENGTH else len;
      res := res + codePoints[i..next];
      i := i + MAX_ARGUMENTS_LENGTH;
    }
  }
}
