// The text of a $ref: "$", and every step of the path in brackets, an index in decimal
// and a key as JSON.stringify quotes it.
module DecycleText {
  import opened Prelude
  import opened Decycle

  function Hex(d: nat): char
    requires d < 16
  {
    if d < 10 then ('0' as int + d) as char else ('a' as int + d - 10) as char
  }

  // Quote of section 15.12.3 of ECMA-262, edition 5.1, for one character
  function Escape(c: char): (e: string)
    ensures e != [] && e[0] != '"'
  {
    if c == '"' || c == '\\' then ['\\', c]
    else if c as int == 8 then "\\b"
    else if c as int == 12 then "\\f"
    else if c == '\n' then "\\n"
    else if c == '\r' then "\\r"
    else if c == '\t' then "\\t"
    else if c < ' ' then "\\u00" + [Hex(c as int / 16), Hex(c as int % 16)]
    else [c]
  }

  function Escaped(s: string): string { if s == [] then "" else Escape(s[0]) + Escaped(s[1..]) }

  function StepText(step: Step): string {
    match step
    case Index(i) => "[" + Itoa(i) + "]"
    case Key(name) => "[" + ("\"" + Escaped(name) + "\"") + "]"
  }

  function StepsText(path: Path): string { if path == [] then "" else StepText(path[0]) + StepsText(path[1..]) }

  function PathText(path: Path): string { "$" + StepsText(path) }

  // ---- reading it back -----------------------------------------------------

  lemma SameHex(a: nat, b: nat)
    requires a < 16 && b < 16 && Hex(a) == Hex(b)
    ensures a == b
  {
  }

  // No escape is the beginning of another.
  lemma EscapeReads(c: char, d: char, x: string, y: string)
    requires Escape(c) + x == Escape(d) + y
    ensures c == d && x == y
  {
    var e, f := Escape(c), Escape(d);
    assert (e + x)[0] == e[0] && (f + y)[0] == f[0];
    if |e| > 1 { assert (e + x)[1] == e[1]; }
    if |f| > 1 { assert (f + y)[1] == f[1]; }
    if |e| == 6 && |f| == 6 {
      assert (e + x)[4] == e[4] && (e + x)[5] == e[5] && (f + y)[4] == f[4] && (f + y)[5] == f[5];
      SameHex(c as int / 16, d as int / 16);
      SameHex(c as int % 16, d as int % 16);
    }
    assert c == d;
    Append(e, x);
    Append(f, y);
  }

  // A quoted name, with its closing quote and what stands behind it.
  function Quoted(s: string, x: string): string { Escaped(s) + ("\"" + x) }

  lemma QuotedOpens(s: string, x: string)
    ensures Quoted(s, x) != [] && (Quoted(s, x)[0] == '"' <==> s == [])
    ensures s == [] ==> Quoted(s, x)[1..] == x
    ensures s != [] ==> Quoted(s, x) == Escape(s[0]) + Quoted(s[1..], x)
  {
    hide Escape;
    if s == [] {
      assert Quoted(s, x) == "\"" + x;
    } else {
      assert Quoted(s, x)[0] == Escape(s[0])[0];
    }
  }

  // It ends at its closing quote.
  lemma {:induction false} QuotedReads(s: string, t: string, x: string, y: string)
    requires Quoted(s, x) == Quoted(t, y)
    ensures s == t && x == y
  {
    hide Escape, Quoted;
    QuotedOpens(s, x);
    QuotedOpens(t, y);
    if s != [] {
      EscapeReads(s[0], t[0], Quoted(s[1..], x), Quoted(t[1..], y));
      QuotedReads(s[1..], t[1..], x, y);
      assert s == [s[0]] + s[1..] && t == [t[0]] + t[1..];
    }
  }

  // A number ends at the closing bracket.
  lemma IndexReads(m: nat, n: nat, x: string, y: string)
    requires Itoa(m) + ("]" + x) == Itoa(n) + ("]" + y)
    ensures m == n && x == y
  {
    var a, b := Itoa(m), Itoa(n);
    ItoaDigits(m);
    ItoaDigits(n);
    var z := a + ("]" + x);
    assert z[|a|] == ']' && z[|b|] == ']';
    assert forall i | 0 <= i < |a| :: IsDigit(z[i]) by { assert forall i | 0 <= i < |a| :: z[i] == a[i]; }
    assert forall i | 0 <= i < |b| :: IsDigit(z[i]) by { assert forall i | 0 <= i < |b| :: z[i] == b[i]; }
    Append(a, "]" + x);
    Append(b, "]" + y);
    Append("]", x);
    Append("]", y);
  }

  lemma StepReads(a: Step, b: Step, x: string, y: string)
    requires StepText(a) + x == StepText(b) + y
    ensures a == b && x == y
  {
    StepOpens(a, x);
    StepOpens(b, y);
    assert Inside(a, x) == (StepText(a) + x)[1..] == Inside(b, y);
    if a.Index? && b.Index? {
      IndexReads(a.index, b.index, x, y);
    } else if a.Key? && b.Key? {
      Append("\"", Quoted(a.name, "]" + x));
      Append("\"", Quoted(b.name, "]" + y));
      QuotedReads(a.name, b.name, "]" + x, "]" + y);
      Append("]", x);
      Append("]", y);
    }
  }

  // What stands behind the opening bracket.
  function Inside(a: Step, x: string): string {
    match a
    case Index(i) => Itoa(i) + ("]" + x)
    case Key(name) => "\"" + Quoted(name, "]" + x)
  }

  lemma StepOpens(a: Step, x: string)
    ensures StepText(a) + x == "[" + Inside(a, x) && (StepText(a) + x)[1..] == Inside(a, x)
    ensures Inside(a, x) != [] && (Inside(a, x)[0] == '"' <==> a.Key?)
  {
    match a
    case Index(i) =>
      ItoaDigits(i);
      assert Inside(a, x)[0] == Itoa(i)[0] && IsDigit(Itoa(i)[0]);
    case Key(name) =>
  }

  lemma {:induction false} StepsRead(p: Path, q: Path)
    requires StepsText(p) == StepsText(q)
    ensures p == q
  {
    if p == [] || q == [] {
      if p != [] { StepOpens(p[0], StepsText(p[1..])); }
      if q != [] { StepOpens(q[0], StepsText(q[1..])); }
    } else {
      StepReads(p[0], q[0], StepsText(p[1..]), StepsText(q[1..]));
      StepsRead(p[1..], q[1..]);
      assert p == [p[0]] + p[1..] && q == [q[0]] + q[1..];
    }
  }

  // The text of a path says which path it is.
  lemma PathTextReads(p: Path, q: Path)
    ensures PathText(p) == PathText(q) <==> p == q
  {
    Append("$", StepsText(p));
    Append("$", StepsText(q));
    if StepsText(p) == StepsText(q) { StepsRead(p, q); }
  }

  // No two objects of a graph are referred to by the same text.
  lemma RefTextsDiffer(h: Heap, root: Value, i: nat, j: nat)
    requires Graph(h) && (root.Ref? ==> root.id in h)
    requires i < j < |Decycled(h, root).1.paths|
    ensures PathText(Decycled(h, root).1.paths[i]) != PathText(Decycled(h, root).1.paths[j])
  {
    ExpandsEachOnce(h, root);
    hide Decycled;
    PathTextReads(Decycled(h, root).1.paths[i], Decycled(h, root).1.paths[j]);
  }
}
