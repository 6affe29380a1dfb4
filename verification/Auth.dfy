// auth.go: login hashes and signed tokens. SHA-1 is an ideal hash, passed as a
// parameter; a signed token is either genuine or does not verify.
module Auth {
  import opened Prelude

  // ---- strings -------------------------------------------------------------

  function Split(s: string, sep: char): (parts: seq<string>)
    ensures |parts| >= 1
    ensures forall i | 0 <= i < |parts| :: sep !in parts[i]
    ensures |parts| == 1 <==> sep !in s
  {
    if s == [] then [""]
    else if s[0] == sep then [""] + Split(s[1..], sep)
    else
      var rest := Split(s[1..], sep);
      [[s[0]] + rest[0]] + rest[1..]
  }

  predicate Contains(s: string, sub: string) {
    exists i | 0 <= i <= |s| :: sub <= s[i..]
  }

  // strconv.ParseInt(s, 10, 64)
  function ParseInt(s: string): (r: Option<int>) {
    var body := if s != [] && (s[0] == '+' || s[0] == '-') then s[1..] else s;
    if body == [] || !AllDigits(body) then None
    else
      var d: int := Digits(body);
      var n := if s[0] == '-' then -d else d;
      if -0x8000_0000_0000_0000 <= n <= 0x7FFF_FFFF_FFFF_FFFF then Some(n) else None
  }

  // lastTokenPart
  function LastTokenPart(chanelName: string): (r: string)
    ensures '_' !in r
  {
    var bits := Split(chanelName, '_');
    bits[|bits| - 1]
  }

  // ---- validateLoginToken --------------------------------------------------

  type Hash = string -> string

  datatype Login = Login(isVisitor: bool, isChatToken: bool, ok: bool)

  function VisitorInput(ts: string, secret: string): string { ts + "Visitor" + secret }
  function ChatInput(ts: string, secret: string, chatId: string): string { ts + "Visitor" + secret + "_" + chatId }
  function OperatorInput(ts: string, secret: string): string { ts + "Operator" + secret }

  function ValidateLogin(sha: Hash, hash: string, chanelName: string, secret: string, now: int): Login {
    var parts := Split(hash, '.');
    if |parts| < 2 then Login(false, false, false)
    else if ParseInt(parts[1]).None? then Login(false, false, false)
    else if ParseInt(parts[1]).value <= now - 3600 then Login(false, false, false)
    else
      var chat := Contains(chanelName, "chat_");
      var visitor := if chat then ChatInput(parts[1], secret, LastTokenPart(chanelName)) else VisitorInput(parts[1], secret);
      if parts[0] == sha(visitor) then Login(true, chat, true)
      else if parts[0] == sha(OperatorInput(parts[1], secret)) then Login(false, chat, true)
      else Login(false, false, false)
  }

  // ---- tokens --------------------------------------------------------------

  // `chanelNameChat` is never part of the signed text.
  datatype Token = Token(token: string, exp: int, iat: int, chanelName: string, instanceID: int,
                         isChatToken: bool, isVisitor: bool, chanelNameChat: string)

  datatype Signed = Genuine(payload: Token) | Forged(text: string)

  datatype Verified = Valid(token: Token) | Invalid | Expired

  function SignToken(t: Token, now: int): (Token, Signed) {
    var t' := if t.iat == 0 then t.(iat := now) else t;
    (t', Genuine(t'.(chanelNameChat := "")))
  }

  function VerifyToken(signed: Signed, now: int): Verified {
    match signed
    case Forged(_) => Invalid
    case Genuine(t) => if t.exp > 0 && now >= t.exp then Expired else Valid(t.(chanelNameChat := ""))
  }

  // A signed token reads back as it was, without its run-time field, until it
  // expires.
  lemma SignThenVerify(t: Token, now: int, later: int)
    ensures
      var (t', signed) := SignToken(t, now);
      VerifyToken(signed, later) == if t.exp > 0 && later >= t.exp then Expired else Valid(t'.(chanelNameChat := ""))
  {
  }

  // ---- what a valid login proves -------------------------------------------

  // The three hashes that PHP hands out (tokenvisitor.php and tokenadmin.php); a
  // minted date is a plain decimal number.
  datatype Mint = SiteVisitor(date: string) | ChatVisitor(date: string, chatId: string) | Operator(date: string)

  function MintInput(m: Mint, secret: string): string {
    match m
    case SiteVisitor(date) => VisitorInput(date, secret)
    case ChatVisitor(date, chatId) => ChatInput(date, secret, chatId)
    case Operator(date) => OperatorInput(date, secret)
  }

  // An ideal hash: the hash of an input made with the secret is only known to
  // somebody who was handed the hash of the same input.
  ghost predicate Unforgeable(sha: Hash, secret: string, minted: set<Mint>, hash: string) {
    forall m: Mint :: hash == sha(MintInput(m, secret)) ==> Handed(MintInput(m, secret), secret, minted)
  }

  ghost predicate Handed(input: string, secret: string, minted: set<Mint>) {
    exists m :: m in minted && AllDigits(m.date) && MintInput(m, secret) == input
  }

  // No 'V' and no 'O' in a time stamp, so the concatenations parse one way only.
  predicate IsStamp(s: string) { forall i | 0 <= i < |s| :: IsDigit(s[i]) || s[i] == '+' || s[i] == '-' }

  lemma StampOfParse(s: string)
    requires ParseInt(s).Some?
    ensures IsStamp(s)
  {
    if s[0] == '+' || s[0] == '-' {
      forall i | 0 <= i < |s| ensures IsDigit(s[i]) || s[i] == '+' || s[i] == '-' {
        if i > 0 { assert s[i] == s[1..][i - 1]; }
      }
    }
  }

  lemma SameStamp(a: string, b: string, x: string, y: string)
    requires IsStamp(a) && IsStamp(b) && x != [] && y != []
    requires x[0] in "VO" && y[0] in "VO"
    requires a + x == b + y
    ensures a == b && x == y
  {
    var z := a + x;
    assert z[|a|] == x[0] && z[|b|] == y[0];
    assert forall i | 0 <= i < |a| :: z[i] == a[i];
    assert forall i | 0 <= i < |b| :: z[i] == b[i];
    Append(a, x);
    Append(b, y);
  }

  function Tail(m: Mint, secret: string): string {
    match m
    case SiteVisitor(_) => "Visitor" + secret
    case ChatVisitor(_, chatId) => "Visitor" + secret + "_" + chatId
    case Operator(_) => "Operator" + secret
  }

  lemma InputTail(m: Mint, secret: string)
    ensures MintInput(m, secret) == m.date + Tail(m, secret)
  {
    match m
    case ChatVisitor(date, chatId) =>
      assert date + "Visitor" + secret + "_" + chatId == date + ("Visitor" + secret + "_" + chatId);
    case SiteVisitor(date) => assert date + "Visitor" + secret == date + ("Visitor" + secret);
    case Operator(date) => assert date + "Operator" + secret == date + ("Operator" + secret);
  }

  // The inputs of two mints are equal only if the mints are.
  lemma MintInputInjective(m: Mint, n: Mint, secret: string)
    requires IsStamp(m.date) && IsStamp(n.date)
    requires MintInput(m, secret) == MintInput(n, secret)
    ensures m == n
  {
    InputTail(m, secret);
    InputTail(n, secret);
    assert Tail(m, secret)[0] in "VO" && Tail(n, secret)[0] in "VO";
    var p := "Visitor" + secret;
    if m.ChatVisitor? { assert Tail(m, secret) == p + "_" + m.chatId && |Tail(m, secret)| > |p|; }
    if n.ChatVisitor? { assert Tail(n, secret) == p + "_" + n.chatId && |Tail(n, secret)| > |p|; }
    SameStamp(m.date, n.date, Tail(m, secret), Tail(n, secret));
    if m.ChatVisitor? && n.ChatVisitor? {
      Append(p + "_", m.chatId);
      Append(p + "_", n.chatId);
    }
  }

  // Under an ideal hash a login that validates was minted for just that: as an
  // operator, as a visitor of the site, or as the visitor of one chat - the one
  // that the channel name ends in.
  lemma ValidLoginWasMinted(sha: Hash, hash: string, chanelName: string, secret: string, now: int, minted: set<Mint>)
    requires Unforgeable(sha, secret, minted, Split(hash, '.')[0])
    requires ValidateLogin(sha, hash, chanelName, secret, now).ok
    ensures
      var login := ValidateLogin(sha, hash, chanelName, secret, now);
      var ts := Split(hash, '.')[1];
      && login.isChatToken == Contains(chanelName, "chat_")
      && ParseInt(ts).Some? && ParseInt(ts).value > now - 3600
      && (if !login.isVisitor then Operator(ts) in minted
          else if login.isChatToken then ChatVisitor(ts, LastTokenPart(chanelName)) in minted
          else SiteVisitor(ts) in minted)
  {
    var login := ValidateLogin(sha, hash, chanelName, secret, now);
    var parts := Split(hash, '.');
    var ts := parts[1];
    StampOfParse(ts);
    var want := if !login.isVisitor then Operator(ts)
                else if login.isChatToken then ChatVisitor(ts, LastTokenPart(chanelName)) else SiteVisitor(ts);
    assert MintInput(want, secret) == if !login.isVisitor then OperatorInput(ts, secret)
      else if login.isChatToken then ChatInput(ts, secret, LastTokenPart(chanelName)) else VisitorInput(ts, secret);
    hide MintInput;
    assert parts[0] == sha(MintInput(want, secret));
    assert Handed(MintInput(want, secret), secret, minted);
    var m :| m in minted && AllDigits(m.date) && MintInput(m, secret) == MintInput(want, secret);
    MintInputInjective(m, want, secret);
  }

  // ---- which logins are valid ----------------------------------------------

  // No two inputs have the same hash, and a hash has no dot.
  ghost predicate IdealHash(sha: Hash) {
    && (forall a: string, b: string :: sha(a) == sha(b) ==> a == b)
    && (forall a: string :: '.' !in sha(a))
  }

  // What PHP hands out for `m`; behind a further dot anything may follow.
  ghost predicate IsHashOf(sha: Hash, secret: string, m: Mint, hash: string) {
    var handed := sha(MintInput(m, secret)) + "." + m.date;
    hash == handed || handed + "." <= hash
  }

  predicate IsFresh(date: string, now: int) { ParseInt(date).Some? && ParseInt(date).value > now - 3600 }

  // A visitor's hash is for its own chat, or for names that are no chat.
  predicate IsFor(m: Mint, chanelName: string) {
    match m
    case SiteVisitor(_) => !Contains(chanelName, "chat_")
    case ChatVisitor(_, chatId) => Contains(chanelName, "chat_") && chatId == LastTokenPart(chanelName)
    case Operator(_) => true
  }

  lemma {:induction false} SplitFirst(a: string, rest: string, sep: char)
    requires sep !in a
    ensures Split(a + [sep] + rest, sep) == [a] + Split(rest, sep)
  {
    var s := a + [sep] + rest;
    if a == [] {
      assert s == [sep] + rest && s[1..] == rest;
    } else {
      assert s[1..] == a[1..] + [sep] + rest && s[0] == a[0];
      SplitFirst(a[1..], rest, sep);
      assert [a[0]] + a[1..] == a;
    }
  }

  lemma {:induction false} SplitBack(s: string, sep: char) returns (rest: string)
    requires sep in s
    ensures s == Split(s, sep)[0] + [sep] + rest && Split(s, sep)[1..] == Split(rest, sep)
  {
    if s[0] == sep {
      rest := s[1..];
      assert s == [] + [sep] + rest;
    } else {
      rest := SplitBack(s[1..], sep);
      var parts := Split(s[1..], sep);
      assert s == [s[0]] + s[1..] == ([s[0]] + parts[0]) + [sep] + rest;
    }
  }

  lemma StampHasNoDot(date: string)
    requires ParseInt(date).Some?
    ensures '.' !in date
  {
    StampOfParse(date);
  }

  lemma HashParts(sha: Hash, secret: string, m: Mint, hash: string)
    requires IdealHash(sha) && IsHashOf(sha, secret, m, hash) && ParseInt(m.date).Some?
    ensures var parts := Split(hash, '.');
      |parts| >= 2 && parts[0] == sha(MintInput(m, secret)) && parts[1] == m.date
  {
    hide MintInput, ParseInt, Split;
    StampHasNoDot(m.date);
    var h := sha(MintInput(m, secret));
    if hash == h + "." + m.date {
      assert hash == h + ['.'] + m.date;
      SplitFirst(h, m.date, '.');
      SplitOne(m.date, '.');
    } else {
      var more := hash[|h| + 1 + |m.date| + 1..];
      assert hash == h + ['.'] + (m.date + ['.'] + more);
      SplitFirst(h, m.date + ['.'] + more, '.');
      SplitFirst(m.date, more, '.');
    }
  }

  lemma PartsHash(hash: string)
    requires |Split(hash, '.')| >= 2
    ensures
      var parts := Split(hash, '.'); var handed := parts[0] + "." + parts[1];
      hash == handed || handed + "." <= hash
  {
    hide Split;
    var parts := Split(hash, '.');
    var rest := SplitBack(hash, '.');
    assert parts[1] == Split(rest, '.')[0];
    if '.' in rest {
      var more := SplitBack(rest, '.');
      assert hash == parts[0] + "." + parts[1] + "." + more;
    } else {
      SplitOne(rest, '.');
      assert hash == parts[0] + "." + parts[1];
    }
  }

  // A hash that PHP minted less than an hour before logs in for what it was minted: an
  // operator everywhere, a visitor of the site where there is no chat, a visitor of a
  // chat in that chat.
  lemma MintedValidates(sha: Hash, hash: string, chanelName: string, secret: string, now: int, m: Mint)
    requires IdealHash(sha) && IsHashOf(sha, secret, m, hash) && IsFresh(m.date, now)
    ensures ValidateLogin(sha, hash, chanelName, secret, now) ==
      if IsFor(m, chanelName) then Login(!m.Operator?, Contains(chanelName, "chat_"), true) else Login(false, false, false)
  {
    HashParts(sha, secret, m, hash);
    StampOfParse(m.date);
    hide Split, ParseInt, Contains, LastTokenPart, IsHashOf, MintInput;
    var chat := Contains(chanelName, "chat_");
    var visitor := if chat then ChatVisitor(m.date, LastTokenPart(chanelName)) else SiteVisitor(m.date);
    VisitorInputs(m.date, secret, LastTokenPart(chanelName));
    if MintInput(m, secret) == MintInput(visitor, secret) { MintInputInjective(m, visitor, secret); }
    if MintInput(m, secret) == MintInput(Operator(m.date), secret) { MintInputInjective(m, Operator(m.date), secret); }
  }

  lemma VisitorInputs(date: string, secret: string, chatId: string)
    ensures MintInput(ChatVisitor(date, chatId), secret) == ChatInput(date, secret, chatId)
    ensures MintInput(SiteVisitor(date), secret) == VisitorInput(date, secret)
    ensures MintInput(Operator(date), secret) == OperatorInput(date, secret)
  {
  }

  // A login is valid if and only if its hash is the one handed out for such a mint.
  lemma ValidatesExactly(sha: Hash, hash: string, chanelName: string, secret: string, now: int)
    requires IdealHash(sha)
    ensures ValidateLogin(sha, hash, chanelName, secret, now).ok <==>
      exists m: Mint :: IsHashOf(sha, secret, m, hash) && IsFresh(m.date, now) && IsFor(m, chanelName)
  {
    hide Contains, LastTokenPart, ParseInt, Split, IsFor;
    var login := ValidateLogin(sha, hash, chanelName, secret, now);
    if login.ok {
      var date := Split(hash, '.')[1];
      PartsHash(hash);
      VisitorInputs(date, secret, LastTokenPart(chanelName));
      var m := if !login.isVisitor then Operator(date)
               else if Contains(chanelName, "chat_") then ChatVisitor(date, LastTokenPart(chanelName)) else SiteVisitor(date);
      ForItself(m, chanelName);
      assert IsHashOf(sha, secret, m, hash) && IsFresh(m.date, now);
    }
    hide ValidateLogin, IsHashOf, IsFresh, IdealHash;
    if m: Mint :| IsHashOf(sha, secret, m, hash) && IsFresh(m.date, now) && IsFor(m, chanelName) {
      MintedValidates(sha, hash, chanelName, secret, now, m);
    }
  }

  lemma ForItself(m: Mint, chanelName: string)
    requires m.SiteVisitor? ==> !Contains(chanelName, "chat_")
    requires m.ChatVisitor? ==> Contains(chanelName, "chat_") && m.chatId == LastTokenPart(chanelName)
    ensures IsFor(m, chanelName)
  {
  }

  // A chat channel name ends in "_" and its last part.
  lemma {:induction false} EndsInLastPart(s: string)
    ensures LastTokenPart(s) == s || EndsWith(s, "_" + LastTokenPart(s))
    ensures '_' in s ==> EndsWith(s, "_" + LastTokenPart(s))
  {
    if s != [] {
      EndsInLastPart(s[1..]);
      var rest := Split(s[1..], '_');
      if s[0] == '_' {
        if '_' !in s[1..] {
          assert LastTokenPart(s[1..]) == s[1..] by { SplitOne(s[1..], '_'); }
          assert s == s[..0] + ("_" + s[1..]);
        } else {
          Lengthen(s, "_" + LastTokenPart(s[1..]));
        }
        assert LastTokenPart(s) == LastTokenPart(s[1..]);
      } else if '_' in s[1..] {
        Lengthen(s, "_" + LastTokenPart(s[1..]));
        assert LastTokenPart(s) == LastTokenPart(s[1..]);
      } else {
        SplitOne(s, '_');
      }
    }
  }

  predicate EndsWith(s: string, suffix: string) {
    |suffix| <= |s| && s[|s| - |suffix|..] == suffix
  }

  lemma Lengthen(s: string, suffix: string)
    requires s != [] && EndsWith(s[1..], suffix)
    ensures EndsWith(s, suffix)
  {
  }

  lemma {:induction false} SplitOne(s: string, sep: char)
    requires sep !in s
    ensures Split(s, sep) == [s]
  {
    if s != [] {
      SplitOne(s[1..], sep);
      assert [s[0]] + s[1..] == s;
    }
  }

  // What stands behind the last underscore is the last part.
  lemma {:induction false} LastBehind(front: string, last: string)
    requires '_' !in last
    ensures LastTokenPart(front + "_" + last) == last
  {
    var s := front + "_" + last;
    SplitOne(last, '_');
    if front == [] {
      assert s == "_" + last && s[1..] == last;
    } else {
      assert s[1..] == front[1..] + "_" + last;
      LastBehind(front[1..], last);
      assert '_' in s[1..] by { assert s[|front|] == '_' && s[1..][|front| - 1] == '_'; }
    }
  }

  lemma {:induction false} SplitTwo(a: string, b: string, sep: char)
    requires sep !in a && sep !in b
    ensures Split(a + [sep] + b, sep) == [a, b]
  {
    var s := a + [sep] + b;
    SplitOne(b, sep);
    if a == [] {
      assert s == [sep] + b && s[1..] == b;
    } else {
      assert s[1..] == a[1..] + [sep] + b && s[0] == a[0];
      SplitTwo(a[1..], b, sep);
      assert [a[0]] + a[1..] == a;
    }
  }

  lemma ChatChannelHasUnderscore(s: string)
    requires Contains(s, "chat_")
    ensures '_' in s
  {
    var i :| 0 <= i <= |s| && "chat_" <= s[i..];
    assert s[i + 4] == s[i..][4] == "chat_"[4];
  }
}
