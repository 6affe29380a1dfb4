// redis.go: the text that travels over Redis, and what a node makes of it.
module RedisWire {
  import opened Prelude

  // encoding/json, as far as this file calls it: is a text valid JSON, a string as
  // JSON text, and back.
  datatype Json = Json(valid: string -> bool, quote: string -> string, unquote: string -> Option<string>)

  ghost predicate Lawful(json: Json) {
    && (forall v: string :: json.unquote(json.quote(v)) == Some(v))
    && (forall v: string :: |json.quote(v)| >= 2 && json.quote(v)[0] == '"' && json.quote(v)[|json.quote(v)| - 1] == '"')
  }

  // unicode.IsSpace
  predicate IsSpace(c: char) {
    var u := c as int;
    9 <= u <= 13 || u in {0x20, 0x85, 0xA0, 0x1680, 0x2028, 0x2029, 0x202F, 0x205F, 0x3000} || 0x2000 <= u <= 0x200A
  }

  function TrimLeft(s: string): string {
    if s != [] && IsSpace(s[0]) then TrimLeft(s[1..]) else s
  }

  function TrimRight(s: string): string {
    if s != [] && IsSpace(s[|s| - 1]) then TrimRight(s[..|s| - 1]) else s
  }

  function TrimSpace(s: string): string { TrimRight(TrimLeft(s)) }

  lemma TrimmedAlready(s: string)
    requires s != [] && !IsSpace(s[0]) && !IsSpace(s[|s| - 1])
    ensures TrimSpace(s) == s
  {
  }

  function HasPrefix(s: string, p: string): bool { p <= s }

  // strings.IndexByte, |s| standing for -1
  function IndexOf(s: string, c: char): (i: nat)
    ensures i <= |s| && (i < |s| ==> s[i] == c) && forall j | 0 <= j < i :: s[j] != c
  {
    if s == [] || s[0] == c then 0 else 1 + IndexOf(s[1..], c)
  }

  predicate Tagged(s: string) { HasPrefix(s, "o:") || HasPrefix(s, "s:") }

  // The payload without the node id: a tag, and the text behind it.
  function Payload(json: Json, data: string): (p: string) {
    var trimmed := TrimSpace(data);
    if trimmed != [] && (trimmed[0] == '{' || trimmed[0] == '[') then "o:" + trimmed
    else if |trimmed| > 1 && trimmed[0] == '"' && json.unquote(trimmed).Some? then "s:" + json.unquote(trimmed).value
    else "s:" + trimmed
  }

  function EncodeForRedis(json: Json, id: string, data: string): string {
    id + "/" + Payload(json, data)
  }

  function Split(raw: string): (r: (string, string)) {
    if HasPrefix(raw, "/") then ("", raw[1..])
    else if Tagged(raw) then ("", raw)
    else
      var slash := IndexOf(raw, '/');
      if 0 < slash < |raw| && Tagged(raw[slash + 1..]) then (raw[..slash], raw[slash + 1..]) else ("", raw)
  }

  // handleMessage up to the call of deliver: the data delivered, if any.
  function Decode(json: Json, id: string, raw: string): Option<string> {
    var (sender, message) := Split(raw);
    if sender != "" && sender == id then None
    else if |message| < 2 || message[1] != ':' then None
    else
      var body := message[2..];
      if message[0] == 'o' then Some(if json.valid(body) then body else json.quote(body))
      else Some(json.quote(body))
  }

  // Ids that a reader can tell from a payload.
  predicate Readable(id: string) { '/' !in id && !Tagged(id) }

  lemma IndexBehind(a: string, b: string)
    requires '/' !in a
    ensures IndexOf(a + "/" + b, '/') == |a|
  {
    var s := a + "/" + b;
    assert s[|a|] == '/';
    assert forall j | 0 <= j < |a| :: s[j] == a[j] && a[j] in a;
  }

  // Splitting an encoded message gives the id and the payload back exactly for
  // the readable ids (the empty id among them).
  lemma SplitEncoded(json: Json, id: string, data: string)
    ensures Split(EncodeForRedis(json, id, data)) == (id, Payload(json, data)) <==> Readable(id)
  {
    var payload := Payload(json, data);
    var raw := EncodeForRedis(json, id, data);
    assert Tagged(payload);
    hide Payload;
    if '/' in id {
      SenderHasNoSlash(raw);
    } else {
      IndexBehind(id, payload);
      assert raw[..|id|] == id && raw[|id| + 1..] == payload;
      if id == "" {
        assert raw[1..] == payload;
      } else {
        assert raw[0] == id[0];
        SameTag(id, "/" + payload);
        assert raw == id + ("/" + payload);
      }
    }
  }

  lemma SenderHasNoSlash(raw: string)
    ensures '/' !in Split(raw).0
  {
    hide Tagged;
  }

  lemma SameTag(id: string, rest: string)
    requires id != "" && '/' !in id && rest != "" && rest[0] == '/'
    ensures Tagged(id + rest) == Tagged(id)
  {
    if |id| == 1 {
      assert (id + rest)[1] == '/';
    }
  }

  // The sender of a message under a usable id drops its own echo.
  lemma OwnEchoDropped(json: Json, id: string, data: string)
    requires Readable(id) && id != ""
    ensures Decode(json, id, EncodeForRedis(json, id, data)) == None
  {
    SplitEncoded(json, id, data);
  }

  // An id that looks like a tag is taken for one: every node, the sender too, delivers
  // the rest of the id and the payload as one text.
  lemma TaggedIdEchoes(json: Json, sender: string, receiver: string, data: string)
    requires '/' !in sender && Tagged(sender)
    ensures
      var text := sender[2..] + "/" + Payload(json, data);
      Decode(json, receiver, EncodeForRedis(json, sender, data))
        == Some(if sender[0] == 'o' && json.valid(text) then text else json.quote(text))
  {
    var payload := Payload(json, data);
    var raw := EncodeForRedis(json, sender, data);
    hide Payload;
    assert raw == sender + ("/" + payload);
    SameTag(sender, "/" + payload);
    assert raw[0] == sender[0] && raw[1] == ':';
    assert raw[2..] == sender[2..] + "/" + payload;
  }

  // A node drops what it sent itself exactly when it has an id that does not look
  // like a tag.
  lemma EchoExactly(json: Json, id: string, data: string)
    requires '/' !in id
    ensures Decode(json, id, EncodeForRedis(json, id, data)) == None <==> id != "" && !Tagged(id)
  {
    hide Decode, EncodeForRedis;
    if id == "" {
      NoIdEchoes(json, data);
    } else if Tagged(id) {
      TaggedIdEchoes(json, id, id, data);
    } else {
      OwnEchoDropped(json, id, data);
    }
  }

  // The three kinds of data, by the first character of their text.
  predicate IsComposite(data: string) {
    var t := TrimSpace(data);
    t != [] && (t[0] == '{' || t[0] == '[')
  }

  predicate IsString(json: Json, data: string) {
    var t := TrimSpace(data);
    |t| > 1 && t[0] == '"' && json.unquote(t).Some?
  }

  // What another node delivers.
  function Delivered(json: Json, data: string): string {
    var t := TrimSpace(data);
    if IsComposite(data) then (if json.valid(t) then t else json.quote(t))
    else json.quote(if IsString(json, data) then json.unquote(t).value else t)
  }

  lemma OtherNodeDelivers(json: Json, sender: string, receiver: string, data: string)
    requires Readable(sender) && sender != receiver
    ensures Decode(json, receiver, EncodeForRedis(json, sender, data)) == Some(Delivered(json, data))
  {
    SplitEncoded(json, sender, data);
    var t := TrimSpace(data);
    assert ("o:" + t)[2..] == t && ("s:" + t)[2..] == t;
    if IsString(json, data) { assert ("s:" + json.unquote(t).value)[2..] == json.unquote(t).value; }
  }

  // Objects, arrays and strings arrive with the same value; any other scalar
  // arrives as the string of its text.
  lemma SameValue(json: Json, sender: string, receiver: string, data: string)
    requires Readable(sender) && sender != receiver
    ensures
      var r := Decode(json, receiver, EncodeForRedis(json, sender, data));
      && (IsComposite(data) && json.valid(TrimSpace(data)) ==> r == Some(TrimSpace(data)))
      && (!IsComposite(data) && !IsString(json, data) ==> r == Some(json.quote(TrimSpace(data))))
  {
    hide Decode, EncodeForRedis, TrimSpace;
    OtherNodeDelivers(json, sender, receiver, data);
  }

  lemma SameString(json: Json, sender: string, receiver: string, v: string)
    requires Lawful(json) && Readable(sender) && sender != receiver
    ensures Decode(json, receiver, EncodeForRedis(json, sender, json.quote(v))) == Some(json.quote(v))
  {
    var data := json.quote(v);
    assert |data| >= 2 && data[0] == '"' && data[|data| - 1] == '"' && json.unquote(data) == Some(v);
    hide Decode, EncodeForRedis, Lawful, TrimSpace;
    OtherNodeDelivers(json, sender, receiver, data);
    TrimmedAlready(data);
  }

  // What PHP publishes has no id in front; every `/` of its body survives.
  lemma UnprefixedKept(json: Json, id: string, body: string)
    requires json.valid(body)
    ensures Decode(json, id, "o:" + body) == Some(body)
  {
    var raw := "o:" + body;
    assert raw[0] == 'o' && raw[1] == ':' && raw[2..] == body && raw[..2] == "o:";
  }

  // An unprefixed text arrives as a string; what has no tag is dropped.
  lemma UnprefixedText(json: Json, id: string, body: string, bare: string)
    requires '/' !in bare && ':' !in bare
    ensures Decode(json, id, "s:" + body) == Some(json.quote(body)) && Decode(json, id, bare) == None
  {
    var raw := "s:" + body;
    assert raw[0] == 's' && raw[1] == ':' && raw[2..] == body && raw[..2] == "s:";
    assert bare != [] ==> bare[0] in bare;
    if |bare| >= 2 { assert bare[1] in bare; }
  }

  // Without an id a node cannot tell its own messages: it delivers them again.
  lemma NoIdEchoes(json: Json, data: string)
    ensures Decode(json, "", EncodeForRedis(json, "", data)) == Some(Delivered(json, data))
  {
    SplitEncoded(json, "", data);
    var t := TrimSpace(data);
    assert ("o:" + t)[2..] == t && ("s:" + t)[2..] == t;
    if IsString(json, data) { assert ("s:" + json.unquote(t).value)[2..] == json.unquote(t).value; }
  }

  // ---- config.go: the ids a node may get -----------------------------------

  function Sanitize(value: string): (r: string)
    ensures |r| == |value|
  {
    seq(|value|, i requires 0 <= i < |value| => if value[i] == '/' || value[i] == ' ' then '-' else value[i])
  }

  // A slash or a space becomes a dash, and nothing else changes.
  lemma SanitizedText(value: string, i: nat)
    requires i < |value|
    ensures '/' !in Sanitize(value) && ' ' !in Sanitize(value)
    ensures value[i] == '/' || value[i] == ' ' ==> Sanitize(value)[i] == '-'
    ensures value[i] != '/' && value[i] != ' ' ==> Sanitize(value)[i] == value[i]
  {
  }

  // Sanitizing leaves exactly the ids unreadable that look like a tag.
  lemma SanitizedReadable(value: string)
    ensures Readable(Sanitize(value)) <==> !Tagged(value)
  {
    var r := Sanitize(value);
    assert forall c | c in r :: c != '/';
    if |value| >= 2 {
      assert r[..2] == [r[0], r[1]] && value[..2] == [value[0], value[1]];
    }
  }

  // So it is with a configured id, read off what was configured.
  lemma ConfiguredEcho(json: Json, value: string, data: string)
    ensures var id := Sanitize(value);
      Decode(json, id, EncodeForRedis(json, id, data)) == None <==> value != "" && !Tagged(value)
  {
    var id := Sanitize(value);
    SanitizedReadable(value);
    assert '/' !in id;
    hide Decode, EncodeForRedis, Sanitize;
    EchoExactly(json, id, data);
  }

  // ---- hub.go and redis.go: the same data, here and elsewhere --------------

  // What local sockets are given: the text as it came, `null` if there was none.
  function Local(data: string): string { if data == "" then "null" else data }

  // The same text but for white space around it, or the same string.
  predicate SameMeaning(json: Json, a: string, b: string) {
    TrimSpace(a) == TrimSpace(b)
    || (IsString(json, a) && IsString(json, b) && json.unquote(TrimSpace(a)) == json.unquote(TrimSpace(b)))
  }

  lemma TrimmedEnds(s: string)
    ensures var t := TrimSpace(s); t != [] ==> !IsSpace(t[0]) && !IsSpace(t[|t| - 1])
  {
    LeftEnds(s);
    RightEnds(TrimLeft(s));
  }

  lemma {:induction false} LeftEnds(s: string)
    ensures var t := TrimLeft(s); t != [] ==> !IsSpace(t[0])
  {
    if s != [] && IsSpace(s[0]) { LeftEnds(s[1..]); }
  }

  lemma {:induction false} RightEnds(s: string)
    ensures var t := TrimRight(s); t <= s && (t != [] ==> !IsSpace(t[|t| - 1]))
  {
    if s != [] && IsSpace(s[|s| - 1]) { RightEnds(s[..|s| - 1]); }
  }

  lemma TrimTwice(s: string)
    ensures TrimSpace(TrimSpace(s)) == TrimSpace(s)
  {
    TrimmedEnds(s);
    hide IsSpace;
    var t := TrimSpace(s);
    if t == [] { assert TrimSpace(t) == t; } else { TrimmedAlready(t); }
  }

  lemma QuotedIsString(json: Json, v: string)
    requires Lawful(json)
    ensures TrimSpace(json.quote(v)) == json.quote(v) && !IsComposite(json.quote(v))
    ensures IsString(json, json.quote(v)) && json.unquote(json.quote(v)) == Some(v)
  {
    var q := json.quote(v);
    assert |q| >= 2 && q[0] == '"' && q[|q| - 1] == '"';
    TrimmedAlready(q);
  }

  // Local and remote sockets get data of the same meaning exactly for valid objects
  // and arrays, and for strings.
  lemma SameMeaningIff(json: Json, sender: string, receiver: string, data: string)
    requires Lawful(json) && Readable(sender) && sender != receiver
    ensures
      var r := Decode(json, receiver, EncodeForRedis(json, sender, data));
      r.Some? && (SameMeaning(json, Local(data), r.value)
                  <==> (IsComposite(data) && json.valid(TrimSpace(data))) || IsString(json, data))
  {
    OtherNodeDelivers(json, sender, receiver, data);
    hide Decode, EncodeForRedis, TrimSpace;
    TrimTwice(data);
    assert TrimSpace("") == "" && TrimSpace("null") == "null" by { TrimsNothing(); }
    var t := TrimSpace(data);
    QuotedIsString(json, t);
    if IsString(json, data) { QuotedIsString(json, json.unquote(t).value); }
    hide Lawful;
  }

  lemma TrimsNothing()
    ensures TrimSpace("") == "" && TrimSpace("null") == "null"
  {
    TrimmedAlready("null");
  }

  // Published without data: `null` here, the empty string elsewhere.
  lemma NoData(json: Json, sender: string, receiver: string)
    requires Lawful(json) && Readable(sender) && sender != receiver
    ensures Local("") == "null"
    ensures Decode(json, receiver, EncodeForRedis(json, sender, "")) == Some(json.quote("")) != Some("null")
  {
    OtherNodeDelivers(json, sender, receiver, "");
    hide Decode, EncodeForRedis;
    QuotedIsString(json, "");
  }
}
