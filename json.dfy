/** JSON values as the backend sees them after `JSON.parse`, the text `JSON.stringify`
    produces for them, and a parser for the flat objects (string and natural-number
    members) that the tool-result payloads are. `JSON.parse` in general is left abstract:
    the members that need it take a `JsonParser`. */
module Json {
  import opened Wrappers
  import opened JsString
  import opened SeqLemmas

  /** An object's members are listed in property order; numbers are integers. */
  datatype Json =
    | JNull
    | JBool(b: bool)
    | JNum(n: int)
    | JStr(s: string)
    | JArr(items: seq<Json>)
    | JObj(fields: seq<(string, Json)>)

  /** `JSON.parse`: the value a text denotes, or None where the call throws. */
  type JsonParser = string -> Option<Json>

  /** The value of `key` in a parsed object: as `JSON.parse` does, a key written twice keeps
      the value written last. */
  function Lookup(fields: seq<(string, Json)>, key: string): (r: Option<Json>)
    decreases |fields|
    ensures r.Some? <==> exists i :: 0 <= i < |fields| && fields[i].0 == key
    ensures r.Some? ==> exists i :: 0 <= i < |fields| && fields[i] == (key, r.value)
                                   && forall j :: i < j < |fields| ==> fields[j].0 != key
  {
    if |fields| == 0 then None
    else if fields[|fields| - 1].0 == key then Some(fields[|fields| - 1].1)
    else Lookup(fields[..|fields| - 1], key)
  }

  lemma LookupTwo(a: (string, Json), b: (string, Json), key: string)
    ensures Lookup([a, b], key) == if b.0 == key then Some(b.1) else if a.0 == key then Some(a.1) else None
  {
    assert [a, b][..1] == [a];
  }

  /** `obj[key]` for an object, `undefined` (None) for a missing key or a non-object. */
  function Get(j: Json, key: string): Option<Json> {
    if j.JObj? then Lookup(j.fields, key) else None
  }

  function GetString(j: Json, key: string): Option<string> {
    match Get(j, key)
    case Some(JStr(s)) => Some(s)
    case _ => None
  }

  function GetBool(j: Json, key: string): Option<bool> {
    match Get(j, key)
    case Some(JBool(b)) => Some(b)
    case _ => None
  }

  /** JavaScript truthiness of a parsed value. */
  predicate Truthy(j: Json) {
    match j
    case JNull => false
    case JBool(b) => b
    case JNum(n) => n != 0
    case JStr(s) => s != ""
    case _ => true
  }

  // ---------------------------------------------------------------- JSON.stringify

  function HexDigit(d: nat): char
    requires d < 16
  {
    if d < 10 then DigitChar(d) else ('a' as int + d - 10) as char
  }

  /** How `JSON.stringify` writes one character inside a string literal. */
  function EscapeChar(c: char): string {
    if c == '"' then "\\\""
    else if c == '\\' then "\\\\"
    else if c == '\U{0008}' then "\\b"
    else if c == '\U{000C}' then "\\f"
    else if c == '\n' then "\\n"
    else if c == '\r' then "\\r"
    else if c == '\t' then "\\t"
    else if (c as int) < 0x20 then "\\u00" + [HexDigit(c as int / 16), HexDigit(c as int % 16)]
    else [c]
  }

  function Escape(s: string): string {
    if s == [] then "" else EscapeChar(s[0]) + Escape(s[1..])
  }

  function Quote(s: string): string {
    "\"" + Escape(s) + "\""
  }

  function Stringify(j: Json): string {
    match j
    case JNull => "null"
    case JBool(b) => if b then "true" else "false"
    case JNum(n) => IntToString(n)
    case JStr(s) => Quote(s)
    case JArr(items) =>
      "[" + Join(seq(|items|, i requires 0 <= i < |items| => Stringify(items[i])), ",") + "]"
    case JObj(fields) =>
      "{" + Join(seq(|fields|, i requires 0 <= i < |fields| => Quote(fields[i].0) + ":" + Stringify(fields[i].1)), ",") + "}"
  }

  // ---------------------------------------------------------------- a parser for flat objects

  predicate IsDigit(c: char) { '0' <= c <= '9' }

  function HexValue(c: char): (r: Option<nat>)
    ensures r.Some? ==> r.value < 16
  {
    if '0' <= c <= '9' then Some(c as int - '0' as int)
    else if 'a' <= c <= 'f' then Some(c as int - 'a' as int + 10)
    else if 'A' <= c <= 'F' then Some(c as int - 'A' as int + 10)
    else None
  }

  /** The character an escape sequence (after its backslash) stands for, and the rest. */
  function ParseEscape(s: string): (r: Option<(char, string)>)
    ensures r.Some? ==> |r.value.1| < |s|
  {
    if |s| == 0 then None
    else if s[0] == '"' then Some(('"', s[1..]))
    else if s[0] == '\\' then Some(('\\', s[1..]))
    else if s[0] == '/' then Some(('/', s[1..]))
    else if s[0] == 'b' then Some(('\U{0008}', s[1..]))
    else if s[0] == 'f' then Some(('\U{000C}', s[1..]))
    else if s[0] == 'n' then Some(('\n', s[1..]))
    else if s[0] == 'r' then Some(('\r', s[1..]))
    else if s[0] == 't' then Some(('\t', s[1..]))
    else if s[0] == 'u' && |s| >= 5 then
      match (HexValue(s[1]), HexValue(s[2]), HexValue(s[3]), HexValue(s[4]))
      case (Some(a), Some(b), Some(c), Some(d)) =>
        var v := a * 4096 + b * 256 + c * 16 + d;
        if v < 0xD800 || 0xE000 <= v then Some((v as char, s[5..])) else None
      case _ => None
    else None
  }

  /** The body of a string literal up to its closing quote, and what follows the quote. */
  function ParseStringBody(s: string): (r: Option<(string, string)>)
    decreases |s|
    ensures r.Some? ==> |r.value.1| < |s|
  {
    if |s| == 0 then None
    else if s[0] == '"' then Some(("", s[1..]))
    else if s[0] == '\\' then
      match ParseEscape(s[1..])
      case None => None
      case Some((c, rest)) =>
        match ParseStringBody(rest)
        case None => None
        case Some((v, after)) => Some(([c] + v, after))
    else if (s[0] as int) < 0x20 then None
    else
      match ParseStringBody(s[1..])
      case None => None
      case Some((v, after)) => Some(([s[0]] + v, after))
  }

  function ParseString(s: string): (r: Option<(string, string)>)
    ensures r.Some? ==> |r.value.1| < |s|
  {
    if |s| > 0 && s[0] == '"' then ParseStringBody(s[1..]) else None
  }

  function DigitRun(s: string): (k: nat)
    ensures k <= |s| && forall i :: 0 <= i < k ==> IsDigit(s[i])
    ensures k < |s| ==> !IsDigit(s[k])
  {
    if |s| > 0 && IsDigit(s[0]) then 1 + DigitRun(s[1..]) else 0
  }

  function DigitsValue(ds: string): nat
    requires forall i :: 0 <= i < |ds| ==> IsDigit(ds[i])
  {
    if |ds| == 0 then 0
    else
      var d := ds[|ds| - 1];
      assert IsDigit(d);
      DigitsValue(ds[..|ds| - 1]) * 10 + (d as int - '0' as int)
  }

  /** A natural-number literal without leading zeros. */
  function ParseNat(s: string): (r: Option<(nat, string)>)
    ensures r.Some? ==> |r.value.1| < |s|
  {
    var k := DigitRun(s);
    if k == 0 || (k > 1 && s[0] == '0') then None
    else Some((DigitsValue(s[..k]), s[k..]))
  }

  /** A member value of a flat object: a string or a natural number. */
  function ParseFlatValue(s: string): (r: Option<(Json, string)>)
    ensures r.Some? ==> |r.value.1| < |s|
  {
    if |s| > 0 && s[0] == '"' then
      match ParseString(s)
      case None => None
      case Some((v, rest)) => Some((JStr(v), rest))
    else
      match ParseNat(s)
      case None => None
      case Some((n, rest)) => Some((JNum(n), rest))
  }

  /** `"key":value` members separated by commas, up to and including the closing brace. */
  function ParseMembers(s: string): (r: Option<(seq<(string, Json)>, string)>)
    decreases |s|
  {
    match ParseString(s)
    case None => None
    case Some((key, r1)) =>
      if |r1| == 0 || r1[0] != ':' then None
      else
        match ParseFlatValue(r1[1..])
        case None => None
        case Some((v, r2)) =>
          if |r2| > 0 && r2[0] == '}' then Some(([(key, v)], r2[1..]))
          else if |r2| > 0 && r2[0] == ',' then
            match ParseMembers(r2[1..])
            case None => None
            case Some((more, r3)) => Some(([(key, v)] + more, r3))
          else None
  }

  /** `JSON.parse` on the text of a flat object; None for any other text. */
  function ParseFlatObject(s: string): Option<Json> {
    if |s| >= 2 && s[0] == '{' && s[1] == '}' && |s| == 2 then Some(JObj([]))
    else if |s| > 0 && s[0] == '{' then
      match ParseMembers(s[1..])
      case Some((fields, rest)) => if rest == "" then Some(JObj(fields)) else None
      case None => None
    else None
  }

  predicate IsFlat(fields: seq<(string, Json)>) {
    forall i :: 0 <= i < |fields| ==> fields[i].1.JStr? || (fields[i].1.JNum? && fields[i].1.n >= 0)
  }

  // ---------------------------------------------------------------- round trip

  /** The parser reads one escaped character back. */
  lemma EscapeCharRoundTrip(c: char, rest: string)
    ensures ParseStringBody(EscapeChar(c) + rest) ==
              match ParseStringBody(rest)
              case None => None
              case Some((v, after)) => Some(([c] + v, after))
  {
    if c == '"' || c == '\\' || c == '\U{0008}' || c == '\U{000C}' || c == '\n' || c == '\r' || c == '\t' {
      ShortEscapeRoundTrip(c, rest);
    } else if (c as int) < 0x20 {
      UnicodeEscapeRoundTrip(c, rest);
    } else {
      var x := EscapeChar(c) + rest;
      assert x[1..] == rest;
    }
  }

  lemma ShortEscapeRoundTrip(c: char, rest: string)
    requires c == '"' || c == '\\' || c == '\U{0008}' || c == '\U{000C}' || c == '\n' || c == '\r' || c == '\t'
    ensures ParseStringBody(EscapeChar(c) + rest) ==
              match ParseStringBody(rest)
              case None => None
              case Some((v, after)) => Some(([c] + v, after))
  {
    var x := EscapeChar(c) + rest;
    assert x[0] == '\\' && x[1..][1..] == rest;
    assert ParseEscape(x[1..]) == Some((c, rest));
  }

  lemma UnicodeEscapeRoundTrip(c: char, rest: string)
    requires (c as int) < 0x20
    requires !(c == '"' || c == '\\' || c == '\U{0008}' || c == '\U{000C}' || c == '\n' || c == '\r' || c == '\t')
    ensures ParseStringBody(EscapeChar(c) + rest) ==
              match ParseStringBody(rest)
              case None => None
              case Some((v, after)) => Some(([c] + v, after))
  {
    var x := EscapeChar(c) + rest;
    var hi, lo := c as int / 16, c as int % 16;
    assert x[0] == '\\' && x[1..][0] == 'u' && x[1..][1] == '0' && x[1..][2] == '0';
    assert x[1..][3] == HexDigit(hi) && x[1..][4] == HexDigit(lo);
    assert HexValue(HexDigit(hi)) == Some(hi);
    assert HexValue(HexDigit(lo)) == Some(lo);
    assert x[1..][5..] == rest;
    assert ParseEscape(x[1..]) == Some((c, rest));
  }

  lemma {:induction false} EscapeRoundTrip(s: string, tail: string)
    decreases |s|
    ensures ParseStringBody(Escape(s) + "\"" + tail) == Some((s, tail))
  {
    if s == [] {
      assert Escape(s) + "\"" + tail == "\"" + tail;
    } else {
      EscapeRoundTrip(s[1..], tail);
      var rest := Escape(s[1..]) + "\"" + tail;
      assert Escape(s) + "\"" + tail == EscapeChar(s[0]) + rest;
      EscapeCharRoundTrip(s[0], rest);
      assert [s[0]] + s[1..] == s;
    }
  }

  lemma QuoteRoundTrip(s: string, tail: string)
    ensures ParseString(Quote(s) + tail) == Some((s, tail))
  {
    EscapeRoundTrip(s, tail);
    assert (Quote(s) + tail)[1..] == Escape(s) + "\"" + tail;
  }

  lemma {:induction false} DigitsValueOfNat(n: nat)
    ensures forall i :: 0 <= i < |NatToString(n)| ==> IsDigit(NatToString(n)[i])
    ensures DigitsValue(NatToString(n)) == n
  {
    NatToStringDigits(n);
    if n >= 10 {
      DigitsValueOfNat(n / 10);
      var r := NatToString(n);
      assert r[..|r| - 1] == NatToString(n / 10);
    }
  }

  lemma NatRoundTrip(n: nat, tail: string)
    requires tail == [] || !IsDigit(tail[0])
    ensures ParseNat(NatToString(n) + tail) == Some((n, tail))
  {
    var d := NatToString(n);
    var s := d + tail;
    DigitsValueOfNat(n);
    DigitRunOfDigits(d, tail);
    assert s[..|d|] == d;
    assert s[|d|..] == tail;
  }

  lemma {:induction false} DigitRunOfDigits(d: string, tail: string)
    requires forall i :: 0 <= i < |d| ==> IsDigit(d[i])
    requires tail == [] || !IsDigit(tail[0])
    decreases |d|
    ensures DigitRun(d + tail) == |d|
  {
    if |d| > 0 {
      assert (d + tail)[1..] == d[1..] + tail;
      DigitRunOfDigits(d[1..], tail);
    } else {
      assert d + tail == tail;
    }
  }

  function MemberText(f: (string, Json)): string {
    Quote(f.0) + ":" + Stringify(f.1)
  }

  function MembersText(fields: seq<(string, Json)>): seq<string> {
    seq(|fields|, i requires 0 <= i < |fields| => MemberText(fields[i]))
  }

  /** One member `"key":value` is read back, leaving what follows it. */
  lemma MemberRoundTrip(f: (string, Json), after: string)
    requires f.1.JStr? || (f.1.JNum? && f.1.n >= 0)
    requires after == [] || !IsDigit(after[0])
    ensures ParseString(MemberText(f) + after) == Some((f.0, ":" + Stringify(f.1) + after))
    ensures ParseFlatValue(Stringify(f.1) + after) == Some((f.1, after))
  {
    KeyRoundTrip(f, after);
    ValueRoundTrip(f.1, after);
  }

  lemma KeyRoundTrip(f: (string, Json), after: string)
    ensures ParseString(MemberText(f) + after) == Some((f.0, ":" + Stringify(f.1) + after))
  {
    QuotedKeyRoundTrip(f.0, Stringify(f.1), after);
  }

  lemma QuotedKeyRoundTrip(key: string, text: string, after: string)
    ensures ParseString(Quote(key) + ":" + text + after) == Some((key, ":" + text + after))
  {
    assert Quote(key) + ":" + text + after == Quote(key) + (":" + text + after);
    QuoteRoundTrip(key, ":" + text + after);
  }

  lemma ValueRoundTrip(v: Json, after: string)
    requires v.JStr? || (v.JNum? && v.n >= 0)
    requires after == [] || !IsDigit(after[0])
    ensures ParseFlatValue(Stringify(v) + after) == Some((v, after))
  {
    if v.JStr? {
      StringValueRoundTrip(v.s, after);
    } else {
      NumValueRoundTrip(v.n, after);
    }
  }

  lemma StringValueRoundTrip(s: string, after: string)
    ensures ParseFlatValue(Stringify(JStr(s)) + after) == Some((JStr(s), after))
  {
    assert Stringify(JStr(s)) == Quote(s);
    QuoteRoundTrip(s, after);
  }

  lemma NumValueRoundTrip(n: nat, after: string)
    requires after == [] || !IsDigit(after[0])
    ensures ParseFlatValue(Stringify(JNum(n)) + after) == Some((JNum(n), after))
  {
    assert Stringify(JNum(n)) == NatToString(n);
    NatRoundTrip(n, after);
    NatToStringDigits(n);
    assert (NatToString(n) + after)[0] == NatToString(n)[0];
  }

  /** `ParseMembers` after one member whose key and value have been read. */
  lemma ParseMembersUnfold(s: string, key: string, v: Json, text: string, after: string)
    requires ParseString(s) == Some((key, ":" + text + after))
    requires ParseFlatValue(text + after) == Some((v, after))
    requires |after| > 0
    ensures after[0] == '}' ==> ParseMembers(s) == Some(([(key, v)], after[1..]))
    ensures after[0] == ',' ==>
              ParseMembers(s) ==
                match ParseMembers(after[1..])
                case None => None
                case Some((more, r3)) => Some(([(key, v)] + more, r3))
  {
    var r1 := ":" + text + after;
    assert r1[0] == ':';
    assert r1[1..] == text + after;
    ParseMembersAfterValue(s, key, r1, v, after);
  }

  lemma ParseMembersAfterValue(s: string, key: string, r1: string, v: Json, r2: string)
    requires ParseString(s) == Some((key, r1))
    requires |r1| > 0 && r1[0] == ':' && ParseFlatValue(r1[1..]) == Some((v, r2))
    ensures ParseMembers(s) ==
              if |r2| > 0 && r2[0] == '}' then Some(([(key, v)], r2[1..]))
              else if |r2| > 0 && r2[0] == ',' then
                match ParseMembers(r2[1..])
                case None => None
                case Some((more, r3)) => Some(([(key, v)] + more, r3))
              else None
  {
  }

  lemma MembersTextCons(fields: seq<(string, Json)>)
    requires |fields| > 0
    ensures |MembersText(fields)| == |fields|
    ensures MembersText(fields)[0] == MemberText(fields[0])
    ensures MembersText(fields)[1..] == MembersText(fields[1..])
  {
  }

  lemma {:induction false} MembersRoundTrip(fields: seq<(string, Json)>, tail: string)
    requires |fields| > 0 && IsFlat(fields)
    decreases |fields|
    ensures ParseMembers(Join(MembersText(fields), ",") + "}" + tail) == Some((fields, tail))
  {
    MembersTextCons(fields);
    var f := fields[0];
    assert f.1.JStr? || (f.1.JNum? && f.1.n >= 0);
    if |fields| == 1 {
      assert Join(MembersText(fields), ",") == MemberText(f);
      OneMember(f, tail);
      SingletonOf(fields);
    } else {
      var rest := fields[1..];
      assert IsFlat(rest) by {
        forall i | 0 <= i < |rest|
          ensures rest[i].1.JStr? || (rest[i].1.JNum? && rest[i].1.n >= 0)
        {
          assert rest[i] == fields[i + 1];
        }
      }
      MembersRoundTrip(rest, tail);
      var restJoined := Join(MembersText(rest), ",");
      var restText := restJoined + "}" + tail;
      assert Join(MembersText(fields), ",") == MemberText(f) + "," + restJoined;
      SeqAssoc(MemberText(f) + ",", restJoined, "}");
      SeqAssoc(MemberText(f) + ",", restJoined + "}", tail);
      SeqAssoc(MemberText(f), ",", restText);
      MoreMembers(f, rest, restText, tail);
      ConsOfTail(fields);
    }
  }

  /** The last member, followed by the closing brace. */
  lemma OneMember(f: (string, Json), tail: string)
    requires f.1.JStr? || (f.1.JNum? && f.1.n >= 0)
    ensures ParseMembers(MemberText(f) + "}" + tail) == Some(([f], tail))
  {
    var after := "}" + tail;
    SeqAssoc(MemberText(f), "}", tail);
    MemberRoundTrip(f, after);
    ParseMembersUnfold(MemberText(f) + after, f.0, f.1, Stringify(f.1), after);
    assert after[1..] == tail;
  }

  /** A member followed by a comma and the text of further members. */
  lemma MoreMembers(f: (string, Json), rest: seq<(string, Json)>, restText: string, tail: string)
    requires f.1.JStr? || (f.1.JNum? && f.1.n >= 0)
    requires ParseMembers(restText) == Some((rest, tail))
    ensures ParseMembers(MemberText(f) + ("," + restText)) == Some(([f] + rest, tail))
  {
    var after := "," + restText;
    MemberRoundTrip(f, after);
    ParseMembersUnfold(MemberText(f) + after, f.0, f.1, Stringify(f.1), after);
    assert after[1..] == restText;
  }

  /** Parsing what `JSON.stringify` writes for a flat object gives the object back. */
  lemma FlatObjectRoundTrip(fields: seq<(string, Json)>)
    requires IsFlat(fields)
    ensures ParseFlatObject(Stringify(JObj(fields))) == Some(JObj(fields))
  {
    var text := Stringify(JObj(fields));
    assert MembersText(fields) == seq(|fields|, i requires 0 <= i < |fields| => Quote(fields[i].0) + ":" + Stringify(fields[i].1));
    if |fields| == 0 {
      assert text == "{}";
    } else {
      MembersRoundTrip(fields, "");
      assert text[1..] == Join(MembersText(fields), ",") + "}" + "";
      assert text[0] == '{' && text[1] == '"';
    }
  }
}
