/**
 * The part of JSON the event stream and the front-matter use: `JSON.stringify`
 * of a string (QuoteJSONString of ECMA-262) and of an object whose properties
 * are all strings, and `JSON.parse` restricted to such objects.
 */
module Json {
  import opened Wrappers
  import opened Text

  /** No control character (below U+0020) occurs in `s`; in particular no line break. */
  predicate NoControl(s: string) {
    forall i :: 0 <= i < |s| ==> s[i] as int >= 0x20
  }

  function HexDigit(d: nat): (c: char)
    requires d < 16
    ensures c as int >= 0x20
  {
    "0123456789abcdef"[d]
  }

  /** The value of a hexadecimal digit of either case. */
  function HexValue(c: char): Option<nat>
  {
    if '0' as int <= c as int <= '9' as int then Some(c as int - '0' as int)
    else if 'a' as int <= c as int <= 'f' as int then Some(c as int - 'a' as int + 10)
    else if 'A' as int <= c as int <= 'F' as int then Some(c as int - 'A' as int + 10)
    else None
  }

  lemma HexRoundTrip(d: nat)
    requires d < 16
    ensures HexValue(HexDigit(d)) == Some(d)
  {
    var digits := "0123456789abcdef";
    assert digits[d] as int == if d < 10 then '0' as int + d else 'a' as int + d - 10;
  }

  /** What `JSON.stringify` writes for one character inside a string literal. */
  function EscapeChar(c: char): (r: string)
    ensures NoControl(r) && r != []
  {
    if c == '"' then "\\\""
    else if c == '\\' then "\\\\"
    else if c == '\U{8}' then "\\b"
    else if c == '\U{C}' then "\\f"
    else if c == '\n' then "\\n"
    else if c == '\r' then "\\r"
    else if c == '\t' then "\\t"
    else if c as int < 0x20 then "\\u00" + [HexDigit(c as int / 16), HexDigit(c as int % 16)]
    else [c]
  }

  function QuoteBody(s: string): string
  {
    if s == [] then "" else EscapeChar(s[0]) + QuoteBody(s[1..])
  }

  /** `JSON.stringify(s)` for a string `s`: never contains a control character, so never a line break. */
  function Quote(s: string): (r: string)
    ensures |r| >= 2 && r[0] == '"' && r[|r| - 1] == '"'
  {
    "\"" + QuoteBody(s) + "\""
  }

  /** Decodes the escape sequence at the start of `s` (which begins with a backslash):
      the character and how many characters the sequence takes. Escapes of UTF-16
      surrogates are refused. */
  function Unescape(s: string): (r: Option<(char, nat)>)
    requires |s| >= 2 && s[0] == '\\'
    ensures r.Some? ==> 2 <= r.value.1 <= |s|
  {
    var e := s[1];
    if e == '"' then Some(('"', 2))
    else if e == '\\' then Some(('\\', 2))
    else if e == '/' then Some(('/', 2))
    else if e == 'b' then Some(('\U{8}', 2))
    else if e == 'f' then Some(('\U{C}', 2))
    else if e == 'n' then Some(('\n', 2))
    else if e == 'r' then Some(('\r', 2))
    else if e == 't' then Some(('\t', 2))
    else if e == 'u' && |s| >= 6 then
      match (HexValue(s[2]), HexValue(s[3]), HexValue(s[4]), HexValue(s[5]))
      case (Some(a), Some(b), Some(c), Some(d)) =>
        var code := a * 4096 + b * 256 + c * 16 + d;
        if code < 0xD800 || 0xE000 <= code < 0x11_0000 then Some((code as char, 6)) else None
      case _ => None
    else None
  }

  /** Reads the characters of a string literal after its opening quote, through its
      closing quote: the decoded string and what follows the literal. */
  function ParseStringBody(s: string): (r: Option<(string, string)>)
    ensures r.Some? ==> |r.value.1| < |s|
    decreases |s|
  {
    if s == [] then None
    else if s[0] == '"' then Some(("", s[1..]))
    else if s[0] == '\\' then
      if |s| < 2 then None
      else
        match Unescape(s)
        case None => None
        case Some((ch, n)) =>
          match ParseStringBody(s[n..])
          case None => None
          case Some((v, rest)) => Some(([ch] + v, rest))
    else if s[0] as int < 0x20 then None
    else
      match ParseStringBody(s[1..])
      case None => None
      case Some((v, rest)) => Some(([s[0]] + v, rest))
  }

  /** Reading one escaped character back. */
  lemma UnescapeEscape(c: char, more: string)
    ensures var e := EscapeChar(c) + more;
            if EscapeChar(c) == [c] then c != '"' && c != '\\' && c as int >= 0x20
            else |e| >= 2 && e[0] == '\\' && Unescape(e) == Some((c, |EscapeChar(c)|))
  {
    var e := EscapeChar(c) + more;
    if c != '"' && c != '\\' && c != '\U{8}' && c != '\U{C}' && c != '\n' && c != '\r' && c != '\t' && c as int < 0x20 {
      var hi, lo := c as int / 16, c as int % 16;
      HexRoundTrip(0);
      HexRoundTrip(hi);
      HexRoundTrip(lo);
      assert e[2] == '0' && e[3] == '0' && e[4] == HexDigit(hi) && e[5] == HexDigit(lo);
      assert 0 * 4096 + 0 * 256 + hi * 16 + lo == c as int;
    }
  }

  /** Parsing a quoted string gives the string back, and what follows it. */
  lemma {:induction false} ParseQuoteBody(s: string, rest: string)
    ensures ParseStringBody(QuoteBody(s) + ("\"" + rest)) == Some((s, rest))
    decreases |s|
  {
    if s == [] {
      assert QuoteBody(s) + ("\"" + rest) == "\"" + rest;
    } else {
      var tail := QuoteBody(s[1..]) + ("\"" + rest);
      QuoteBodyCons(s, "\"" + rest);
      ParseQuoteBody(s[1..], rest);
      ParseCharStep(s[0], tail, s[1..], rest);
      assert [s[0]] + s[1..] == s;
    }
  }

  lemma QuoteBodyCons(s: string, suffix: string)
    requires s != []
    ensures QuoteBody(s) + suffix == EscapeChar(s[0]) + (QuoteBody(s[1..]) + suffix)
  {
    assert QuoteBody(s) == EscapeChar(s[0]) + QuoteBody(s[1..]);
    ConcatAssoc(EscapeChar(s[0]), QuoteBody(s[1..]), suffix);
  }

  /** One written character, then a literal's remainder: the character is read back first. */
  lemma ParseCharStep(c: char, tail: string, v: string, rest: string)
    requires ParseStringBody(tail) == Some((v, rest))
    ensures ParseStringBody(EscapeChar(c) + tail) == Some(([c] + v, rest))
  {
    var e := EscapeChar(c) + tail;
    UnescapeEscape(c, tail);
    if EscapeChar(c) == [c] {
      assert e[0] == c && e[1..] == tail;
    } else {
      assert e[|EscapeChar(c)|..] == tail;
    }
  }

  /** JSON insignificant whitespace. */
  predicate IsJsonSpace(c: char) {
    c == ' ' || c == '\t' || c == '\n' || c == '\r'
  }

  function SkipWs(s: string): (r: string)
    ensures |r| <= |s|
  {
    if s != [] && IsJsonSpace(s[0]) then SkipWs(s[1..]) else s
  }

  /** One property `"key":"value"`. */
  function EncodeMember(m: (string, string)): (r: string)
    ensures |r| >= 5 && r[0] == '"'
  {
    Quote(m.0) + ":" + Quote(m.1)
  }

  function EncodeMembers(ms: seq<(string, string)>): string
  {
    if ms == [] then ""
    else if |ms| == 1 then EncodeMember(ms[0])
    else EncodeMember(ms[0]) + "," + EncodeMembers(ms[1..])
  }

  /** `JSON.stringify` of an object whose properties, in order, are the given string pairs:
      a single line that starts with `{` and ends with `}`. */
  function EncodeObject(ms: seq<(string, string)>): (r: string)
    ensures |r| >= 2 && r[0] == '{' && r[|r| - 1] == '}'
  {
    "{" + EncodeMembers(ms) + "}"
  }

  /** One property, starting at its key's opening quote. */
  function ParseMember(s: string): (r: Option<((string, string), string)>)
    ensures r.Some? ==> |r.value.1| < |s|
  {
    if s == [] || s[0] != '"' then None
    else
      match ParseStringBody(s[1..])
      case None => None
      case Some((k, afterKey)) =>
        var a := SkipWs(afterKey);
        if a == [] || a[0] != ':' then None
        else
          var b := SkipWs(a[1..]);
          if b == [] || b[0] != '"' then None
          else
            match ParseStringBody(b[1..])
            case None => None
            case Some((v, rest)) => Some(((k, v), rest))
  }

  /** The properties of an object from its first key through the closing brace. */
  function ParseMembers(s: string): (r: Option<(seq<(string, string)>, string)>)
    ensures r.Some? ==> |r.value.1| < |s|
    decreases |s|
  {
    match ParseMember(s)
    case None => None
    case Some((m, rest)) =>
      var t := SkipWs(rest);
      if t == [] then None
      else if t[0] == '}' then Some(([m], t[1..]))
      else if t[0] == ',' then
        match ParseMembers(SkipWs(t[1..]))
        case None => None
        case Some((ms, after)) => Some(([m] + ms, after))
      else None
  }

  /** `JSON.parse` of an object whose property values are all strings; anything else
      (other JSON values, malformed text, trailing text) is `None`. */
  function ParseObject(s: string): Option<seq<(string, string)>>
  {
    var t := SkipWs(s);
    if t == [] || t[0] != '{' then None
    else
      var u := SkipWs(t[1..]);
      if u != [] && u[0] == '}' then (if SkipWs(u[1..]) == [] then Some([]) else None)
      else
        match ParseMembers(u)
        case None => None
        case Some((ms, rest)) => if SkipWs(rest) == [] then Some(ms) else None
  }

  lemma SkipWsNone(s: string)
    requires s != [] && !IsJsonSpace(s[0])
    ensures SkipWs(s) == s
  {
  }

  /** A literal written by `Quote`, followed by anything, parses back to its string. */
  lemma ParseQuoted(t: string, rest: string, s: string)
    requires s == Quote(t) + rest
    ensures s != [] && s[0] == '"'
    ensures ParseStringBody(s[1..]) == Some((t, rest))
  {
    assert s == "\"" + (QuoteBody(t) + ("\"" + rest));
    assert s[1..] == QuoteBody(t) + ("\"" + rest);
    ParseQuoteBody(t, rest);
  }

  /** `JSON.parse` of a text that should hold exactly one string literal. */
  function ParseString(s: string): Option<string> {
    if s == [] || s[0] != '"' then None
    else
      match ParseStringBody(s[1..])
      case None => None
      case Some((t, rest)) => if rest == [] then Some(t) else None
  }

  /** `JSON.parse(JSON.stringify(t)) == t` for a string `t`. */
  lemma ParseStringQuote(t: string)
    ensures ParseString(Quote(t)) == Some(t)
  {
    ParseQuoted(t, "", Quote(t));
    assert Quote(t) + "" == Quote(t);
  }

  lemma ParseMemberEncoded(m: (string, string), rest: string)
    ensures ParseMember(EncodeMember(m) + rest) == Some((m, rest))
  {
    var s := EncodeMember(m) + rest;
    var b := Quote(m.1) + rest;
    var afterKey := ":" + b;
    assert s == Quote(m.0) + afterKey;
    ParseQuoted(m.0, afterKey, s);
    ParseQuoted(m.1, rest, b);
    ParseMemberShape(s, m.0, afterKey, m.1, rest);
  }

  /** A key literal, a colon and a value literal, with no whitespace between, make a member. */
  lemma ParseMemberShape(s: string, k: string, afterKey: string, v: string, rest: string)
    requires s != [] && s[0] == '"' && ParseStringBody(s[1..]) == Some((k, afterKey))
    requires afterKey != [] && afterKey[0] == ':'
    requires afterKey[1..] != [] && afterKey[1..][0] == '"' && ParseStringBody(afterKey[1..][1..]) == Some((v, rest))
    ensures ParseMember(s) == Some(((k, v), rest))
  {
    SkipWsNone(afterKey);
    SkipWsNone(afterKey[1..]);
  }

  lemma EncodeMembersFirst(ms: seq<(string, string)>)
    requires ms != []
    ensures EncodeMembers(ms) != [] && EncodeMembers(ms)[0] == '"'
  {
    var e := EncodeMember(ms[0]);
    if |ms| > 1 {
      var x := e + ",";
      assert x[0] == '"';
      assert EncodeMembers(ms) == x + EncodeMembers(ms[1..]);
    }
  }

  lemma ParseMembersLast(m: (string, string), rest: string)
    ensures ParseMembers(EncodeMember(m) + "}" + rest) == Some(([m], rest))
  {
    var t := "}" + rest;
    assert EncodeMember(m) + "}" + rest == EncodeMember(m) + t;
    ParseMemberEncoded(m, t);
    SkipWsNone(t);
    assert t[1..] == rest;
  }

  lemma ParseMembersCons(m: (string, string), tail: string, ms: seq<(string, string)>, rest: string)
    requires tail != [] && tail[0] == '"'
    requires ParseMembers(tail) == Some((ms, rest))
    ensures ParseMembers(EncodeMember(m) + "," + tail) == Some(([m] + ms, rest))
  {
    var t := "," + tail;
    assert EncodeMember(m) + "," + tail == EncodeMember(m) + t;
    ParseMemberEncoded(m, t);
    SkipWsNone(t);
    assert t[1..] == tail;
    SkipWsNone(tail);
  }

  lemma EncodeMembersCons(ms: seq<(string, string)>, rest: string)
    requires |ms| > 1
    ensures EncodeMembers(ms) + "}" + rest == EncodeMember(ms[0]) + "," + (EncodeMembers(ms[1..]) + "}" + rest)
  {
    var a, b := EncodeMember(ms[0]), EncodeMembers(ms[1..]);
    assert EncodeMembers(ms) == a + "," + b;
    SeqAssoc(a, b, rest);
  }

  lemma SeqAssoc(a: string, b: string, rest: string)
    ensures a + "," + b + "}" + rest == a + "," + (b + "}" + rest)
  {
  }

  lemma {:induction false} ParseMembersEncoded(ms: seq<(string, string)>, rest: string)
    requires ms != []
    ensures ParseMembers(EncodeMembers(ms) + "}" + rest) == Some((ms, rest))
    decreases |ms|
  {
    if |ms| == 1 {
      ParseMembersLast(ms[0], rest);
      assert EncodeMembers(ms) == EncodeMember(ms[0]);
      assert ms == [ms[0]];
    } else {
      var tail := EncodeMembers(ms[1..]) + "}" + rest;
      EncodeMembersFirst(ms[1..]);
      ParseMembersEncoded(ms[1..], rest);
      ParseMembersCons(ms[0], tail, ms[1..], rest);
      EncodeMembersCons(ms, rest);
      assert [ms[0]] + ms[1..] == ms;
    }
  }

  /** Round trip: `JSON.parse(JSON.stringify(o))` gives back the same properties in the same order. */
  lemma ParseEncodedObject(ms: seq<(string, string)>)
    ensures ParseObject(EncodeObject(ms)) == Some(ms)
  {
    var s := EncodeObject(ms);
    if ms == [] {
      assert s == "{}";
      ParseObjectShape(s, ms, "");
    } else {
      var e := EncodeMembers(ms);
      ConcatAssoc("{", e, "}");
      assert s[1..] == e + "}";
      assert e + "}" + "" == e + "}";
      EncodeMembersFirst(ms);
      ParseMembersEncoded(ms, "");
      ParseObjectShape(s, ms, "");
    }
  }

  /** A brace, then either a closing brace or members ending in one, and nothing after. */
  lemma ParseObjectShape(s: string, ms: seq<(string, string)>, rest: string)
    requires rest == [] && s != [] && s[0] == '{' && s[1..] != []
    requires ms == [] ==> s[1..] == "}"
    requires ms != [] ==> s[1..][0] == '"' && ParseMembers(s[1..]) == Some((ms, rest))
    ensures ParseObject(s) == Some(ms)
  {
    SkipWsNone(s);
    SkipWsNone(s[1..]);
    if ms == [] {
      assert s[1..][1..] == [];
    }
  }

  lemma NoControlConcat(a: string, b: string)
    requires NoControl(a) && NoControl(b)
    ensures NoControl(a + b)
  {
    assert forall i :: 0 <= i < |a + b| ==> (a + b)[i] == if i < |a| then a[i] else b[i - |a|];
  }

  lemma {:induction false} QuoteBodyNoControl(s: string)
    ensures NoControl(QuoteBody(s))
    decreases |s|
  {
    if s != [] {
      QuoteBodyNoControl(s[1..]);
      NoControlConcat(EscapeChar(s[0]), QuoteBody(s[1..]));
    }
  }

  /** `JSON.stringify` of a string is free of control characters, so it never breaks a line. */
  lemma QuoteNoControl(s: string)
    ensures NoControl(Quote(s))
  {
    QuoteBodyNoControl(s);
    NoControlConcat("\"", QuoteBody(s));
    NoControlConcat("\"" + QuoteBody(s), "\"");
  }

  lemma {:induction false} EncodeMembersNoControl(ms: seq<(string, string)>)
    ensures NoControl(EncodeMembers(ms))
    decreases |ms|
  {
    if ms != [] {
      var m := ms[0];
      QuoteNoControl(m.0);
      QuoteNoControl(m.1);
      NoControlConcat(Quote(m.0), ":");
      NoControlConcat(Quote(m.0) + ":", Quote(m.1));
      if |ms| > 1 {
        EncodeMembersNoControl(ms[1..]);
        NoControlConcat(EncodeMember(m), ",");
        NoControlConcat(EncodeMember(m) + ",", EncodeMembers(ms[1..]));
      }
    }
  }

  /** `JSON.stringify` of a string-valued object is free of control characters: it is one line. */
  lemma EncodeObjectNoControl(ms: seq<(string, string)>)
    ensures NoControl(EncodeObject(ms))
  {
    EncodeMembersNoControl(ms);
    NoControlConcat("{", EncodeMembers(ms));
    NoControlConcat("{" + EncodeMembers(ms), "}");
  }

  /** The property `k` of a parsed object; a repeated key takes its last value, as in `JSON.parse`. */
  function Field(ms: seq<(string, string)>, k: string): (r: Option<string>)
    ensures r.Some? <==> exists i :: 0 <= i < |ms| && ms[i].0 == k
  {
    if ms == [] then None
    else
      match Field(ms[..|ms| - 1], k)
      case r =>
        if ms[|ms| - 1].0 == k then Some(ms[|ms| - 1].1)
        else
          assert forall i :: 0 <= i < |ms| - 1 ==> ms[..|ms| - 1][i] == ms[i];
          r
  }
}
