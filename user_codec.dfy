/**
 * The user blob kept under the `user` storage key. `login` stores
 * `JSON.stringify(payload)` and the store's initial state reads it back with
 * `JSON.parse`. The payload is `{ token: { access_token }, ...userFields }`;
 * this module gives it a JSON-shaped serialisation (string-valued fields, `"`
 * and `\` escaped) and a parser, and proves that parsing a serialised value
 * gives the value back.
 */
module UserCodec {
  import opened Wrappers

  datatype Field = Field(key: string, value: string)

  /** What `login` receives: the access token plus the remaining user fields. */
  datatype Payload = Payload(accessToken: string, fields: seq<Field>)

  /** The store's `user`: the empty object `{}` or a login payload. */
  datatype UserValue = Empty | Profile(payload: Payload)

  /**
   * Outcome of `JSON.parse` on a stored blob: a falsy JSON value (`null`,
   * `false`, `0`, `""`), a user value, or text the model does not read.
   */
  datatype Parsed = ParsedFalsy | ParsedUser(user: UserValue) | Malformed

  predicate IsFalsyJson(s: string)
  {
    s == "null" || s == "false" || s == "0" || s == "\"\""
  }

  function EscapeChar(c: char): string
  {
    if c == '"' || c == '\\' then ['\\', c] else [c]
  }

  function Escape(s: string): string
  {
    if s == [] then [] else EscapeChar(s[0]) + Escape(s[1..])
  }

  function Quote(s: string): string
  {
    "\"" + Escape(s) + "\""
  }

  const TokenPrefix: string := "{\"token\":{\"access_token\":"

  function EncodeFields(fs: seq<Field>): string
  {
    if fs == [] then "" else "," + Quote(fs[0].key) + ":" + Quote(fs[0].value) + EncodeFields(fs[1..])
  }

  /** `JSON.stringify` of the store's user value. */
  function Stringify(u: UserValue): string
  {
    match u
    case Empty => "{}"
    case Profile(p) => TokenPrefix + Quote(p.accessToken) + "}" + EncodeFields(p.fields) + "}"
  }

  /**
   * Reads the body of a string literal whose opening quote is already
   * consumed; returns the decoded text and what follows the closing quote.
   */
  function Unescape(s: string): (r: Option<(string, string)>)
    ensures r.Some? ==> |r.value.1| < |s|
  {
    if s == [] then None
    else if s[0] == '"' then Some(([], s[1..]))
    else if s[0] == '\\' then
      if |s| < 2 || !(s[1] == '"' || s[1] == '\\') then None
      else match Unescape(s[2..])
        case None => None
        case Some((body, rest)) => Some(([s[1]] + body, rest))
    else match Unescape(s[1..])
      case None => None
      case Some((body, rest)) => Some(([s[0]] + body, rest))
  }

  function ParseString(s: string): (r: Option<(string, string)>)
    ensures r.Some? ==> |r.value.1| < |s|
  {
    if s != [] && s[0] == '"' then Unescape(s[1..]) else None
  }

  /** Parses the `,"key":"value"` entries up to and including the closing brace. */
  function ParseFields(s: string): Option<seq<Field>>
    decreases |s|
  {
    if s == "}" then Some([])
    else if s != [] && s[0] == ',' then
      match ParseString(s[1..])
      case None => None
      case Some((k, r1)) =>
        if r1 != [] && r1[0] == ':' then
          match ParseString(r1[1..])
          case None => None
          case Some((v, r2)) =>
            match ParseFields(r2)
            case None => None
            case Some(fs) => Some([Field(k, v)] + fs)
        else None
    else None
  }

  /** `JSON.parse` of a stored blob: a falsy value, `{}`, a serialised payload, or anything else. */
  function Parse(s: string): Parsed
  {
    if IsFalsyJson(s) then ParsedFalsy
    else if s == "{}" then ParsedUser(Empty)
    else if |TokenPrefix| <= |s| && s[..|TokenPrefix|] == TokenPrefix then
      match ParseString(s[|TokenPrefix|..])
      case None => Malformed
      case Some((t, r)) =>
        if r != [] && r[0] == '}' then
          match ParseFields(r[1..])
          case None => Malformed
          case Some(fs) => ParsedUser(Profile(Payload(t, fs)))
        else Malformed
    else Malformed
  }

  lemma {:induction false} UnescapeEscape(x: string, rest: string)
    ensures Unescape(Escape(x) + "\"" + rest) == Some((x, rest))
  {
    if x == [] {
      assert Escape(x) + "\"" + rest == "\"" + rest;
    } else {
      var tail := Escape(x[1..]) + "\"" + rest;
      assert Escape(x) + "\"" + rest == EscapeChar(x[0]) + tail;
      UnescapeEscape(x[1..], rest);
      var s := EscapeChar(x[0]) + tail;
      if x[0] == '"' || x[0] == '\\' {
        assert s[2..] == tail;
      } else {
        assert s[1..] == tail;
      }
      assert [x[0]] + x[1..] == x;
    }
  }

  lemma ParseQuote(x: string, rest: string)
    ensures ParseString(Quote(x) + rest) == Some((x, rest))
  {
    var s := Quote(x) + rest;
    assert s[1..] == Escape(x) + "\"" + rest;
    UnescapeEscape(x, rest);
  }

  /** One serialised entry in front of `rest` parses to that entry followed by what `rest` parses to. */
  lemma ParseFieldsCons(f: Field, rest: string)
    ensures ParseFields("," + Quote(f.key) + ":" + Quote(f.value) + rest)
         == match ParseFields(rest) case None => None case Some(fs) => Some([f] + fs)
  {
    var r1 := ":" + Quote(f.value) + rest;
    var s := "," + Quote(f.key) + ":" + Quote(f.value) + rest;
    assert s == "," + (Quote(f.key) + r1);
    assert s[1..] == Quote(f.key) + r1;
    assert s[0] == ',' && s != "}";
    ParseQuote(f.key, r1);
    assert r1[0] == ':' && r1[1..] == Quote(f.value) + rest;
    ParseQuote(f.value, rest);
  }

  lemma {:induction false} ParseEncodedFields(fs: seq<Field>)
    ensures ParseFields(EncodeFields(fs) + "}") == Some(fs)
  {
    if fs == [] {
      assert EncodeFields(fs) + "}" == "}";
    } else {
      var f := fs[0];
      var after := EncodeFields(fs[1..]) + "}";
      assert EncodeFields(fs) + "}" == "," + Quote(f.key) + ":" + Quote(f.value) + after;
      ParseFieldsCons(f, after);
      ParseEncodedFields(fs[1..]);
      assert [f] + fs[1..] == fs;
    }
  }

  /** `JSON.parse(JSON.stringify(u))` gives `u` back. */
  lemma ParseStringify(u: UserValue)
    ensures Parse(Stringify(u)) == ParsedUser(u)
  {
    if u.Profile? {
      var p := u.payload;
      var after := "}" + EncodeFields(p.fields) + "}";
      var s := Stringify(u);
      assert s == TokenPrefix + (Quote(p.accessToken) + after);
      assert s[..|TokenPrefix|] == TokenPrefix;
      assert s[|TokenPrefix|..] == Quote(p.accessToken) + after;
      ParseQuote(p.accessToken, after);
      assert after[1..] == EncodeFields(p.fields) + "}";
      ParseEncodedFields(p.fields);
      assert |s| > 5;
    }
  }

  lemma ParsesEveryStringified()
    ensures forall u :: Parse(Stringify(u)) == ParsedUser(u)
  {
    forall u ensures Parse(Stringify(u)) == ParsedUser(u) {
      ParseStringify(u);
    }
  }

  /** Distinct user values never share a stored blob. */
  lemma StringifyInjective(u: UserValue, v: UserValue)
    requires Stringify(u) == Stringify(v)
    ensures u == v
  {
    ParseStringify(u);
    ParseStringify(v);
  }
}
