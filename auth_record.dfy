/** The records the session cache keeps under the storage key "userAuth" and
    their JSON text.

    `Stringify` produces the text `JSON.stringify` gives for the two record
    shapes the store writes (key order as in the object literals of
    src/stores/user.js, escapes as `JSON.stringify` writes them). `Parse`
    stands for `JSON.parse` and is partial: `None` stands for `JSON.parse`
    throwing. It accepts exactly the text `Stringify` writes (`ParseStringify`,
    `StringifyParse`), so it never accepts text `JSON.parse` rejects; other
    valid JSON it treats as malformed. */
module AuthRecord {
  import opened JsValues

  /** The user object the store builds: `{uid, email, name, emailVerified}`. */
  datatype Profile = Profile(uid: string, email: string, name: string, emailVerified: bool)

  /** What a storage tier can hold once parsed: the envelope written by
      `register` and `login`, or the bare user object that the state-change
      callback writes back. */
  datatype Record =
    | Envelope(user: Profile, timestamp: nat, remember: bool)
    | Bare(profile: Profile)

  // ---------------------------------------------------------------- text

  predicate IsDigit(c: char) { '0' <= c <= '9' }

  /** A control character, which JSON text may not hold raw inside a string. */
  predicate IsControl(c: char) { c < ' ' }

  /** The letter of the two-character escape `JSON.stringify` writes for `c`,
      if it has one. */
  function ShortEscape(c: char): Option<char> {
    if c == '"' || c == '\\' then Some(c)
    else if c == '\U{8}' then Some('b')
    else if c == '\t' then Some('t')
    else if c == '\n' then Some('n')
    else if c == '\U{C}' then Some('f')
    else if c == '\r' then Some('r')
    else None
  }

  /** The character a two-character escape with letter `l` stands for. */
  function ShortUnescape(l: char): Option<char> {
    if l == '"' || l == '\\' then Some(l)
    else if l == 'b' then Some('\U{8}')
    else if l == 't' then Some('\t')
    else if l == 'n' then Some('\n')
    else if l == 'f' then Some('\U{C}')
    else if l == 'r' then Some('\r')
    else None
  }

  predicate IsHexDigit(c: char) { '0' <= c <= '9' || 'a' <= c <= 'f' }

  /** Lower-case hexadecimal digit of `d`. */
  function HexDigit(d: nat): (c: char)
    requires d < 16
    ensures IsHexDigit(c)
  {
    if d < 10 then ('0' as int + d) as char else ('a' as int + d - 10) as char
  }

  function HexValue(c: char): (d: nat)
    requires IsHexDigit(c)
    ensures d < 16 && HexDigit(d) == c
  {
    if c <= '9' then c as int - '0' as int else c as int - 'a' as int + 10
  }

  /** How `JSON.stringify` writes one character of a string: a two-character
      escape, `\u00xx` for the other control characters, or the character
      itself. */
  function EscapeChar(c: char): string {
    match ShortEscape(c)
    case Some(l) => ['\\', l]
    case None =>
      if IsControl(c) then ['\\', 'u', '0', '0', HexDigit(c as int / 16), HexDigit(c as int % 16)]
      else [c]
  }

  /** The contents of a string literal as `JSON.stringify` writes them. */
  function Escape(s: string): string {
    if s == [] then [] else EscapeChar(s[0]) + Escape(s[1..])
  }

  function Quote(s: string): string {
    "\"" + Escape(s) + "\""
  }

  function BoolText(b: bool): string {
    if b then "true" else "false"
  }

  function DigitChar(d: nat): (c: char)
    requires d < 10
    ensures IsDigit(c)
  {
    ('0' as int + d) as char
  }

  /** Decimal text of a natural number, most significant digit first. */
  function NatText(n: nat): (t: string)
    ensures t != []
    ensures forall i :: 0 <= i < |t| ==> IsDigit(t[i])
    ensures n > 0 ==> t[0] != '0'
  {
    if n < 10 then [DigitChar(n)] else NatText(n / 10) + [DigitChar(n % 10)]
  }

  /** The text of a user object followed by `rest`. Each builder takes the
      text that follows it, so that the pieces nest to the right. */
  function ProfileText(p: Profile, rest: string): string {
    "{\"uid\":" + (Quote(p.uid) + AfterUid(p, rest))
  }

  function AfterUid(p: Profile, rest: string): string {
    ",\"email\":" + (Quote(p.email) + AfterEmail(p, rest))
  }

  function AfterEmail(p: Profile, rest: string): string {
    ",\"name\":" + (Quote(p.name) + AfterName(p, rest))
  }

  function AfterName(p: Profile, rest: string): string {
    ",\"emailVerified\":" + (BoolText(p.emailVerified) + ("}" + rest))
  }

  /** `JSON.stringify` of a record. */
  function Stringify(r: Record): string {
    match r
    case Envelope(u, t, rem) => "{\"user\":" + ProfileText(u, EnvelopeTail(t, rem))
    case Bare(p) => ProfileText(p, [])
  }

  /** The text after the user object of an envelope. */
  function EnvelopeTail(t: nat, rem: bool): string {
    ",\"timestamp\":" + (NatText(t) + RememberText(rem))
  }

  function RememberText(rem: bool): string {
    ",\"remember\":" + (BoolText(rem) + ("}" + []))
  }

  // ------------------------------------------------------------- parsing

  /** The rest of `s` after the literal `lit`, if `s` starts with it. */
  function Expect(lit: string, s: string): Option<string> {
    if lit <= s then Some(s[|lit|..]) else None
  }

  /** The character an escape sequence stands for, read after its backslash,
      and the text that follows. Only the escapes `JSON.stringify` writes are
      read; `JSON.parse` would also take `\/`, upper-case hexadecimal digits
      and `\u` escapes of other characters. */
  function Unescape(s: string): (r: Option<(char, string)>)
    ensures r.Some? ==> |r.value.1| < |s|
  {
    if s == [] then None
    else match ShortUnescape(s[0])
      case Some(c) => Some((c, s[1..]))
      case None =>
        if |s| >= 5 && s[..3] == "u00" && (s[3] == '0' || s[3] == '1') && IsHexDigit(s[4]) then
          var c := ((s[3] as int - '0' as int) * 16 + HexValue(s[4])) as char;
          if ShortEscape(c).None? then Some((c, s[5..])) else None
        else None
  }

  /** Contents of a string literal whose opening quote has been read,
      and the text after its closing quote. A raw control character or an
      unknown escape makes the text malformed. */
  function StringBody(s: string): Option<(string, string)>
    decreases |s|
  {
    if s == [] then None
    else if s[0] == '"' then Some(([], s[1..]))
    else if IsControl(s[0]) then None
    else if s[0] == '\\' then
      var (c, s1) :- Unescape(s[1..]);
      var (t, rest) :- StringBody(s1);
      Some(([c] + t, rest))
    else
      var (t, rest) :- StringBody(s[1..]);
      Some(([s[0]] + t, rest))
  }

  function ParseString(s: string): Option<(string, string)> {
    var s1 :- Expect("\"", s);
    StringBody(s1)
  }

  function ParseBool(s: string): Option<(bool, string)> {
    if "true" <= s then Some((true, s[4..]))
    else if "false" <= s then Some((false, s[5..]))
    else None
  }

  /** Length of the run of digits at the start of `s`. */
  function DigitRun(s: string): (k: nat)
    ensures k <= |s|
    ensures forall i :: 0 <= i < k ==> IsDigit(s[i])
    ensures k < |s| ==> !IsDigit(s[k])
  {
    if s == [] || !IsDigit(s[0]) then 0 else 1 + DigitRun(s[1..])
  }

  function DigitValue(c: char): nat
    requires IsDigit(c)
  {
    c as int - '0' as int
  }

  function DigitsValue(ds: string): nat
    requires forall i :: 0 <= i < |ds| ==> IsDigit(ds[i])
  {
    if ds == [] then 0
    else DigitsValue(ds[..|ds| - 1]) * 10 + DigitValue(ds[|ds| - 1])
  }

  /** A number written as `JSON.stringify` writes a natural number: digits,
      with no leading zero unless the number is 0. */
  function ParseNat(s: string): Option<(nat, string)> {
    var k := DigitRun(s);
    if k == 0 || (k > 1 && s[0] == '0') then None else Some((DigitsValue(s[..k]), s[k..]))
  }

  /** A key (with the punctuation before it) followed by a string value. */
  function StringField(key: string, s: string): Option<(string, string)> {
    var s1 :- Expect(key, s);
    ParseString(s1)
  }

  /** A key followed by a boolean value and the closing brace of its object. */
  function LastBoolField(key: string, s: string): Option<(bool, string)> {
    var s1 :- Expect(key, s);
    var (b, s2) :- ParseBool(s1);
    var s3 :- Expect("}", s2);
    Some((b, s3))
  }

  function ParseProfile(s: string): Option<(Profile, string)> {
    var (uid, s1) :- StringField("{\"uid\":", s);
    var (email, s2) :- StringField(",\"email\":", s1);
    var (name, s3) :- StringField(",\"name\":", s2);
    var (verified, s4) :- LastBoolField(",\"emailVerified\":", s3);
    Some((Profile(uid, email, name, verified), s4))
  }

  function ParseEnvelope(s: string): Option<(Record, string)> {
    var s1 :- Expect("{\"user\":", s);
    var (user, s2) :- ParseProfile(s1);
    var s3 :- Expect(",\"timestamp\":", s2);
    var (timestamp, s4) :- ParseNat(s3);
    var (remember, s5) :- LastBoolField(",\"remember\":", s4);
    Some((Envelope(user, timestamp, remember), s5))
  }

  /** `JSON.parse` of a stored value; `None` when the text is malformed. */
  function Parse(s: string): Option<Record> {
    match ParseEnvelope(s)
    case Some((r, rest)) => if rest == [] then Some(r) else None
    case None =>
      match ParseProfile(s)
      case Some((p, rest)) => if rest == [] then Some(Bare(p)) else None
      case None => None
  }

  // -------------------------------------------------------------- lemmas

  lemma ExpectLiteral(lit: string, rest: string)
    ensures Expect(lit, lit + rest) == Some(rest)
  {
  }

  /** An escaped character is read back as itself, ahead of what follows. */
  lemma StringBodyEscapeChar(c: char, tail: string, t: string, rest: string)
    requires StringBody(tail) == Some((t, rest))
    ensures StringBody(EscapeChar(c) + tail) == Some(([c] + t, rest))
  {
    var s := EscapeChar(c) + tail;
    match ShortEscape(c)
    case Some(l) =>
      assert s[1..] == [l] + tail;
      assert Unescape(s[1..]) == Some((c, tail));
    case None =>
      if IsControl(c) {
        assert s[1..][..3] == "u00";
        assert s[1..][5..] == tail;
        assert HexValue(s[5]) == c as int % 16;
        assert Unescape(s[1..]) == Some((c, tail));
      } else {
        assert s[1..] == tail;
      }
  }

  lemma {:induction false} StringBodyEscape(x: string, rest: string)
    ensures StringBody(Escape(x) + "\"" + rest) == Some((x, rest))
    decreases |x|
  {
    if x == [] {
      assert Escape(x) + "\"" + rest == ['"'] + rest;
    } else {
      assert Escape(x) + "\"" + rest == EscapeChar(x[0]) + (Escape(x[1..]) + "\"" + rest);
      StringBodyEscape(x[1..], rest);
      StringBodyEscapeChar(x[0], Escape(x[1..]) + "\"" + rest, x[1..], rest);
      assert [x[0]] + x[1..] == x;
    }
  }

  lemma ParseStringQuote(x: string, rest: string)
    ensures ParseString(Quote(x) + rest) == Some((x, rest))
  {
    assert Quote(x) + rest == "\"" + (Escape(x) + "\"" + rest);
    ExpectLiteral("\"", Escape(x) + "\"" + rest);
    StringBodyEscape(x, rest);
  }

  lemma ParseBoolText(b: bool, rest: string)
    ensures ParseBool(BoolText(b) + rest) == Some((b, rest))
  {
    if b {
      assert "true" <= BoolText(b) + rest;
      assert (BoolText(b) + rest)[4..] == rest;
    } else {
      assert !("true" <= BoolText(b) + rest) by {
        assert (BoolText(b) + rest)[0] == 'f';
      }
      assert "false" <= BoolText(b) + rest;
      assert (BoolText(b) + rest)[5..] == rest;
    }
  }

  lemma {:induction false} DigitsValueNatText(n: nat)
    ensures DigitsValue(NatText(n)) == n
  {
    if n >= 10 {
      var t := NatText(n);
      assert t[..|t| - 1] == NatText(n / 10);
      DigitsValueNatText(n / 10);
    }
  }

  lemma {:induction false} DigitRunAppend(t: string, rest: string)
    requires forall i :: 0 <= i < |t| ==> IsDigit(t[i])
    requires rest == [] || !IsDigit(rest[0])
    ensures DigitRun(t + rest) == |t|
  {
    if t == [] {
      assert t + rest == rest;
    } else {
      assert (t + rest)[1..] == t[1..] + rest;
      DigitRunAppend(t[1..], rest);
    }
  }

  lemma ParseNatText(n: nat, rest: string)
    requires rest == [] || !IsDigit(rest[0])
    ensures ParseNat(NatText(n) + rest) == Some((n, rest))
  {
    var t := NatText(n);
    DigitRunAppend(t, rest);
    assert (t + rest)[..|t|] == t;
    assert (t + rest)[|t|..] == rest;
    DigitsValueNatText(n);
  }

  lemma StringFieldText(key: string, x: string, rest: string)
    ensures StringField(key, key + (Quote(x) + rest)) == Some((x, rest))
  {
    ExpectLiteral(key, Quote(x) + rest);
    ParseStringQuote(x, rest);
  }

  lemma LastBoolFieldText(key: string, b: bool, rest: string)
    ensures LastBoolField(key, key + (BoolText(b) + ("}" + rest))) == Some((b, rest))
  {
    ExpectLiteral(key, BoolText(b) + ("}" + rest));
    ParseBoolText(b, "}" + rest);
    ExpectLiteral("}", rest);
  }

  lemma ParseProfileText(p: Profile, rest: string)
    ensures ParseProfile(ProfileText(p, rest)) == Some((p, rest))
  {
    // each field in turn, so that the solver follows the chain of `:-`
    StringFieldText("{\"uid\":", p.uid, AfterUid(p, rest));
    StringFieldText(",\"email\":", p.email, AfterEmail(p, rest));
    StringFieldText(",\"name\":", p.name, AfterName(p, rest));
    LastBoolFieldText(",\"emailVerified\":", p.emailVerified, rest);
  }

  lemma ParseEnvelopeTail(t: nat, rem: bool)
    ensures Expect(",\"timestamp\":", EnvelopeTail(t, rem)) == Some(NatText(t) + RememberText(rem))
    ensures ParseNat(NatText(t) + RememberText(rem)) == Some((t, RememberText(rem)))
    ensures LastBoolField(",\"remember\":", RememberText(rem)) == Some((rem, []))
  {
    var e2 := RememberText(rem);
    ExpectLiteral(",\"timestamp\":", NatText(t) + e2);
    assert e2[0] == ',';
    ParseNatText(t, e2);
    LastBoolFieldText(",\"remember\":", rem, []);
  }

  lemma ParseEnvelopeText(u: Profile, t: nat, rem: bool)
    ensures ParseEnvelope(Stringify(Envelope(u, t, rem))) == Some((Envelope(u, t, rem), []))
  {
    var tail := EnvelopeTail(t, rem);
    ExpectLiteral("{\"user\":", ProfileText(u, tail));
    ParseProfileText(u, tail);
    ParseEnvelopeTail(t, rem);
  }

  /** What `JSON.stringify` writes, `JSON.parse` reads back unchanged. */
  lemma ParseStringify(r: Record)
    ensures Parse(Stringify(r)) == Some(r)
  {
    match r
    case Envelope(u, t, rem) =>
      ParseEnvelopeText(u, t, rem);
    case Bare(p) =>
      var s := Stringify(r);
      assert s[3] == 'i';
      assert ParseEnvelope(s) == None by {
        assert !("{\"user\":" <= s) by { assert "{\"user\":"[3] == 's'; }
      }
      ParseProfileText(p, []);
  }

  // ------------------------------------------ only written text is read

  lemma ExpectInverse(lit: string, s: string, t: string)
    requires Expect(lit, s) == Some(t)
    ensures s == lit + t
  {
    assert s == s[..|lit|] + s[|lit|..];
  }

  /** An escape sequence that is read is the one written for its character. */
  lemma UnescapeInverse(s: string, c: char, rest: string)
    requires Unescape(s) == Some((c, rest))
    ensures ['\\'] + s == EscapeChar(c) + rest
  {
    match ShortUnescape(s[0])
    case Some(_) =>
      assert ShortEscape(c) == Some(s[0]);
      assert s == [s[0]] + rest;
    case None =>
      var v := (s[3] as int - '0' as int) * 16 + HexValue(s[4]);
      assert c as int == v && v / 16 == s[3] as int - '0' as int && v % 16 == HexValue(s[4]);
      assert HexDigit(v / 16) == s[3];
      assert s == s[..3] + [s[3], s[4]] + rest;
  }

  lemma {:induction false} StringBodyInverse(s: string, x: string, rest: string)
    requires StringBody(s) == Some((x, rest))
    ensures s == Escape(x) + ("\"" + rest)
    decreases |s|
  {
    if s[0] == '"' {
      assert s == "\"" + rest;
    } else if s[0] == '\\' {
      var (c, s1) := Unescape(s[1..]).value;
      var (t, r) := StringBody(s1).value;
      assert x == [c] + t && r == rest;
      UnescapeInverse(s[1..], c, s1);
      StringBodyInverse(s1, t, rest);
      assert Escape(x) == EscapeChar(c) + Escape(t);
      assert s == ['\\'] + s[1..];
    } else {
      var (t, r) := StringBody(s[1..]).value;
      assert x == [s[0]] + t && r == rest;
      StringBodyInverse(s[1..], t, rest);
      assert Escape(x) == EscapeChar(s[0]) + Escape(t);
      assert s == [s[0]] + s[1..];
    }
  }

  lemma StringFieldInverse(key: string, s: string, x: string, rest: string)
    requires StringField(key, s) == Some((x, rest))
    ensures s == key + (Quote(x) + rest)
  {
    var s1 := Expect(key, s).value;
    ExpectInverse(key, s, s1);
    var s2 := Expect("\"", s1).value;
    ExpectInverse("\"", s1, s2);
    StringBodyInverse(s2, x, rest);
    assert Quote(x) + rest == "\"" + (Escape(x) + ("\"" + rest));
  }

  lemma LastBoolFieldInverse(key: string, s: string, b: bool, rest: string)
    requires LastBoolField(key, s) == Some((b, rest))
    ensures s == key + (BoolText(b) + ("}" + rest))
  {
    var s1 := Expect(key, s).value;
    ExpectInverse(key, s, s1);
    var (_, s2) := ParseBool(s1).value;
    assert s1 == BoolText(b) + s2;
    ExpectInverse("}", s2, rest);
  }

  /** Digits with no leading zero are the decimal text of their value. */
  lemma {:induction false} NatTextDigitsValue(ds: string)
    requires ds != [] && forall i :: 0 <= i < |ds| ==> IsDigit(ds[i])
    requires |ds| == 1 || ds[0] != '0'
    ensures NatText(DigitsValue(ds)) == ds
    ensures ds[0] != '0' ==> DigitsValue(ds) > 0
    decreases |ds|
  {
    var init := ds[..|ds| - 1];
    if |ds| > 1 {
      assert init[0] == ds[0];
      NatTextDigitsValue(init);
      assert ds == init + [ds[|ds| - 1]];
    }
  }

  lemma ParseNatInverse(s: string, n: nat, rest: string)
    requires ParseNat(s) == Some((n, rest))
    ensures s == NatText(n) + rest
  {
    var k := DigitRun(s);
    NatTextDigitsValue(s[..k]);
    assert s == s[..k] + s[k..];
  }

  lemma ParseProfileInverse(s: string, p: Profile, rest: string)
    requires ParseProfile(s) == Some((p, rest))
    ensures s == ProfileText(p, rest)
  {
    var (uid, s1) := StringField("{\"uid\":", s).value;
    var (email, s2) := StringField(",\"email\":", s1).value;
    var (name, s3) := StringField(",\"name\":", s2).value;
    var (verified, s4) := LastBoolField(",\"emailVerified\":", s3).value;
    assert p == Profile(uid, email, name, verified) && s4 == rest;
    LastBoolFieldInverse(",\"emailVerified\":", s3, verified, rest);
    StringFieldInverse(",\"name\":", s2, name, s3);
    StringFieldInverse(",\"email\":", s1, email, s2);
    StringFieldInverse("{\"uid\":", s, uid, s1);
  }

  lemma ParseEnvelopeInverse(s: string, r: Record)
    requires ParseEnvelope(s) == Some((r, []))
    ensures s == Stringify(r)
  {
    var s1 := Expect("{\"user\":", s).value;
    var (user, s2) := ParseProfile(s1).value;
    var s3 := Expect(",\"timestamp\":", s2).value;
    var (timestamp, s4) := ParseNat(s3).value;
    var (remember, s5) := LastBoolField(",\"remember\":", s4).value;
    assert r == Envelope(user, timestamp, remember) && s5 == [];
    LastBoolFieldInverse(",\"remember\":", s4, remember, []);
    ParseNatInverse(s3, timestamp, s4);
    ExpectInverse(",\"timestamp\":", s2, s3);
    ParseProfileInverse(s1, user, s2);
    ExpectInverse("{\"user\":", s, s1);
  }

  /** `Parse` accepts nothing but the text `JSON.stringify` writes for a
      record, so whatever it accepts, `JSON.parse` reads as the same record. */
  lemma StringifyParse(s: string, r: Record)
    requires Parse(s) == Some(r)
    ensures s == Stringify(r)
  {
    match ParseEnvelope(s)
    case Some(_) =>
      ParseEnvelopeInverse(s, r);
    case None =>
      ParseProfileInverse(s, r.profile, []);
  }

  /** Every stored record has non-empty text, so a tier that holds one is truthy. */
  lemma StringifyTruthy(r: Record)
    ensures Truthy(Some(Stringify(r)))
  {
  }

  /** Text that is empty or does not start an object is malformed. */
  lemma ParseRejectsNonObject(s: string)
    requires s == [] || s[0] != '{'
    ensures Parse(s) == None
  {
  }
}
