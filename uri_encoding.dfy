/**
 * `encodeURIComponent`: every character outside the unreserved set is
 * written as the percent-encoded bytes of its UTF-8 form. Also the
 * application/x-www-form-urlencoded byte serializer of the WHATWG URL
 * Standard, which `URLSearchParams` uses to write a query.
 */
module UriEncoding {
  /** The characters `encodeURIComponent` leaves as they are. */
  predicate Unreserved(c: char) {
    ('A' <= c <= 'Z') || ('a' <= c <= 'z') || ('0' <= c <= '9')
    || c == '-' || c == '_' || c == '.' || c == '!' || c == '~'
    || c == '*' || c == '\'' || c == '(' || c == ')'
  }

  /** A character that may appear in an encoded component. */
  predicate EncodedChar(c: char) {
    Unreserved(c) || c == '%'
  }

  /** The UTF-8 bytes of a Unicode scalar value. */
  function Utf8(c: char): (bytes: seq<int>)
    ensures 1 <= |bytes| <= 4
    ensures forall i :: 0 <= i < |bytes| ==> 0 <= bytes[i] < 256
    ensures (c as int < 0x80) <==> |bytes| == 1
  {
    var cp := c as int;
    if cp < 0x80 then [cp]
    else if cp < 0x800 then [0xC0 + cp / 64, 0x80 + cp % 64]
    else if cp < 0x10000 then [0xE0 + cp / 4096, 0x80 + (cp / 64) % 64, 0x80 + cp % 64]
    else [0xF0 + cp / 262144, 0x80 + (cp / 4096) % 64, 0x80 + (cp / 64) % 64, 0x80 + cp % 64]
  }

  function HexDigit(d: int): (c: char)
    requires 0 <= d < 16
    ensures ('0' <= c <= '9') || ('A' <= c <= 'F')
  {
    if d < 10 then ('0' as int + d) as char else ('A' as int + d - 10) as char
  }

  /** `%XX` for every byte, with upper-case hexadecimal digits. */
  function PercentBytes(bytes: seq<int>): (r: string)
    requires forall i :: 0 <= i < |bytes| ==> 0 <= bytes[i] < 256
    ensures |r| == 3 * |bytes|
    ensures forall i :: 0 <= i < |r| ==> r[i] == '%' || ('0' <= r[i] <= '9') || ('A' <= r[i] <= 'F')
    ensures forall i :: 0 <= i < |r| ==> EncodedChar(r[i])
    ensures forall i :: 0 <= i < |bytes| ==> r[3 * i] == '%'
  {
    if bytes == [] then ""
    else
      var rest := PercentBytes(bytes[1..]);
      var r := ['%', HexDigit(bytes[0] / 16), HexDigit(bytes[0] % 16)] + rest;
      assert forall i :: 1 <= i < |bytes| ==> r[3 * i] == rest[3 * (i - 1)] == '%';
      r
  }

  function EncodeChar(c: char): (r: string)
    ensures Unreserved(c) ==> r == [c]
    ensures !Unreserved(c) ==> |r| >= 3 && r[0] == '%'
    ensures forall i :: 0 <= i < |r| ==> EncodedChar(r[i])
  {
    if Unreserved(c) then [c] else PercentBytes(Utf8(c))
  }

  /**
   * The encoded component holds only unreserved characters and `%`, so in
   * particular no `/`, `?`, `&`, `#`, `=` or space; a string of unreserved
   * characters is its own encoding.
   */
  function EncodeUriComponent(s: string): (r: string)
    ensures |r| >= |s|
    ensures forall i :: 0 <= i < |r| ==> EncodedChar(r[i])
    ensures (forall i :: 0 <= i < |s| ==> Unreserved(s[i])) ==> r == s
  {
    if s == [] then ""
    else
      var r := EncodeChar(s[0]) + EncodeUriComponent(s[1..]);
      assert (forall i :: 0 <= i < |s| ==> Unreserved(s[i])) ==> r == s by {
        if forall i :: 0 <= i < |s| ==> Unreserved(s[i]) {
          assert forall i :: 0 <= i < |s| - 1 ==> Unreserved(s[1..][i]);
          assert r == [s[0]] + s[1..];
        }
      }
      r
  }

  /** Encoding works character by character, so it distributes over concatenation. */
  lemma {:induction false} EncodeAppend(a: string, b: string)
    ensures EncodeUriComponent(a + b) == EncodeUriComponent(a) + EncodeUriComponent(b)
  {
    if a == [] {
      assert a + b == b;
    } else {
      assert (a + b)[0] == a[0];
      assert (a + b)[1..] == a[1..] + b;
      EncodeAppend(a[1..], b);
      calc {
        EncodeUriComponent(a + b);
        EncodeChar(a[0]) + EncodeUriComponent(a[1..] + b);
        EncodeChar(a[0]) + (EncodeUriComponent(a[1..]) + EncodeUriComponent(b));
        (EncodeChar(a[0]) + EncodeUriComponent(a[1..])) + EncodeUriComponent(b);
      }
    }
  }
  /** The characters the form-urlencoded serializer leaves as they are. */
  predicate FormSafe(c: char) {
    ('A' <= c <= 'Z') || ('a' <= c <= 'z') || ('0' <= c <= '9')
    || c == '*' || c == '-' || c == '.' || c == '_'
  }

  /** A character that may appear in a form-urlencoded name or value. */
  predicate FormChar(c: char) {
    FormSafe(c) || c == '+' || c == '%'
  }

  /** One character, form-urlencoded: kept when safe, a space as `+`, otherwise its UTF-8 bytes as `%XX`. */
  function FormEncodeChar(c: char): (r: string)
    ensures FormSafe(c) ==> r == [c]
    ensures c == ' ' ==> r == "+"
    ensures !FormSafe(c) && c != ' ' ==> |r| >= 3 && r[0] == '%'
    ensures forall i :: 0 <= i < |r| ==> FormChar(r[i])
  {
    if FormSafe(c) then [c]
    else if c == ' ' then "+"
    else PercentBytes(Utf8(c))
  }

  /**
   * A name or value, form-urlencoded. The result writes no `&`, `=` or `#`,
   * so it cannot break the query apart.
   */
  function FormEncode(s: string): (r: string)
    ensures |r| >= |s|
    ensures forall i :: 0 <= i < |r| ==> FormChar(r[i])
    ensures (forall i :: 0 <= i < |s| ==> FormSafe(s[i])) ==> r == s
  {
    if s == [] then ""
    else
      var r := FormEncodeChar(s[0]) + FormEncode(s[1..]);
      assert (forall i :: 0 <= i < |s| ==> FormSafe(s[i])) ==> r == s by {
        if forall i :: 0 <= i < |s| ==> FormSafe(s[i]) {
          assert forall i :: 0 <= i < |s| - 1 ==> FormSafe(s[1..][i]);
          assert r == [s[0]] + s[1..];
        }
      }
      r
  }

  /** Form encoding works character by character, so it distributes over concatenation. */
  lemma {:induction false} FormEncodeAppend(a: string, b: string)
    ensures FormEncode(a + b) == FormEncode(a) + FormEncode(b)
  {
    if a == [] {
      assert a + b == b;
    } else {
      assert (a + b)[0] == a[0];
      assert (a + b)[1..] == a[1..] + b;
      FormEncodeAppend(a[1..], b);
    }
  }

  /**
   * Where the two encodings part: a space becomes `+` rather than `%20`, and
   * `~`, which `encodeURIComponent` keeps, becomes `%7E`.
   */
  lemma FormEncodeDiffers()
    ensures FormEncode(" ") == "+" && EncodeUriComponent(" ") == "%20"
    ensures FormEncode("~") == "%7E" && EncodeUriComponent("~") == "~"
  {
    assert " "[1..] == "" && "~"[1..] == "";
    assert Utf8(' ') == [32] && Utf8('~') == [126];
    assert PercentBytes([32]) == "%20" by { assert [32][1..] == []; }
    assert PercentBytes([126]) == "%7E" by { assert [126][1..] == []; }
  }
}
