/**
  The Response wrapper of response.py: fields derived from the raw record the
  browser's fetch returned (or the cache stored), with defaults for missing
  fields, lower-cased header names, the `ok` range test and the UTF-8 body.
*/
module Responses {
  import opened Wrappers
  import opened JsonValues
  import opened Strings

  type byte = b: int | 0 <= b < 256

  /** A Response object: the record it was built from and the fields derived from it. */
  datatype Response = Response(
    rawData: Items,
    statusCode: Json,
    url: Json,
    headers: map<string, Json>,
    text: Json)

  /** `{k.lower(): v for k, v in headers.items()}`: later items overwrite earlier ones. */
  function LowerHeaders(fs: Items): map<string, Json>
  {
    if fs == [] then map[]
    else LowerHeaders(fs[..|fs| - 1])[Lower(fs[|fs| - 1].0) := fs[|fs| - 1].1]
  }

  /**
    `Response(raw_data)`.  The constructor fails (AttributeError) when the
    record's "headers" is present but not a dict, since it calls `.items()` on it.
  */
  function NewResponse(raw: Items): (r: Option<Response>)
    ensures r.Some? <==> Get(raw, "headers").None? || Get(raw, "headers").value.JObject?
    ensures r.Some? ==> r.value.rawData == raw
  {
    var headers := GetOr(raw, "headers", JObject([]));
    if !headers.JObject? then None
    else Some(Response(
      raw,
      GetOr(raw, "status", JNum(0)),
      GetOr(raw, "url", JStr("")),
      LowerHeaders(headers.fields),
      GetOr(raw, "text", JStr(""))))
  }

  /** `ok`: the status code is an integer in 200..299 (a non-integer status compares as not ok). */
  predicate Ok(r: Response)
  {
    r.statusCode.JNum? && 200 <= r.statusCode.n < 300
  }

  /** The `text` property. */
  function Text(r: Response): Json
  {
    r.text
  }

  /** UTF-8 encoding of one Unicode scalar value. */
  function EncodeChar(c: char): (bs: seq<byte>)
    ensures 1 <= |bs| <= 4
    ensures (c as int < 0x80) <==> |bs| == 1
  {
    var cp := c as int;
    if cp < 0x80 then [cp]
    else if cp < 0x800 then [0xC0 + cp / 0x40, 0x80 + cp % 0x40]
    else if cp < 0x10000 then [0xE0 + cp / 0x1000, 0x80 + (cp / 0x40) % 0x40, 0x80 + cp % 0x40]
    else [0xF0 + cp / 0x40000, 0x80 + (cp / 0x1000) % 0x40, 0x80 + (cp / 0x40) % 0x40, 0x80 + cp % 0x40]
  }

  /** `s.encode("utf-8")`. */
  function Utf8(s: string): seq<byte>
  {
    if s == [] then [] else EncodeChar(s[0]) + Utf8(s[1..])
  }

  /**
    The `content` property: the text encoded as UTF-8.  It fails
    (AttributeError) when the record's text is not a string.
  */
  function Content(r: Response): Option<seq<byte>>
  {
    if r.text.JStr? then Some(Utf8(r.text.s)) else None
  }

  // ---------------------------------------------------------------------
  // Properties
  // ---------------------------------------------------------------------

  /** Every header name is lower-cased, and a lower-cased name is present exactly when some raw name maps to it. */
  lemma {:induction false} LowerHeadersKeys(fs: Items, k: string)
    ensures k in LowerHeaders(fs) <==> exists i :: 0 <= i < |fs| && Lower(fs[i].0) == k
    ensures k in LowerHeaders(fs) ==> Lower(k) == k
  {
    if fs != [] {
      var init := fs[..|fs| - 1];
      LowerHeadersKeys(init, k);
      if k in LowerHeaders(init) {
        var i :| 0 <= i < |init| && Lower(init[i].0) == k;
        assert Lower(fs[i].0) == k;
      }
      if exists i :: 0 <= i < |fs| && Lower(fs[i].0) == k {
        var i :| 0 <= i < |fs| && Lower(fs[i].0) == k;
        if i < |fs| - 1 {
          assert Lower(init[i].0) == k;
        }
      }
    }
  }

  /** Each header value is kept, and of two raw names that differ only in case the later one wins. */
  lemma {:induction false} LowerHeadersLastWins(fs: Items, i: nat)
    requires i < |fs|
    requires forall j :: i < j < |fs| ==> Lower(fs[j].0) != Lower(fs[i].0)
    ensures Lower(fs[i].0) in LowerHeaders(fs)
    ensures LowerHeaders(fs)[Lower(fs[i].0)] == fs[i].1
  {
    if i < |fs| - 1 {
      var init := fs[..|fs| - 1];
      assert forall j :: i < j < |init| ==> Lower(init[j].0) != Lower(init[i].0) by {
        forall j | i < j < |init| ensures Lower(init[j].0) != Lower(init[i].0) {
          assert init[j] == fs[j];
        }
      }
      LowerHeadersLastWins(init, i);
    }
  }

  /**
    Missing fields take their defaults: status 0, url "", text "" and no
    headers; present fields are taken as they are.
  */
  lemma MissingFieldsDefault(raw: Items)
    requires NewResponse(raw).Some?
    ensures var r := NewResponse(raw).value;
      && (r.statusCode == if HasKey(raw, "status") then Get(raw, "status").value else JNum(0))
      && (r.url == if HasKey(raw, "url") then Get(raw, "url").value else JStr(""))
      && (r.text == if HasKey(raw, "text") then Get(raw, "text").value else JStr(""))
      && (!HasKey(raw, "headers") ==> r.headers == map[])
  {
  }

  /** A record is `ok` exactly when its "status" is an integer in 200..299; so one without a status never is. */
  lemma OkFromRecord(raw: Items)
    requires NewResponse(raw).Some?
    ensures Ok(NewResponse(raw).value) <==>
      HasKey(raw, "status") && Get(raw, "status").value.JNum? && 200 <= Get(raw, "status").value.n < 300
    ensures !HasKey(raw, "status") ==> !Ok(NewResponse(raw).value)
  {
  }

  /** Encoding distributes over concatenation. */
  lemma {:induction false} Utf8Append(a: string, b: string)
    ensures Utf8(a + b) == Utf8(a) + Utf8(b)
  {
    if a == [] {
      assert a + b == b;
    } else {
      assert (a + b)[1..] == a[1..] + b;
      Utf8Append(a[1..], b);
    }
  }

  /** The encoding takes one to four bytes per character, exactly one each when the text is ASCII. */
  lemma {:induction false} Utf8Length(s: string)
    ensures |s| <= |Utf8(s)| <= 4 * |s|
    ensures (forall i :: 0 <= i < |s| ==> s[i] as int < 0x80) ==> |Utf8(s)| == |s|
  {
    if s != [] {
      Utf8Length(s[1..]);
    }
  }

  /** An ASCII text is encoded byte for byte. */
  lemma {:induction false} Utf8Ascii(s: string)
    requires forall i :: 0 <= i < |s| ==> s[i] as int < 0x80
    ensures |Utf8(s)| == |s|
    ensures forall i :: 0 <= i < |s| ==> Utf8(s)[i] == s[i] as int
  {
    if s != [] {
      Utf8Ascii(s[1..]);
    }
  }

  /** The number of bytes of a UTF-8 sequence, read off its lead byte. */
  function LeadLength(b: byte): nat
  {
    if b < 0x80 then 1 else if b < 0xE0 then 2 else if b < 0xF0 then 3 else 4
  }

  /** The lead byte of an encoded character says how many bytes it takes. */
  lemma EncodeCharLead(c: char)
    ensures LeadLength(EncodeChar(c)[0]) == |EncodeChar(c)|
  {
  }

  /** How many bytes a code point takes, by range. */
  lemma EncodeCharRange(c: char)
    ensures |EncodeChar(c)| == if c as int < 0x80 then 1 else if c as int < 0x800 then 2 else if c as int < 0x10000 then 3 else 4
  {
  }

  /** Base-64 digits taken in two steps are the digits taken in one. */
  lemma DivDiv(x: nat)
    ensures x / 0x1000 == (x / 0x40) / 0x40
    ensures x / 0x40000 == (x / 0x1000) / 0x40
  {
    var q, r := x / 0x40, x % 0x40;
    var q2, r2 := q / 0x40, q % 0x40;
    assert x == 0x1000 * q2 + (0x40 * r2 + r);
    var q3, r3 := q2 / 0x40, q2 % 0x40;
    assert x == 0x40000 * q3 + (0x1000 * r3 + 0x40 * r2 + r);
  }

  /** A number is fixed by its three low base-64 digits and the quotient above them, as the encoder takes them. */
  lemma SameDigits(x: nat, y: nat)
    requires x % 0x40 == y % 0x40 && (x / 0x40) % 0x40 == (y / 0x40) % 0x40
    requires (x / 0x1000) % 0x40 == (y / 0x1000) % 0x40 && x / 0x40000 == y / 0x40000
    ensures x == y
  {
    DivDiv(x);
    DivDiv(y);
    assert x / 0x1000 == y / 0x1000;
    assert x / 0x40 == y / 0x40;
  }

  /** Different characters encode differently. */
  lemma EncodeCharInjective(c: char, d: char)
    requires EncodeChar(c) == EncodeChar(d)
    ensures c == d
  {
    var x, y := c as int, d as int;
    EncodeCharRange(c);
    EncodeCharRange(d);
    if x >= 0x80 {
      DivDiv(x);
      DivDiv(y);
      SameDigits(x, y);
    }
  }

  /** Different texts encode differently, so `content` determines `text`. */
  lemma {:induction false} Utf8Injective(a: string, b: string)
    requires Utf8(a) == Utf8(b)
    ensures a == b
  {
    if a != [] && b != [] {
      var ea, eb := EncodeChar(a[0]), EncodeChar(b[0]);
      assert ea[0] == Utf8(a)[0] && eb[0] == Utf8(b)[0];
      EncodeCharLead(a[0]);
      EncodeCharLead(b[0]);
      assert ea == Utf8(a)[..|ea|] && eb == Utf8(b)[..|eb|];
      EncodeCharInjective(a[0], b[0]);
      assert Utf8(a[1..]) == Utf8(a)[|ea|..] && Utf8(b[1..]) == Utf8(b)[|eb|..];
      Utf8Injective(a[1..], b[1..]);
    }
  }

  /**
    `content` fails exactly when the record's "text" is present and not a
    string; a record without text has an empty body, and otherwise the body
    takes one to four bytes per character of `text`.
  */
  lemma ContentOfRecord(raw: Items)
    requires NewResponse(raw).Some?
    ensures var r := NewResponse(raw).value;
      && (Content(r).None? <==> HasKey(raw, "text") && !Get(raw, "text").value.JStr?)
      && (!HasKey(raw, "text") ==> Content(r) == Some([]))
      && (Content(r).Some? ==> Text(r).JStr? && |Text(r).s| <= |Content(r).value| <= 4 * |Text(r).s|)
  {
    var r := NewResponse(raw).value;
    if r.text.JStr? {
      Utf8Length(r.text.s);
    }
  }

  /** `raw_data` is the record itself, so a Response rebuilt from it is the same Response. */
  lemma RebuildFromRawData(raw: Items)
    requires NewResponse(raw).Some?
    ensures NewResponse(NewResponse(raw).value.rawData) == NewResponse(raw)
  {
  }
}
