/**
 * The query string of a URL whose parameters are appended through
 * `url.searchParams`: the application/x-www-form-urlencoded serializer of
 * section 5.2 of the WHATWG URL Standard, and the parser of section 5.1,
 * which undoes it.
 *
 * Characters are Unicode scalar values; a JavaScript string holding a lone
 * surrogate cannot be written down here.
 */
module Query {
  import opened Wrappers

  type Byte = b: int | 0 <= b < 256

  // ---------------------------------------------------------------- UTF-8

  /** The UTF-8 encoding of one Unicode scalar value. */
  function Utf8(c: char): (bs: seq<Byte>)
    ensures 1 <= |bs| <= 4
    ensures c as int < 0x80 <==> bs == [c as int]
  {
    var n := c as int;
    if n < 0x80 then [n]
    else if n < 0x800 then [0xC0 + n / 0x40, 0x80 + n % 0x40]
    else if n < 0x10000 then [0xE0 + n / 0x1000, 0x80 + n / 0x40 % 0x40, 0x80 + n % 0x40]
    else [0xF0 + n / 0x40000, 0x80 + n / 0x1000 % 0x40, 0x80 + n / 0x40 % 0x40, 0x80 + n % 0x40]
  }

  /** The UTF-8 encoding of a whole string. */
  function Utf8Of(s: string): seq<Byte>
  {
    if |s| == 0 then [] else Utf8(s[0]) + Utf8Of(s[1..])
  }

  predicate Continuation(b: Byte)
  {
    0x80 <= b < 0xC0
  }

  /** The scalar value `n`, unless it is a surrogate, out of range or below `least` (an overlong form). */
  function Scalar(n: int, least: int): Option<char>
  {
    if least <= n && (0 <= n < 0xD800 || 0xE000 <= n < 0x11_0000) then Some(n as char) else None
  }

  /** The first character of well-formed UTF-8 and how many bytes it takes. */
  function DecodeOne(bs: seq<Byte>): (r: Option<(char, nat)>)
    requires |bs| > 0
    ensures r.Some? ==> 1 <= r.value.1 <= |bs|
  {
    var b0: int := bs[0];
    if b0 < 0x80 then Some((b0 as char, 1))
    else if 0xC0 <= b0 < 0xE0 && |bs| >= 2 && Continuation(bs[1]) then
      var b1: int := bs[1];
      var c :- Scalar((b0 - 0xC0) * 0x40 + (b1 - 0x80), 0x80);
      Some((c, 2))
    else if 0xE0 <= b0 < 0xF0 && |bs| >= 3 && Continuation(bs[1]) && Continuation(bs[2]) then
      var b1: int, b2: int := bs[1], bs[2];
      var c :- Scalar((b0 - 0xE0) * 0x1000 + (b1 - 0x80) * 0x40 + (b2 - 0x80), 0x800);
      Some((c, 3))
    else if 0xF0 <= b0 < 0xF8 && |bs| >= 4 && Continuation(bs[1]) && Continuation(bs[2]) && Continuation(bs[3]) then
      var b1: int, b2: int, b3: int := bs[1], bs[2], bs[3];
      var c :- Scalar((b0 - 0xF0) * 0x4_0000 + (b1 - 0x80) * 0x1000 + (b2 - 0x80) * 0x40 + (b3 - 0x80), 0x1_0000);
      Some((c, 4))
    else None
  }

  /** UTF-8 decoding that fails on ill-formed input instead of inserting U+FFFD. */
  function Utf8Decode(bs: seq<Byte>): Option<string>
    decreases |bs|
  {
    if |bs| == 0 then Some([])
    else
      var first :- DecodeOne(bs);
      var rest :- Utf8Decode(bs[first.1..]);
      Some([first.0] + rest)
  }

  lemma DecodeTwo(c: char, rest: seq<Byte>)
    requires 0x80 <= c as int < 0x800
    ensures DecodeOne(Utf8(c) + rest) == Some((c, 2))
  {
    var n := c as int;
    assert (n / 0x40) * 0x40 + n % 0x40 == n;
  }

  lemma DecodeThree(c: char, rest: seq<Byte>)
    requires 0x800 <= c as int < 0x1_0000
    ensures DecodeOne(Utf8(c) + rest) == Some((c, 3))
  {
    var n := c as int;
    assert (n / 0x1000) * 0x1000 + (n / 0x40 % 0x40) * 0x40 + n % 0x40 == n;
  }

  lemma DecodeFour(c: char, rest: seq<Byte>)
    requires 0x1_0000 <= c as int
    ensures DecodeOne(Utf8(c) + rest) == Some((c, 4))
  {
    var n := c as int;
    assert (n / 0x4_0000) * 0x4_0000 + (n / 0x1000 % 0x40) * 0x1000 + (n / 0x40 % 0x40) * 0x40 + n % 0x40 == n;
  }

  /** The first character of `Utf8(c) + rest` is `c`, and it takes all of `Utf8(c)`. */
  lemma DecodeOneUtf8(c: char, rest: seq<Byte>)
    ensures DecodeOne(Utf8(c) + rest) == Some((c, |Utf8(c)|))
  {
    var n := c as int;
    if n < 0x80 {
    } else if n < 0x800 {
      DecodeTwo(c, rest);
    } else if n < 0x1_0000 {
      DecodeThree(c, rest);
    } else {
      DecodeFour(c, rest);
    }
  }

  /** Decoding the UTF-8 encoding of a string gives the string back. */
  lemma {:induction false} Utf8RoundTrip(s: string)
    ensures Utf8Decode(Utf8Of(s)) == Some(s)
  {
    if |s| > 0 {
      var bs := Utf8Of(s);
      DecodeOneUtf8(s[0], Utf8Of(s[1..]));
      assert bs[|Utf8(s[0])|..] == Utf8Of(s[1..]);
      Utf8RoundTrip(s[1..]);
      assert [s[0]] + s[1..] == s;
    }
  }

  // ---------------------------------------------------------------- percent-encoding

  /** The characters the serializer leaves as they are: ASCII letters and digits, `*`, `-`, `.`, `_`. */
  predicate Unreserved(c: char)
  {
    'a' <= c <= 'z' || 'A' <= c <= 'Z' || '0' <= c <= '9' || c == '*' || c == '-' || c == '.' || c == '_'
  }

  function HexDigit(d: int): (c: char)
    requires 0 <= d < 16
    ensures c != '&' && c != '=' && c != '+' && c != '%'
  {
    "0123456789ABCDEF"[d]
  }

  /** `%XY` for every byte, with upper-case hexadecimal digits. */
  function Percent(bs: seq<Byte>): string
  {
    if |bs| == 0 then "" else ['%', HexDigit(bs[0] / 16), HexDigit(bs[0] % 16)] + Percent(bs[1..])
  }

  /** How one character of a name or value is written. */
  function EncodeChar(c: char): string
  {
    if Unreserved(c) then [c] else if c == ' ' then "+" else Percent(Utf8(c))
  }

  /** A name or value as the serializer writes it. */
  function Encode(s: string): string
  {
    if |s| == 0 then "" else EncodeChar(s[0]) + Encode(s[1..])
  }

  /** What percent-encoding writes holds no `&` and no `=`. */
  lemma {:induction false} PercentAvoids(bs: seq<Byte>)
    ensures forall i | 0 <= i < |Percent(bs)| :: Percent(bs)[i] != '&' && Percent(bs)[i] != '='
  {
    if |bs| > 0 {
      PercentAvoids(bs[1..]);
      var head := ['%', HexDigit(bs[0] / 16), HexDigit(bs[0] % 16)];
      assert Percent(bs) == head + Percent(bs[1..]);
    }
  }

  /** A written name or value holds no `&` and no `=`, so both can separate them. */
  lemma {:induction false} EncodeAvoids(s: string)
    ensures forall i | 0 <= i < |Encode(s)| :: Encode(s)[i] != '&' && Encode(s)[i] != '='
  {
    if |s| > 0 {
      EncodeAvoids(s[1..]);
      if !Unreserved(s[0]) && s[0] != ' ' {
        PercentAvoids(Utf8(s[0]));
      }
      assert Encode(s) == EncodeChar(s[0]) + Encode(s[1..]);
    }
  }

  function HexValue(c: char): (r: Option<int>)
    ensures r.Some? ==> 0 <= r.value < 16
  {
    if '0' <= c <= '9' then Some(c as int - '0' as int)
    else if 'A' <= c <= 'F' then Some(c as int - 'A' as int + 10)
    else if 'a' <= c <= 'f' then Some(c as int - 'a' as int + 10)
    else None
  }

  /**
   * The bytes a written name or value stands for: `+` is a space, `%XY` the
   * byte with that hexadecimal value, a `%` not followed by two hexadecimal
   * digits itself, and any other character its UTF-8 bytes.
   */
  function Bytes(t: string): seq<Byte>
  {
    if |t| == 0 then []
    else if t[0] == '%' && |t| >= 3 && HexValue(t[1]).Some? && HexValue(t[2]).Some? then
      [HexValue(t[1]).value * 16 + HexValue(t[2]).value] + Bytes(t[3..])
    else if t[0] == '+' then [0x20] + Bytes(t[1..])
    else Utf8(t[0]) + Bytes(t[1..])
  }

  /** A written name or value read back. */
  function Decode(t: string): Option<string>
  {
    Utf8Decode(Bytes(t))
  }

  lemma HexRoundTrip(b: Byte)
    ensures HexValue(HexDigit(b / 16)) == Some(b / 16)
    ensures HexValue(HexDigit(b % 16)) == Some(b % 16)
  {
  }

  lemma {:induction false} BytesPercent(bs: seq<Byte>, rest: string)
    ensures Bytes(Percent(bs) + rest) == bs + Bytes(rest)
  {
    var t := Percent(bs) + rest;
    if |bs| > 0 {
      var b := bs[0];
      HexRoundTrip(b);
      assert t[0] == '%' && t[1] == HexDigit(b / 16) && t[2] == HexDigit(b % 16);
      assert t[3..] == Percent(bs[1..]) + rest;
      BytesPercent(bs[1..], rest);
      assert Bytes(t) == [b] + Bytes(t[3..]);
      assert bs == [b] + bs[1..];
    } else {
      assert t == rest;
    }
  }

  lemma BytesEncodeChar(c: char, rest: string)
    ensures Bytes(EncodeChar(c) + rest) == Utf8(c) + Bytes(rest)
  {
    if Unreserved(c) {
      assert (EncodeChar(c) + rest)[1..] == rest;
    } else if c == ' ' {
      assert (EncodeChar(c) + rest)[1..] == rest;
    } else {
      BytesPercent(Utf8(c), rest);
    }
  }

  /** The bytes of a written name or value are the UTF-8 bytes of the original. */
  lemma {:induction false} BytesEncode(s: string)
    ensures Bytes(Encode(s)) == Utf8Of(s)
  {
    if |s| > 0 {
      BytesEncodeChar(s[0], Encode(s[1..]));
      BytesEncode(s[1..]);
    }
  }

  /** Reading a written name or value back gives the original. */
  lemma DecodeEncode(s: string)
    ensures Decode(Encode(s)) == Some(s)
  {
    BytesEncode(s);
    Utf8RoundTrip(s);
  }

  lemma {:induction false} EncodeAppend(a: string, b: string)
    ensures Encode(a + b) == Encode(a) + Encode(b)
  {
    if |a| > 0 {
      assert (a + b)[1..] == a[1..] + b;
      EncodeAppend(a[1..], b);
    } else {
      assert a + b == b;
    }
  }

  /** Letters, digits and `*-._` are written as they are. */
  lemma {:induction false} EncodeUnreserved(s: string)
    requires forall i | 0 <= i < |s| :: Unreserved(s[i])
    ensures Encode(s) == s
  {
    if |s| > 0 {
      EncodeUnreserved(s[1..]);
    }
  }

  // ---------------------------------------------------------------- the query

  /** `name=value`, each written with `Encode`. */
  function SerializePair(p: (string, string)): string
  {
    Encode(p.0) + "=" + Encode(p.1)
  }

  /** The pairs written in order and separated by `&`. */
  function Serialize(pairs: seq<(string, string)>): string
  {
    if |pairs| == 0 then ""
    else if |pairs| == 1 then SerializePair(pairs[0])
    else SerializePair(pairs[0]) + "&" + Serialize(pairs[1..])
  }

  /** The position of the first `c` in `t`, or `|t|` when there is none. */
  function IndexOf(t: string, c: char): (i: nat)
    ensures i <= |t|
    ensures i < |t| ==> t[i] == c
    ensures forall j | 0 <= j < i :: t[j] != c
  {
    if |t| == 0 then 0 else if t[0] == c then 0 else 1 + IndexOf(t[1..], c)
  }

  /** One `name=value` sequence; a sequence without `=` is a name with an empty value. */
  function ParsePair(piece: string): Option<(string, string)>
  {
    var i := IndexOf(piece, '=');
    var name :- Decode(piece[..i]);
    var value :- Decode(if i < |piece| then piece[i + 1..] else "");
    Some((name, value))
  }

  /** The parser: split on `&`, skip empty sequences, read each `name=value`. */
  function Parse(q: string): Option<seq<(string, string)>>
    decreases |q|
  {
    if |q| == 0 then Some([])
    else
      var i := IndexOf(q, '&');
      var rest :- if i < |q| then Parse(q[i + 1..]) else Some([]);
      if i == 0 then Some(rest)
      else
        var p :- ParsePair(q[..i]);
        Some([p] + rest)
  }

  lemma IndexOfAfter(a: string, b: string, c: char)
    requires forall j | 0 <= j < |a| :: a[j] != c
    requires |b| == 0 || b[0] == c
    ensures IndexOf(a + b, c) == |a|
  {
    var t := a + b;
    assert forall j | 0 <= j < |a| :: t[j] != c;
    assert |b| > 0 ==> t[|a|] == c;
  }

  lemma ParsePairSerialized(p: (string, string))
    ensures ParsePair(SerializePair(p)) == Some(p)
  {
    var name, value := Encode(p.0), Encode(p.1);
    var piece := SerializePair(p);
    assert piece == name + ("=" + value);
    EncodeAvoids(p.0);
    IndexOfAfter(name, "=" + value, '=');
    var i := IndexOf(piece, '=');
    assert i == |name| < |piece|;
    assert piece[..i] == name;
    assert piece[i + 1..] == value;
    DecodeEncode(p.0);
    DecodeEncode(p.1);
  }

  /** A serialized pair holds no `&`, so the first `&` after it is the one that ends it. */
  lemma PairAvoids(p: (string, string))
    ensures forall j | 0 <= j < |SerializePair(p)| :: SerializePair(p)[j] != '&'
  {
    var name, value := Encode(p.0), Encode(p.1);
    var piece := SerializePair(p);
    assert piece == name + ("=" + value);
    EncodeAvoids(p.0);
    EncodeAvoids(p.1);
    forall j | 0 <= j < |piece| ensures piece[j] != '&' {
      if j < |name| {
        assert piece[j] == name[j];
      } else if j > |name| {
        assert piece[j] == value[j - |name| - 1];
      }
    }
  }

  lemma PairEnds(p: (string, string), more: string)
    requires |more| == 0 || more[0] == '&'
    ensures |SerializePair(p)| > 0
    ensures IndexOf(SerializePair(p) + more, '&') == |SerializePair(p)|
  {
    PairAvoids(p);
    IndexOfAfter(SerializePair(p), more, '&');
  }

  /** A query that is one non-empty sequence without `&` reads as that one pair. */
  lemma ParseOne(piece: string, p: (string, string))
    requires |piece| > 0 && IndexOf(piece, '&') == |piece|
    requires ParsePair(piece) == Some(p)
    ensures Parse(piece) == Some([p])
  {
    assert piece[..|piece|] == piece;
    assert [p] + [] == [p];
  }

  /** A non-empty sequence ended by the first `&`, then more: its pair comes first. */
  lemma ParseCons(piece: string, p: (string, string), more: string)
    requires |piece| > 0 && IndexOf(piece + "&" + more, '&') == |piece|
    requires ParsePair(piece) == Some(p)
    requires Parse(more).Some?
    ensures Parse(piece + "&" + more) == Some([p] + Parse(more).value)
  {
    var q := piece + "&" + more;
    assert q[..|piece|] == piece;
    assert q[|piece| + 1..] == more;
  }

  /** Parsing a serialized query gives back the pairs, in order. */
  lemma {:induction false} ParseSerialize(pairs: seq<(string, string)>)
    ensures Parse(Serialize(pairs)) == Some(pairs)
  {
    if |pairs| == 1 {
      ParseSerializeOne(pairs[0]);
      assert pairs == [pairs[0]];
    } else if |pairs| > 1 {
      ParseSerialize(pairs[1..]);
      SerializeCons(pairs[0], pairs[1..]);
      ParseSerializeCons(pairs[0], Serialize(pairs[1..]), pairs[1..]);
      assert [pairs[0]] + pairs[1..] == pairs;
    }
  }

  lemma ParseSerializeOne(p: (string, string))
    ensures Parse(Serialize([p])) == Some([p])
  {
    var first := SerializePair(p);
    ParsePairSerialized(p);
    PairEnds(p, "");
    assert first + "" == first;
    ParseOne(first, p);
  }

  lemma SerializeCons(p: (string, string), rest: seq<(string, string)>)
    requires |rest| > 0
    ensures Serialize([p] + rest) == SerializePair(p) + "&" + Serialize(rest)
  {
    assert ([p] + rest)[1..] == rest;
  }

  lemma ParseSerializeCons(p: (string, string), more: string, tail: seq<(string, string)>)
    requires Parse(more) == Some(tail)
    ensures Parse(SerializePair(p) + "&" + more) == Some([p] + tail)
  {
    var first := SerializePair(p);
    ParsePairSerialized(p);
    PairEnds(p, "&" + more);
    assert first + ("&" + more) == first + "&" + more;
    ParseCons(first, p, more);
  }

  /** Different lists of pairs serialize differently. */
  lemma SerializeInjective(a: seq<(string, string)>, b: seq<(string, string)>)
    ensures Serialize(a) == Serialize(b) <==> a == b
  {
    ParseSerialize(a);
    ParseSerialize(b);
  }

  /** `url.searchParams`: a list of name/value pairs, appended to in place. */
  class SearchParams {
    var pairs: seq<(string, string)>

    constructor ()
      ensures pairs == []
    {
      pairs := [];
    }

    /** `searchParams.append(name, value)`: one more pair, after the others. */
    method Append(name: string, value: string)
      modifies this
      ensures pairs == old(pairs) + [(name, value)]
    {
      pairs := pairs + [(name, value)];
    }

    /** `searchParams.toString()`. */
    function ToString(): string
      reads this
    {
      Serialize(pairs)
    }
  }
}
