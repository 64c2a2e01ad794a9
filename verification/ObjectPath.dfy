/** The D-Bus object path encoding of src/util.c: how a name becomes one element
    of an object path, what the result looks like, and exactly which names are
    told apart by it.

    A C string is a `string` whose characters are bytes other than NUL; see `IsCString`. */
module ObjectPath {
  import opened Wrappers

  predicate IsCString(s: string) {
    forall i :: 0 <= i < |s| ==> 0 < s[i] as int < 256
  }

  predicate IsSafe(c: char) {
    'A' <= c <= 'Z' || 'a' <= c <= 'z' || '0' <= c <= '9' || c == '_'
  }

  predicate IsHexDigit(c: char) {
    '0' <= c <= '9' || 'a' <= c <= 'f'
  }

  function HexDigit(n: nat): (c: char)
    requires n < 16
    ensures IsHexDigit(c) && HexValue(c) == n
  {
    if n < 10 then '0' + n as char else 'a' + (n - 10) as char
  }

  function HexValue(c: char): (n: nat)
    requires IsHexDigit(c)
    ensures n < 16
  {
    if c <= '9' then c as int - '0' as int else c as int - 'a' as int + 10
  }

  // A byte above 0x7f is a negative `gchar`; printed with "%02x" it comes out as
  // the eight digits of its 32-bit two's complement.
  const SIGN_EXTENSION := "ffffff"

  function Escape(c: char): string {
    if IsSafe(c) then [c]
    else
      var low := [HexDigit(c as int / 16 % 16), HexDigit(c as int % 16)];
      if c as int < 128 then "_" + low else "_" + SIGN_EXTENSION + low
  }

  function Encode(s: string): string {
    if s == "" then "" else Escape(s[0]) + Encode(s[1..])
  }

  lemma EncodeOneMore(r: string, s: string, n: nat)
    requires n < |s|
    ensures r + Encode(s[n..]) == (r + Escape(s[n])) + Encode(s[n + 1..])
  {
    assert s[n..][0] == s[n] && s[n..][1..] == s[n + 1..];
    assert Encode(s[n..]) == Escape(s[n]) + Encode(s[n + 1..]);
  }

  method SafeAppendToObjectPath(str: string, s: string) returns (r: string)
    ensures r == str + Encode(s)
  {
    r := str;
    var n := 0;
    assert s[0..] == s;
    while n < |s|
      invariant 0 <= n <= |s|
      invariant r + Encode(s[n..]) == str + Encode(s)
    {
      var c := s[n];
      ghost var before := r;
      EncodeOneMore(r, s, n);
      if 'A' <= c <= 'Z' || 'a' <= c <= 'z' || '0' <= c <= '9' || c == '_' {
        r := r + [c];
      } else {
        var digits := [HexDigit(c as int / 16 % 16), HexDigit(c as int % 16)];
        if c as int >= 128 {
          digits := SIGN_EXTENSION + digits;
        }
        digits := "_" + digits;
        assert digits == Escape(c);
        r := r + digits;
      }
      assert r == before + Escape(c);
      n := n + 1;
    }
    assert s[n..] == "";
  }

  // The elements that the parts contribute, each with its leading separator.
  function Elements(parts: seq<string>): string {
    if parts == [] then "" else "/" + Encode(parts[0]) + Elements(parts[1..])
  }

  function Build(base: string, parts: seq<string>): string {
    base + Elements(parts)
  }

  lemma ElementsOneMore(path: string, parts: seq<string>, n: nat)
    requires n < |parts|
    ensures path + Elements(parts[n..]) == (path + "/" + Encode(parts[n])) + Elements(parts[n + 1..])
  {
    assert parts[n..][0] == parts[n] && parts[n..][1..] == parts[n + 1..];
    assert Elements(parts[n..]) == "/" + Encode(parts[n]) + Elements(parts[n + 1..]);
  }

  /** A NULL base, or one that ends in a separator, is refused. */
  method BuildObjectPath(base: Option<string>, parts: seq<string>) returns (r: Option<string>)
    ensures r.Some? <==> base.Some? && (|base.value| == 0 || base.value[|base.value| - 1] != '/')
    ensures r.Some? ==> r.value == Build(base.value, parts)
  {
    if base.None? || (|base.value| > 0 && base.value[|base.value| - 1] == '/') {
      return None;
    }
    var path := base.value;
    var n := 0;
    assert parts[0..] == parts;
    while n < |parts|
      invariant 0 <= n <= |parts|
      invariant path + Elements(parts[n..]) == Build(base.value, parts)
    {
      ElementsOneMore(path, parts, n);
      path := path + "/";
      path := SafeAppendToObjectPath(path, parts[n]);
      n := n + 1;
    }
    assert parts[n..] == [];
    return Some(path);
  }

  // --- Which strings are object paths -------------------------------------------------

  /** Section "Valid Object Paths" of the D-Bus Specification. */
  predicate IsValidPath(p: string) {
    && |p| > 0 && p[0] == '/'
    && (forall i :: 0 <= i < |p| ==> p[i] == '/' || IsSafe(p[i]))
    && (forall i :: 0 <= i < |p| - 1 ==> p[i] == '/' ==> p[i + 1] != '/')
    && (|p| > 1 ==> p[|p| - 1] != '/')
  }

  lemma {:induction false} EncodeIsSafe(s: string)
    ensures forall i :: 0 <= i < |Encode(s)| ==> IsSafe(Encode(s)[i])
    ensures |Encode(s)| >= |s|
  {
    if s != "" {
      EncodeIsSafe(s[1..]);
    }
  }

  lemma {:induction false} AppendKeepsValid(p: string, e: string)
    requires IsValidPath(p) && |p| > 1
    requires forall i :: 0 <= i < |e| ==> IsSafe(e[i])
    ensures IsValidPath(p + "/" + e) <==> e != ""
  {
    var q := p + "/" + e;
    if e == "" {
      assert q[|q| - 1] == '/';
    } else {
      forall i | 0 <= i < |q| - 1 && q[i] == '/'
        ensures q[i + 1] != '/'
      {
        if i < |p| - 1 {
          assert p[i] == '/' && p[i + 1] != '/';
        } else {
          assert i == |p| && q[i + 1] == e[0];
        }
      }
    }
  }

  lemma {:induction false} InvalidStaysInvalid(p: string, parts: seq<string>)
    requires |p| > 1 && p[|p| - 1] == '/'
    ensures !IsValidPath(Build(p, parts))
  {
    var q := Build(p, parts);
    if parts == [] {
      assert q == p;
    } else {
      assert q[|p| - 1] == '/' && q[|p|] == '/';
    }
  }

  /** A path built below a valid base is valid exactly when no part is empty,
      whatever bytes the parts hold. */
  lemma {:induction false} BuiltPathIsValid(base: string, parts: seq<string>)
    requires IsValidPath(base) && |base| > 1
    ensures IsValidPath(Build(base, parts)) <==> forall i :: 0 <= i < |parts| ==> parts[i] != ""
    decreases |parts|
  {
    if parts == [] {
      assert Build(base, parts) == base;
    } else {
      var e := Encode(parts[0]);
      var next := base + "/" + e;
      EncodeIsSafe(parts[0]);
      AppendKeepsValid(base, e);
      ElementsOneMore(base, parts, 0);
      assert parts[0..] == parts;
      if parts[0] == "" {
        assert e == "" && next[|next| - 1] == '/';
        InvalidStaysInvalid(next, parts[1..]);
      } else {
        BuiltPathIsValid(next, parts[1..]);
        assert forall i :: 0 <= i < |parts| - 1 ==> parts[1..][i] == parts[i + 1];
        assert forall i :: 0 < i < |parts| ==> parts[i] == parts[1..][i - 1];
      }
    }
  }

  // --- Which names share an encoding --------------------------------------------------

  predicate AllHex(s: string) {
    forall i :: 0 <= i < |s| ==> IsHexDigit(s[i])
  }

  function Pair(s: string): nat
    requires |s| >= 2 && AllHex(s[..2])
  {
    assert s[..2][0] == s[0] && s[..2][1] == s[1];
    16 * HexValue(s[0]) + HexValue(s[1])
  }

  // "_xx" where xx is an escaped 7-bit character
  predicate ShortEscape(s: string) {
    |s| >= 3 && s[0] == '_' && AllHex(s[1..][..2]) && 0 < Pair(s[1..]) < 128 && !IsSafe(Pair(s[1..]) as char)
  }

  // "_ffffffxx" where xx is a byte above 0x7f
  predicate LongEscape(s: string) {
    |s| >= 9 && s[0] == '_' && s[1..][..6] == SIGN_EXTENSION && AllHex(s[7..][..2]) && Pair(s[7..]) >= 128
  }

  predicate LooksEscaped(s: string) {
    ShortEscape(s) || LongEscape(s)
  }

  function EscapeLength(s: string): nat
    requires LooksEscaped(s)
  {
    if ShortEscape(s) then 3 else 9
  }

  function EscapedByte(s: string): (c: char)
    requires LooksEscaped(s)
    ensures 0 < c as int < 256
  {
    if ShortEscape(s) then Pair(s[1..]) as char else Pair(s[7..]) as char
  }

  /** The string with everything in it that reads like an escape replaced by what that escape
      stands for. Of a name, this is its normal form. */
  function Decode(s: string): string {
    if s == "" then ""
    else if LooksEscaped(s) then [EscapedByte(s)] + Decode(s[EscapeLength(s)..])
    else [s[0]] + Decode(s[1..])
  }

  /** No part of the name reads like an escape. */
  predicate IsPlain(s: string) {
    forall i :: 0 <= i < |s| ==> !LooksEscaped(s[i..])
  }

  lemma EscapeReadsBack(c: char, rest: string)
    requires 0 < c as int < 256 && !IsSafe(c)
    ensures var e := Escape(c) + rest;
            LooksEscaped(e) && EscapedByte(e) == c && EscapeLength(e) == |Escape(c)|
  {
    var e := Escape(c) + rest;
    var hi, lo := HexDigit(c as int / 16 % 16), HexDigit(c as int % 16);
    if c as int < 128 {
      assert e[1..][..2] == [hi, lo];
      assert Pair(e[1..]) == c as int;
    } else {
      assert e[1..][..2] == "ff" && Pair(e[1..]) == 255;
      assert e[1..][..6] == SIGN_EXTENSION && e[7..][..2] == [hi, lo];
      assert Pair(e[7..]) == c as int;
    }
  }

  predicate HexPrefixAgrees(s: string, e: string, k: nat) {
    && (k <= |s| && AllHex(s[..k]) <==> k <= |e| && AllHex(e[..k]))
    && (k <= |s| && AllHex(s[..k]) ==> k <= |e| && e[..k] == s[..k] && e[k..] == Encode(s[k..]))
  }

  // Hexadecimal digits encode to themselves, and nothing else encodes to one.
  lemma {:induction false} HexPrefix(s: string, k: nat)
    ensures HexPrefixAgrees(s, Encode(s), k)
  {
    var e := Encode(s);
    if k == 0 {
      assert s[0..] == s && e[0..] == e;
    } else if s != "" && IsHexDigit(s[0]) {
      HexPrefix(s[1..], k - 1);
      HexDigitInFront(s[0], s[1..], Encode(s[1..]), k - 1);
      assert s == [s[0]] + s[1..] && e == [s[0]] + Encode(s[1..]);
    } else if s != "" {
      assert e[0] == Escape(s[0])[0] && !IsHexDigit(e[0]);
      assert k <= |s| ==> s[..k][0] == s[0];
      assert k <= |e| ==> e[..k][0] == e[0];
    }
  }

  lemma HexDigitInFront(c: char, s: string, e: string, k: nat)
    requires IsHexDigit(c) && HexPrefixAgrees(s, e, k)
    ensures HexPrefixAgrees([c] + s, [c] + e, k + 1)
  {
    HexTail(c, s, k);
    HexTail(c, e, k);
  }

  lemma HexTail(c: char, s: string, k: nat)
    requires IsHexDigit(c)
    ensures k <= |s| ==> ([c] + s)[..k + 1] == [c] + s[..k] && ([c] + s)[k + 1..] == s[k..]
    ensures k <= |s| ==> AllHex(([c] + s)[..k + 1]) == AllHex(s[..k])
  {
    if k <= |s| {
      var t := ([c] + s)[..k + 1];
      assert t == [c] + s[..k];
      assert forall i :: 0 <= i < k ==> s[..k][i] == t[i + 1];
      assert forall i :: 0 < i < k + 1 ==> t[i] == s[..k][i - 1];
    }
  }

  lemma SplitHex(s: string, k: nat, m: nat)
    requires k + m <= |s|
    ensures AllHex(s[..k + m]) <==> AllHex(s[..k]) && AllHex(s[k..][..m])
  {
    assert s[..k + m] == s[..k] + s[k..][..m];
    assert forall i :: 0 <= i < k ==> s[..k][i] == s[..k + m][i];
    assert forall i :: 0 <= i < m ==> s[k..][..m][i] == s[..k + m][k + i];
  }

  // What follows an underscore reads like an escape after encoding exactly if it did before.
  lemma LooksEscapedAgrees(s: string)
    requires s != "" && s[0] == '_'
    ensures LooksEscaped(Encode(s)) <==> LooksEscaped(s)
    ensures LooksEscaped(s) ==>
              && EscapedByte(Encode(s)) == EscapedByte(s)
              && EscapeLength(Encode(s)) == EscapeLength(s)
              && Encode(s)[EscapeLength(s)..] == Encode(s[EscapeLength(s)..])
  {
    var t := s[1..];
    var f := Encode(t);
    assert s == "_" + t && Encode(s) == "_" + f;
    HexPrefix(t, 2);
    HexPrefix(t, 8);
    ShortAgrees(t, f);
    LongAgrees(t, f);
    if ShortEscape(s) {
      Tails(t, f, 2);
    } else if LongEscape(s) {
      Tails(t, f, 8);
    }
  }

  lemma Tails(t: string, f: string, k: nat)
    requires k <= |t| && k <= |f|
    ensures ("_" + t)[k + 1..] == t[k..] && ("_" + f)[k + 1..] == f[k..]
  {
  }

  lemma ShortAgrees(t: string, f: string)
    requires (2 <= |t| && AllHex(t[..2])) <==> (2 <= |f| && AllHex(f[..2]))
    requires 2 <= |t| && AllHex(t[..2]) ==> f[..2] == t[..2]
    ensures ShortEscape("_" + t) <==> ShortEscape("_" + f)
    ensures ShortEscape("_" + t) ==> |t| >= 2 && AllHex(t[..2]) && Pair(("_" + t)[1..]) == Pair(("_" + f)[1..])
  {
    assert ("_" + t)[1..] == t && ("_" + f)[1..] == f;
    if 2 <= |t| && AllHex(t[..2]) {
      assert t[0] == t[..2][0] == f[..2][0] == f[0] && t[1] == t[..2][1] == f[..2][1] == f[1];
    }
  }

  lemma LongAgrees(t: string, f: string)
    requires (8 <= |t| && AllHex(t[..8])) <==> (8 <= |f| && AllHex(f[..8]))
    requires 8 <= |t| && AllHex(t[..8]) ==> f[..8] == t[..8]
    ensures LongEscape("_" + t) <==> LongEscape("_" + f)
    ensures LongEscape("_" + t) ==> |t| >= 8 && AllHex(t[..8]) && Pair(("_" + t)[7..]) == Pair(("_" + f)[7..])
  {
    assert ("_" + t)[1..] == t && ("_" + f)[1..] == f;
    assert |t| >= 6 ==> ("_" + t)[7..] == t[6..];
    assert |f| >= 6 ==> ("_" + f)[7..] == f[6..];
    if |t| >= 8 { SplitHex(t, 6, 2); }
    if |f| >= 8 { SplitHex(f, 6, 2); }
    if 8 <= |t| && AllHex(t[..8]) {
      assert t[..6] == t[..8][..6] && f[..6] == f[..8][..6];
      assert t[6..][..2] == t[..8][6..] && f[6..][..2] == f[..8][6..];
      assert t[6] == t[..8][6] == f[..8][6] == f[6] && t[7] == t[..8][7] == f[..8][7] == f[7];
    }
  }

  lemma {:induction false} DecodeEncode(s: string)
    requires IsCString(s)
    ensures Decode(Encode(s)) == Decode(s)
    decreases |s|
  {
    if s != "" {
      var e := Encode(s);
      if !IsSafe(s[0]) {
        EscapeReadsBack(s[0], Encode(s[1..]));
        assert e[|Escape(s[0])|..] == Encode(s[1..]);
        DecodeEncode(s[1..]);
      } else if s[0] == '_' {
        LooksEscapedAgrees(s);
        if LooksEscaped(s) {
          DecodeEncode(s[EscapeLength(s)..]);
        } else {
          DecodeEncode(s[1..]);
          assert e[1..] == Encode(s[1..]);
        }
      } else {
        DecodeEncode(s[1..]);
        assert e[1..] == Encode(s[1..]);
      }
    }
  }

  lemma EscapeOfEscaped(s: string)
    requires LooksEscaped(s)
    ensures Escape(EscapedByte(s)) == s[..EscapeLength(s)]
  {
    if ShortEscape(s) {
      HexPair(s[1..]);
      assert s[..3] == ['_', s[1], s[2]];
    } else {
      HexPair(s[7..]);
      assert s[..9] == ['_'] + s[1..][..6] + [s[7], s[8]];
      var v := Pair(s[7..]);
      assert Escape(EscapedByte(s)) == "_" + SIGN_EXTENSION + [HexDigit(v / 16 % 16), HexDigit(v % 16)];
    }
  }

  lemma HexPair(s: string)
    requires |s| >= 2 && AllHex(s[..2])
    ensures HexDigit(Pair(s) / 16 % 16) == s[0] && HexDigit(Pair(s) % 16) == s[1]
  {
    assert s[..2][0] == s[0] && s[..2][1] == s[1];
    var a, b := HexValue(s[0]), HexValue(s[1]);
    assert Pair(s) / 16 == a && Pair(s) % 16 == b && a % 16 == a;
    HexDigitOfValue(s[0]);
    HexDigitOfValue(s[1]);
  }

  lemma HexDigitOfValue(c: char)
    requires IsHexDigit(c)
    ensures HexDigit(HexValue(c)) == c
  {
  }

  lemma {:induction false} EncodeConcat(s: string, t: string)
    ensures Encode(s + t) == Encode(s) + Encode(t)
  {
    if s == "" {
      assert s + t == t;
    } else {
      assert (s + t)[1..] == s[1..] + t;
      EncodeConcat(s[1..], t);
    }
  }

  lemma {:induction false} EncodeSafe(s: string)
    requires forall i :: 0 <= i < |s| ==> IsSafe(s[i])
    ensures Encode(s) == s
  {
    if s != "" {
      EncodeSafe(s[1..]);
    }
  }

  lemma EscapePrefixIsSafe(s: string)
    requires LooksEscaped(s)
    ensures Encode(s) == s[..EscapeLength(s)] + Encode(s[EscapeLength(s)..])
  {
    var k := EscapeLength(s);
    assert forall i :: 0 <= i < k ==> IsSafe(s[..k][i]) by {
      EscapeOfEscaped(s);
    }
    EncodeSafe(s[..k]);
    EncodeConcat(s[..k], s[k..]);
    assert s == s[..k] + s[k..];
  }

  /** The normal form of a name keeps its encoding. */
  lemma {:induction false} EncodeDecoded(s: string)
    ensures Encode(Decode(s)) == Encode(s)
    decreases |s|
  {
    if s != "" {
      var k := if LooksEscaped(s) then EscapeLength(s) else 1;
      EncodeDecoded(s[k..]);
      if LooksEscaped(s) {
        EscapePrefixIsSafe(s);
        EscapeOfEscaped(s);
        assert Decode(s)[0] == EscapedByte(s) && Decode(s)[1..] == Decode(s[k..]);
      } else {
        assert Decode(s)[0] == s[0] && Decode(s)[1..] == Decode(s[1..]);
      }
    }
  }

  /** The exact kernel of the encoding: two names become the same path element if and
      only if they decode to the same. */
  lemma SameEncoding(s: string, t: string)
    requires IsCString(s) && IsCString(t)
    ensures Encode(s) == Encode(t) <==> Decode(s) == Decode(t)
  {
    DecodeEncode(s);
    DecodeEncode(t);
    EncodeDecoded(s);
    EncodeDecoded(t);
  }

  lemma {:induction false} DecodeIsNoLonger(s: string)
    ensures |Decode(s)| <= |s|
    decreases |s|
  {
    if s != "" {
      DecodeIsNoLonger(s[if LooksEscaped(s) then EscapeLength(s) else 1..]);
    }
  }

  /** The decoder gives the name back if and only if nothing in it reads like an escape. */
  lemma {:induction false} DecodesToItself(s: string)
    requires IsCString(s)
    ensures Decode(Encode(s)) == s <==> IsPlain(s)
  {
    DecodeEncode(s);
    if s != "" {
      assert s[0..] == s;
      if LooksEscaped(s) {
        DecodeIsNoLonger(s[EscapeLength(s)..]);
      } else {
        DecodeEncode(s[1..]);
        DecodesToItself(s[1..]);
        assert Decode(s) == [s[0]] + Decode(s[1..]) && Decode(s)[1..] == Decode(s[1..]);
        assert Decode(s) == s <==> Decode(s[1..]) == s[1..] by {
          assert s == [s[0]] + s[1..];
        }
        assert forall i :: 0 <= i < |s[1..]| ==> s[1..][i..] == s[i + 1..];
        assert forall i :: 0 < i < |s| ==> s[i..] == s[1..][i - 1..];
      }
    }
  }

  /** So plain names, in particular those without an underscore, are told apart. */
  lemma PlainNamesDiffer(s: string, t: string)
    requires IsCString(s) && IsCString(t) && IsPlain(s) && IsPlain(t)
    ensures Encode(s) == Encode(t) ==> s == t
  {
    DecodesToItself(s);
    DecodesToItself(t);
  }

  /** Both are legal LVM names; the daemon gives them one object path. */
  lemma CollidingNames()
    ensures Encode("a-") == Encode("a_2d")
  {
    EncodeConcat("a", "-");
    EncodeSafe("a");
    EncodeSafe("a_2d");
    assert "a-" == "a" + "-";
    assert Encode("-") == Escape('-') + Encode("");
  }

  lemma {:induction false} SeparatorIsNotEncoded(a: string, b: string, x: string, y: string)
    requires x == "" || x[0] == '/'
    requires y == "" || y[0] == '/'
    requires Encode(a) + x == Encode(b) + y
    ensures Encode(a) == Encode(b) && x == y
  {
    EncodeIsSafe(a);
    EncodeIsSafe(b);
    var s := Encode(a) + x;
    var i, j := |Encode(a)|, |Encode(b)|;
    assert forall k :: 0 <= k < i ==> s[k] == Encode(a)[k];
    assert forall k :: 0 <= k < j ==> s[k] == Encode(b)[k];
    assert i < |s| ==> s[i] == x[0];
    assert j < |s| ==> s[j] == y[0];
    assert i == j;
    assert s[..i] == Encode(a) && s[..j] == Encode(b) && s[i..] == x && s[j..] == y;
  }

  /** Part boundaries survive: two lists of parts give the same path exactly if they have
      the same length and are position by position indistinguishable. */
  lemma {:induction false} SamePath(base: string, ps: seq<string>, qs: seq<string>)
    requires forall i :: 0 <= i < |ps| ==> IsCString(ps[i])
    requires forall i :: 0 <= i < |qs| ==> IsCString(qs[i])
    ensures Build(base, ps) == Build(base, qs) <==>
            |ps| == |qs| && forall i :: 0 <= i < |ps| ==> Decode(ps[i]) == Decode(qs[i])
  {
    SameElements(ps, qs);
    var p, q := Build(base, ps), Build(base, qs);
    assert p[|base|..] == Elements(ps) && q[|base|..] == Elements(qs);
  }

  lemma {:induction false} SameElements(ps: seq<string>, qs: seq<string>)
    requires forall i :: 0 <= i < |ps| ==> IsCString(ps[i])
    requires forall i :: 0 <= i < |qs| ==> IsCString(qs[i])
    ensures Elements(ps) == Elements(qs) <==>
            |ps| == |qs| && forall i :: 0 <= i < |ps| ==> Decode(ps[i]) == Decode(qs[i])
    decreases |ps|
  {
    if ps != [] && qs != [] {
      SameElements(ps[1..], qs[1..]);
      SameEncoding(ps[0], qs[0]);
      FirstElement(ps[0], qs[0], Elements(ps[1..]), Elements(qs[1..]));
      assert |ps| == |qs| && (forall i :: 0 <= i < |ps| ==> Decode(ps[i]) == Decode(qs[i])) <==>
        Decode(ps[0]) == Decode(qs[0]) && |ps[1..]| == |qs[1..]| &&
        forall i :: 0 <= i < |ps[1..]| ==> Decode(ps[1..][i]) == Decode(qs[1..][i]) by {
        assert |ps| == |qs| ==> forall i :: 0 < i < |ps| ==> ps[i] == ps[1..][i - 1] && qs[i] == qs[1..][i - 1];
      }
    }
  }

  lemma FirstElement(a: string, b: string, x: string, y: string)
    requires x == "" || x[0] == '/'
    requires y == "" || y[0] == '/'
    ensures "/" + Encode(a) + x == "/" + Encode(b) + y <==> Encode(a) == Encode(b) && x == y
  {
    var u, v := Encode(a), Encode(b);
    WithoutSlash(u, x);
    WithoutSlash(v, y);
    if "/" + u + x == "/" + v + y {
      SeparatorIsNotEncoded(a, b, x, y);
    }
  }

  lemma WithoutSlash(u: string, x: string)
    ensures ("/" + u + x)[1..] == u + x
  {
  }
}
