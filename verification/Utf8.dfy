/** Bounding stored text to a number of bytes without cutting a character:
    well-formed UTF-8 is that of section 4 of RFC 3629. */
module Utf8 {
  import opened Model

  // ---- The grammar ----

  predicate Tail(b: Byte) {
    0x80 <= b <= 0xBF
  }

  /** UTF8-char: exactly one encoded character. */
  predicate IsChar(s: Bytes) {
    || (|s| == 1 && s[0] <= 0x7F)
    || (|s| == 2 && 0xC2 <= s[0] <= 0xDF && Tail(s[1]))
    || (|s| == 3 && Tail(s[2])
        && (|| (s[0] == 0xE0 && 0xA0 <= s[1] <= 0xBF)
            || (0xE1 <= s[0] <= 0xEC && Tail(s[1]))
            || (s[0] == 0xED && 0x80 <= s[1] <= 0x9F)
            || (0xEE <= s[0] <= 0xEF && Tail(s[1]))))
    || (|s| == 4 && Tail(s[2]) && Tail(s[3])
        && (|| (s[0] == 0xF0 && 0x90 <= s[1] <= 0xBF)
            || (0xF1 <= s[0] <= 0xF3 && Tail(s[1]))
            || (s[0] == 0xF4 && 0x80 <= s[1] <= 0x8F)))
  }

  function Concat(chars: seq<Bytes>): Bytes {
    if chars == [] then [] else chars[0] + Concat(chars[1..])
  }

  /** UTF8-octets: a sequence of encoded characters. */
  ghost predicate WellFormed(s: Bytes) {
    exists chars: seq<Bytes> :: (forall k :: 0 <= k < |chars| ==> IsChar(chars[k])) && Concat(chars) == s
  }

  // ---- Decoding, as `utf8.ValidString` and `strings.ToValidUTF8` do it ----

  /** The length the first byte announces, with the range of the second byte. */
  function Announced(b: Byte): (nat, Byte, Byte) {
    if b <= 0x7F then (1, 0, 0)
    else if 0xC2 <= b <= 0xDF then (2, 0x80, 0xBF)
    else if b == 0xE0 then (3, 0xA0, 0xBF)
    else if b == 0xED then (3, 0x80, 0x9F)
    else if 0xE1 <= b <= 0xEF then (3, 0x80, 0xBF)
    else if b == 0xF0 then (4, 0x90, 0xBF)
    else if 0xF1 <= b <= 0xF3 then (4, 0x80, 0xBF)
    else if b == 0xF4 then (4, 0x80, 0x8F)
    else (0, 0, 0)
  }

  /** The length of the character `s` starts with, or 0 if it starts with none. */
  function First(s: Bytes): nat {
    if s == [] then 0
    else
      var (n, lo, hi) := Announced(s[0]);
      if n == 0 || n > |s| then 0
      else if n >= 2 && !(lo <= s[1] <= hi) then 0
      else if n >= 3 && !Tail(s[2]) then 0
      else if n == 4 && !Tail(s[3]) then 0
      else n
  }

  /** Decoding finds a character exactly where the grammar has one. */
  lemma FirstIsChar(s: Bytes)
    ensures First(s) <= 4 && First(s) <= |s|
    ensures First(s) > 0 ==> IsChar(s[..First(s)])
    ensures forall n :: 0 < n <= |s| && IsChar(s[..n]) ==> First(s) == n
  {
  }

  predicate Valid(s: Bytes)
    decreases |s|
  {
    s == [] || (First(s) > 0 && First(s) <= |s| && Valid(s[First(s)..]))
  }

  /** The text without the bytes that belong to no character. */
  function Sanitised(s: Bytes): (r: Bytes)
    ensures Valid(r) && |r| <= |s|
    ensures Valid(s) ==> r == s
    decreases |s|
  {
    hide IsChar;
    if s == [] then []
    else if First(s) == 0 then Sanitised(s[1..])
    else
      FirstIsChar(s);
      var rest := Sanitised(s[First(s)..]);
      assert s == s[..First(s)] + s[First(s)..];
      ValidAppend(s[..First(s)], rest);
      s[..First(s)] + rest
  }

  lemma ValidAppend(ch: Bytes, rest: Bytes)
    requires IsChar(ch) && Valid(rest)
    ensures Valid(ch + rest)
  {
    var s := ch + rest;
    assert s[..|ch|] == ch && s[|ch|..] == rest;
    FirstIsChar(s);
  }

  /** Decoding accepts exactly the well-formed texts. */
  lemma {:induction false} ValidWellFormed(s: Bytes)
    ensures Valid(s) <==> WellFormed(s)
    decreases |s|
  {
    FirstIsChar(s);
    hide First, IsChar;
    if Valid(s) {
      if s == [] {
        assert Concat([]) == s;
      } else {
        var n := First(s);
        ValidWellFormed(s[n..]);
        var chars :| (forall k :: 0 <= k < |chars| ==> IsChar(chars[k])) && Concat(chars) == s[n..];
        var all := [s[..n]] + chars;
        assert all[1..] == chars;
        assert Concat(all) == s[..n] + s[n..] == s;
      }
    }
    if WellFormed(s) {
      var chars :| (forall k :: 0 <= k < |chars| ==> IsChar(chars[k])) && Concat(chars) == s;
      ConcatValid(chars);
    }
  }

  lemma {:induction false} ConcatValid(chars: seq<Bytes>)
    requires forall k :: 0 <= k < |chars| ==> IsChar(chars[k])
    ensures Valid(Concat(chars))
  {
    if chars != [] {
      ConcatValid(chars[1..]);
      ValidAppend(chars[0], Concat(chars[1..]));
    }
  }

  /** A well-formed text has a character boundary at most 3 bytes below any cut. */
  lemma {:induction false} Boundary(s: Bytes, m: nat) returns (k: nat)
    requires Valid(s) && m <= |s|
    ensures m - 3 <= k <= m && Valid(s[..k])
    decreases |s|
  {
    k := 0;
    if m > 0 {
      var n := First(s);
      FirstIsChar(s);
      if n <= m {
        var k' := Boundary(s[n..], m - n);
        k := n + k';
        assert s[..k] == s[..n] + s[n..][..k'];
        ValidAppend(s[..n], s[n..][..k']);
      }
    }
  }

  /** The longest well-formed prefix of the sanitised text that fits. */
  method BoundedMetadata(value: Bytes, maxBytes: nat) returns (r: Bytes)
    ensures WellFormed(r) && |r| <= maxBytes && r <= Sanitised(value)
    ensures forall k :: |r| < k <= maxBytes && k <= |Sanitised(value)| ==> !WellFormed(Sanitised(value)[..k])
    ensures |Sanitised(value)| <= maxBytes ==> r == Sanitised(value)
    ensures |Sanitised(value)| > maxBytes ==> |r| >= maxBytes - 3
  {
    var text := Sanitised(value);
    hide First, WellFormed, Sanitised;
    r := text;
    if |r| > maxBytes {
      r := r[..maxBytes];
      ghost var b := Boundary(text, maxBytes);
      while !Valid(r)
        invariant b <= |r| <= maxBytes && r == text[..|r|]
        invariant forall k :: |r| < k <= maxBytes ==> !Valid(text[..k])
        decreases |r|
      {
        r := r[..|r| - 1];
      }
    }
    ValidWellFormed(r);
    forall k | |r| < k <= maxBytes && k <= |text| ensures !WellFormed(text[..k]) {
      ValidWellFormed(text[..k]);
    }
  }

  lemma CharKept(ch: Bytes, rest: Bytes)
    requires IsChar(ch)
    ensures Sanitised(ch + rest) == ch + Sanitised(rest)
  {
    assert (ch + rest)[..|ch|] == ch && (ch + rest)[|ch|..] == rest;
    FirstIsChar(ch + rest);
    hide First, IsChar;
  }

  /** No character starts `s`. */
  ghost predicate NoChar(s: Bytes) {
    forall n :: 0 < n <= |s| ==> !IsChar(s[..n])
  }

  lemma StrayDropped(b: Byte, rest: Bytes)
    requires NoChar([b] + rest)
    ensures Sanitised([b] + rest) == Sanitised(rest)
  {
    FirstIsChar([b] + rest);
    hide First, IsChar;
    assert First([b] + rest) == 0;
    assert ([b] + rest)[1..] == rest;
  }

  /** Sanitising keeps the well-formed text before a byte at which no character starts -
      a byte that can start none, a truncated, an overlong or a surrogate sequence -
      drops that one byte, and goes on behind it. */
  lemma {:induction false} StrayByte(s: Bytes, b: Byte, rest: Bytes)
    requires Valid(s) && NoChar([b] + rest)
    ensures Sanitised(s + [b] + rest) == s + Sanitised(rest)
    decreases |s|
  {
    hide First, IsChar, Sanitised, NoChar;
    if s == [] {
      assert s + [b] + rest == [b] + rest;
      StrayDropped(b, rest);
      assert s + Sanitised(rest) == Sanitised(rest);
    } else {
      FirstIsChar(s);
      var ch, more := s[..First(s)], s[First(s)..];
      StrayByte(more, b, rest);
      CharKept(ch, more + [b] + rest);
      assert s == ch + more;
      assert s + [b] + rest == ch + (more + [b] + rest);
      assert s + Sanitised(rest) == ch + (more + Sanitised(rest));
    }
  }

  /** Every text is well formed or has such a byte behind a well-formed beginning, so the
      two cases determine what sanitising does. */
  lemma {:induction false} FirstStray(s: Bytes) returns (n: nat)
    requires !WellFormed(s)
    ensures n < |s| && WellFormed(s[..n]) && NoChar(s[n..])
    decreases |s|
  {
    hide First, IsChar, WellFormed;
    ValidWellFormed(s);
    FirstIsChar(s);
    if First(s) == 0 {
      n := 0;
      ValidWellFormed(s[..0]);
      assert s[0..] == s;
    } else {
      var k := First(s);
      ValidWellFormed(s[k..]);
      var m := FirstStray(s[k..]);
      n := k + m;
      ValidWellFormed(s[k..][..m]);
      ValidAppend(s[..k], s[k..][..m]);
      assert s[..n] == s[..k] + s[k..][..m];
      ValidWellFormed(s[..n]);
      assert s[n..] == s[k..][m..];
    }
  }
}
