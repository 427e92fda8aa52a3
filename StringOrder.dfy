/** The order JavaScript's default `Array.prototype.sort()` puts strings in:
    lexicographic comparison of their UTF-16 code units. Dafny characters are
    Unicode scalar values, so the order is stated per character through a key
    (CodeUnitKey) and then proved equal to comparing the UTF-16 encodings
    (CodeUnitOrder). */
module StringOrder {

  /** A rank for each character such that comparing ranks compares the
      characters' UTF-16 encodings: characters below the surrogate block keep
      their value, supplementary characters (encoded with a leading high
      surrogate D800-DBFF) come next, and BMP characters from E000 on come last. */
  function CodeUnitKey(c: char): nat {
    var n := c as int;
    if n < 0xD800 then n
    else if n < 0x1_0000 then n + 0x11_0000
    else n - 0x1_0000 + 0xD800
  }

  /** Strict lexicographic order of strings under CodeUnitKey; a proper prefix comes first. */
  predicate Less(a: string, b: string) {
    if a == [] then b != []
    else if b == [] then false
    else if a[0] == b[0] then Less(a[1..], b[1..])
    else CodeUnitKey(a[0]) < CodeUnitKey(b[0])
  }

  lemma KeyInjective(c: char, d: char)
    requires c != d
    ensures CodeUnitKey(c) != CodeUnitKey(d)
  {
    assert c as int != d as int;
  }

  lemma {:induction false} LessIrreflexive(a: string)
    ensures !Less(a, a)
  {
    if a != [] {
      LessIrreflexive(a[1..]);
    }
  }

  lemma {:induction false} LessTransitive(a: string, b: string, c: string)
    requires Less(a, b) && Less(b, c)
    ensures Less(a, c)
  {
    if a != [] && b != [] && c != [] {
      if a[0] == b[0] && b[0] == c[0] {
        LessTransitive(a[1..], b[1..], c[1..]);
      } else if a[0] == c[0] {
        // then a[0] != b[0]: the keys would rise from a[0] to b[0] and fall back
        assert false;
      } else {
        KeyInjective(a[0], c[0]);
      }
    }
  }

  lemma {:induction false} LessTotal(a: string, b: string)
    requires a != b
    ensures Less(a, b) || Less(b, a)
  {
    if a != [] && b != [] {
      if a[0] == b[0] {
        assert a == [a[0]] + a[1..] && b == [b[0]] + b[1..];
        LessTotal(a[1..], b[1..]);
      } else {
        KeyInjective(a[0], b[0]);
      }
    }
  }

  lemma LessAsymmetric(a: string, b: string)
    requires Less(a, b)
    ensures !Less(b, a)
  {
    if Less(b, a) {
      LessTransitive(a, b, a);
      LessIrreflexive(a);
    }
  }

  /** The UTF-16 encoding of one character: one code unit, or a surrogate pair. */
  function Utf16Char(c: char): (u: seq<int>)
    ensures 1 <= |u| <= 2
  {
    var n := c as int;
    if n < 0x1_0000 then [n]
    else [0xD800 + (n - 0x1_0000) / 0x400, 0xDC00 + (n - 0x1_0000) % 0x400]
  }

  function Utf16(s: string): seq<int> {
    if s == [] then [] else Utf16Char(s[0]) + Utf16(s[1..])
  }

  /** Strict lexicographic order of code unit sequences, as JavaScript compares strings. */
  predicate UnitsLess(a: seq<int>, b: seq<int>) {
    if a == [] then b != []
    else if b == [] then false
    else if a[0] == b[0] then UnitsLess(a[1..], b[1..])
    else a[0] < b[0]
  }

  lemma {:induction false} UnitsLessCommonPrefix(p: seq<int>, x: seq<int>, y: seq<int>)
    ensures UnitsLess(p + x, p + y) == UnitsLess(x, y)
  {
    if p != [] {
      assert (p + x)[0] == (p + y)[0] == p[0];
      assert (p + x)[1..] == p[1..] + x;
      assert (p + y)[1..] == p[1..] + y;
      UnitsLessCommonPrefix(p[1..], x, y);
    } else {
      assert p + x == x && p + y == y;
    }
  }

  /** Two different characters: their encodings decide the comparison, in the direction of their keys. */
  lemma DifferentChars(c: char, d: char, x: seq<int>, y: seq<int>)
    requires c != d
    ensures UnitsLess(Utf16Char(c) + x, Utf16Char(d) + y) == (CodeUnitKey(c) < CodeUnitKey(d))
  {
    var n, m := c as int, d as int;
    assert n != m;
    var u, v := Utf16Char(c) + x, Utf16Char(d) + y;
    if n < 0x1_0000 && m < 0x1_0000 {
      assert u[0] == n && v[0] == m;
    } else if n < 0x1_0000 {
      var h := 0xD800 + (m - 0x1_0000) / 0x400;
      assert u[0] == n && v[0] == h;
      assert 0xD800 <= h < 0xDC00;
    } else if m < 0x1_0000 {
      var h := 0xD800 + (n - 0x1_0000) / 0x400;
      assert u[0] == h && v[0] == m;
      assert 0xD800 <= h < 0xDC00;
    } else {
      var hn, ln := (n - 0x1_0000) / 0x400, (n - 0x1_0000) % 0x400;
      var hm, lm := (m - 0x1_0000) / 0x400, (m - 0x1_0000) % 0x400;
      assert n - 0x1_0000 == 0x400 * hn + ln;
      assert m - 0x1_0000 == 0x400 * hm + lm;
      assert u[0] == 0xD800 + hn && v[0] == 0xD800 + hm;
      if hn == hm {
        assert u[1..] == [0xDC00 + ln] + x;
        assert v[1..] == [0xDC00 + lm] + y;
        assert ln != lm;
      } else if hn < hm {
        assert n < m;
      } else {
        assert m < n;
      }
    }
  }

  /** CodeUnitKey is right: Less is JavaScript's comparison of UTF-16 code units. */
  lemma {:induction false} CodeUnitOrder(a: string, b: string)
    ensures Less(a, b) <==> UnitsLess(Utf16(a), Utf16(b))
  {
    if a == [] || b == [] {
      assert a != [] ==> Utf16(a) == Utf16Char(a[0]) + Utf16(a[1..]) != [];
      assert b != [] ==> Utf16(b) == Utf16Char(b[0]) + Utf16(b[1..]) != [];
    } else if a[0] == b[0] {
      UnitsLessCommonPrefix(Utf16Char(a[0]), Utf16(a[1..]), Utf16(b[1..]));
      CodeUnitOrder(a[1..], b[1..]);
    } else {
      DifferentChars(a[0], b[0], Utf16(a[1..]), Utf16(b[1..]));
    }
  }
}
