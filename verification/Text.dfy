// Byte strings: the order Go's sort.Strings uses, decimal and hexadecimal
// notation. A Go string is modelled as a sequence of char, one char a byte.
module Text {
  import opened Domain

  // ------------------------------------------------------ lexicographic order

  predicate Less(a: string, b: string) {
    b != "" && (a == "" || a[0] < b[0] || (a[0] == b[0] && Less(a[1..], b[1..])))
  }

  lemma {:induction false} LessIrreflexive(a: string)
    ensures !Less(a, a)
  {
    if a != "" {
      LessIrreflexive(a[1..]);
    }
  }

  lemma {:induction false} LessTransitive(a: string, b: string, c: string)
    requires Less(a, b) && Less(b, c)
    ensures Less(a, c)
  {
    if a != "" && a[0] == b[0] == c[0] {
      LessTransitive(a[1..], b[1..], c[1..]);
    }
  }

  lemma {:induction false} LessTotal(a: string, b: string)
    ensures a == b || Less(a, b) || Less(b, a)
  {
    if a != "" && b != "" && a[0] == b[0] {
      LessTotal(a[1..], b[1..]);
      assert a == [a[0]] + a[1..] && b == [b[0]] + b[1..];
    }
  }

  // The order by the first byte that differs, a proper prefix coming first.
  lemma {:induction false} LessExact(a: string, b: string)
    ensures Less(a, b) <==> exists i :: FirstLess(a, b, i)
  {
    if a != "" && b != "" && a[0] == b[0] {
      LessExact(a[1..], b[1..]);
      if i: nat :| FirstLess(a[1..], b[1..], i) {
        assert FirstLess(a, b, i + 1);
      }
      if j: nat :| FirstLess(a, b, j) {
        assert FirstLess(a[1..], b[1..], j - 1);
      }
    } else {
      assert Less(a, b) ==> FirstLess(a, b, 0);
    }
  }

  ghost predicate FirstLess(a: string, b: string, i: nat) {
    && i <= |a| && i < |b| && (forall j :: 0 <= j < i ==> a[j] == b[j])
    && (i == |a| || a[i] < b[i])
  }

  // ------------------------------------------------------- sorted key listings

  ghost predicate Sorted(names: seq<string>) {
    forall i, j :: 0 <= i < j < |names| ==> Less(names[i], names[j])
  }

  // names lists exactly the strings of keys, in increasing order.
  ghost predicate Lists(names: seq<string>, keys: set<string>) {
    Sorted(names) && forall k :: k in names <==> k in keys
  }

  predicate IsLeast(x: string, keys: set<string>) {
    x in keys && forall y :: y in keys && y != x ==> Less(x, y)
  }

  lemma {:induction false} LeastExists(keys: set<string>)
    requires keys != {}
    ensures exists x :: IsLeast(x, keys)
  {
    var k :| k in keys;
    var rest := keys - {k};
    if rest == {} {
      assert keys == {k};
      assert IsLeast(k, keys);
    } else {
      LeastExists(rest);
      var m :| IsLeast(m, rest);
      LessTotal(k, m);
      if Less(k, m) {
        forall y | y in keys && y != k ensures Less(k, y) {
          if y != m { LessTransitive(k, m, y); }
        }
        assert IsLeast(k, keys);
      } else {
        assert IsLeast(m, keys);
      }
    }
  }

  lemma LeastUnique(keys: set<string>)
    ensures forall x, y :: IsLeast(x, keys) && IsLeast(y, keys) ==> x == y
  {
    forall x, y | IsLeast(x, keys) && IsLeast(y, keys) ensures x == y {
      if x != y {
        LessTransitive(x, y, x);
        LessIrreflexive(x);
      }
    }
  }

  // What sort.Strings makes of the keys of a map.
  function SortedKeys(keys: set<string>): (names: seq<string>)
    ensures Lists(names, keys)
  {
    if keys == {} then [] else
      LeastExists(keys);
      LeastUnique(keys);
      var x :| IsLeast(x, keys);
      [x] + SortedKeys(keys - {x})
  }

  // However a map is iterated, sorting its keys gives one listing only.
  lemma {:induction false} ListingUnique(a: seq<string>, b: seq<string>, keys: set<string>)
    requires Lists(a, keys) && Lists(b, keys)
    ensures a == b
  {
    if keys == {} {
      SomeName(a);
      SomeName(b);
    } else {
      var k :| k in keys;
      assert k in a && k in b;
      assert a[0] in b && b[0] in a;
      LeastUnique(keys);
      assert IsLeast(a[0], keys) && IsLeast(b[0], keys);
      ListsTail(a, keys);
      ListsTail(b, keys);
      ListingUnique(a[1..], b[1..], keys - {a[0]});
      assert a == [a[0]] + a[1..] && b == [b[0]] + b[1..];
    }
  }

  lemma SomeName(a: seq<string>)
    ensures a == [] || exists k :: k in a
  {
    if a != [] {
      assert a[0] in a;
    }
  }

  lemma ListsTail(a: seq<string>, keys: set<string>)
    requires a != [] && Lists(a, keys)
    ensures Lists(a[1..], keys - {a[0]})
  {
    assert a == [a[0]] + a[1..];
    forall k ensures k in a[1..] <==> k in keys - {a[0]} {
      if k in a[1..] {
        var i :| 0 <= i < |a[1..]| && a[1..][i] == k;
        assert a[i + 1] == k && Less(a[0], a[i + 1]);
        if k == a[0] { LessIrreflexive(k); }
      }
    }
  }

  // ------------------------------------------------------------------ decimal

  function Digit(d: nat): (c: char)
    requires d < 10
    ensures '0' <= c <= '9'
  {
    d as char + '0'
  }

  // strconv.FormatUint(n, 10)
  function FormatUint(n: nat): (s: string)
    ensures s != "" && forall c :: c in s ==> '0' <= c <= '9'
  {
    if n < 10 then [Digit(n)] else FormatUint(n / 10) + [Digit(n % 10)]
  }

  // strconv.Itoa(n)
  function Itoa(n: int): (s: string)
    ensures forall c :: c in s ==> c == '-' || '0' <= c <= '9'
  {
    if n < 0 then "-" + FormatUint(-n) else FormatUint(n)
  }

  lemma {:induction false} FormatUintInjective(m: nat, n: nat)
    requires FormatUint(m) == FormatUint(n)
    ensures m == n
  {
    var s, t := FormatUint(m), FormatUint(n);
    assert s[|s| - 1] == Digit(m % 10) && t[|t| - 1] == Digit(n % 10);
    if m >= 10 && n >= 10 {
      assert s[..|s| - 1] == FormatUint(m / 10) && t[..|t| - 1] == FormatUint(n / 10);
      FormatUintInjective(m / 10, n / 10);
    }
  }

  // The number that a decimal text denotes.
  function DecimalValue(s: string): int {
    if s == "" then 0 else 10 * DecimalValue(s[..|s| - 1]) + (s[|s| - 1] as int - '0' as int)
  }

  lemma {:induction false} FormatUintDenotes(n: nat)
    ensures DecimalValue(FormatUint(n)) == n && (n > 0 ==> FormatUint(n)[0] != '0')
  {
    var s := FormatUint(n);
    if n < 10 {
      assert s[..0] == "";
    } else {
      FormatUintDenotes(n / 10);
      assert s[..|s| - 1] == FormatUint(n / 10);
    }
  }

  lemma ItoaSign(n: int)
    ensures Itoa(n) != "" && (n < 0 <==> Itoa(n)[0] == '-')
  {
    if n >= 0 {
      assert FormatUint(n)[0] in FormatUint(n);
    }
  }

  lemma ItoaInjective(m: int, n: int)
    requires Itoa(m) == Itoa(n)
    ensures m == n
  {
    var s, t := Itoa(m), Itoa(n);
    ItoaSign(m);
    ItoaSign(n);
    if m < 0 {
      assert s[1..] == FormatUint(-m) && t[1..] == FormatUint(-n);
      FormatUintInjective(-m, -n);
    } else {
      FormatUintInjective(m, n);
    }
  }

  // -------------------------------------------------------------- hexadecimal

  predicate Bytes(s: string) {
    forall i :: 0 <= i < |s| ==> s[i] as int < 256
  }

  function HexDigit(d: nat): (c: char)
    requires d < 16
  {
    if d < 10 then d as char + '0' else (d - 10) as char + 'a'
  }

  // encoding/hex.EncodeToString
  function HexEncode(s: string): (h: string)
    requires Bytes(s)
    ensures |h| == 2 * |s|
    ensures forall c :: c in h ==> '0' <= c <= '9' || 'a' <= c <= 'f'
  {
    if s == "" then ""
    else [HexDigit(s[0] as int / 16), HexDigit(s[0] as int % 16)] + HexEncode(s[1..])
  }

  function HexValue(c: char): (v: Option<nat>)
    ensures v.Some? ==> v.value < 16
  {
    if '0' <= c <= '9' then Some(c as int - '0' as int)
    else if 'a' <= c <= 'f' then Some(c as int - 'a' as int + 10)
    else if 'A' <= c <= 'F' then Some(c as int - 'A' as int + 10)
    else None
  }

  // encoding/hex.DecodeString: None stands for either of its errors.
  function HexDecode(h: string): (s: Option<string>)
    ensures s.Some? ==> Bytes(s.value) && |h| == 2 * |s.value|
  {
    if h == "" then Some("")
    else if |h| == 1 then None
    else
      match (HexValue(h[0]), HexValue(h[1]), HexDecode(h[2..]))
      case (Some(a), Some(b), Some(rest)) => Some([(16 * a + b) as char] + rest)
      case _ => None
  }

  // Two lower-case digits a byte, the high one first.
  lemma {:induction false} HexEncodeDigits(s: string, i: nat)
    requires Bytes(s) && i < |s|
    ensures HexEncode(s)[2 * i] == "0123456789abcdef"[s[i] as int / 16]
    ensures HexEncode(s)[2 * i + 1] == "0123456789abcdef"[s[i] as int % 16]
  {
    if i > 0 {
      assert Bytes(s[1..]);
      HexEncodeDigits(s[1..], i - 1);
      assert HexEncode(s)[2..] == HexEncode(s[1..]);
    }
  }

  lemma {:induction false} HexRoundTrip(s: string)
    requires Bytes(s)
    ensures HexDecode(HexEncode(s)) == Some(s)
  {
    if s != "" {
      var rest := s[1..];
      assert Bytes(rest);
      HexRoundTrip(rest);
      var h := HexEncode(s);
      assert h[2..] == HexEncode(rest);
      NibbleRoundTrip(s[0] as int / 16);
      NibbleRoundTrip(s[0] as int % 16);
      hide HexDigit, HexValue, HexEncode;
      assert HexDecode(h) == Some([s[0]] + rest);
      assert s == [s[0]] + rest;
    }
  }

  lemma NibbleRoundTrip(d: nat)
    requires d < 16
    ensures HexValue(HexDigit(d)) == Some(d)
  {
  }

  // ---------------------------------------------------------- unique splitting

  // A text without the separator is recovered from the left of one.
  lemma {:induction false} SplitLeft(a: string, b: string, x: string, y: string, sep: char)
    requires sep !in a && sep !in b
    requires a + [sep] + x == b + [sep] + y
    ensures a == b && x == y
  {
    var s, t := a + [sep] + x, b + [sep] + y;
    assert s[|a|] == sep && t[|b|] == sep;
    assert a == s[..|a|] && b == t[..|b|];
    assert |a| == |b|;
    assert x == s[|a| + 1..] && y == t[|b| + 1..];
  }

  // And from the right of one.
  lemma {:induction false} SplitRight(a: string, b: string, x: string, y: string, sep: char)
    requires sep !in x && sep !in y
    requires a + [sep] + x == b + [sep] + y
    ensures a == b && x == y
  {
    var s, t := a + [sep] + x, b + [sep] + y;
    assert s[|a|] == sep && t[|b|] == sep;
    assert x == s[|a| + 1..] && y == t[|b| + 1..];
    assert |a| == |b|;
    assert a == s[..|a|] && b == t[..|b|];
  }
}
