/** Small shared vocabulary: optional values, results, and the string helpers
    that PHP's `explode` and integer-to-string conversion need. */
module Base {

  datatype Option<+T> = None | Some(value: T)

  datatype Result<+T, +E> = Success(value: T) | Failure(error: E)

  /** The decimal digit for 0 <= d < 10. */
  function Digit(d: nat): (c: char)
    requires d < 10
    ensures '0' <= c <= '9'
  {
    ['0', '1', '2', '3', '4', '5', '6', '7', '8', '9'][d]
  }

  /** Canonical decimal spelling of a natural number (no leading zeros). */
  function Decimal(n: nat): (s: string)
    ensures |s| >= 1
    ensures forall i :: 0 <= i < |s| ==> '0' <= s[i] <= '9'
    ensures n >= 10 <==> |s| >= 2
  {
    if n < 10 then [Digit(n)] else Decimal(n / 10) + [Digit(n % 10)]
  }

  /** Decimal spelling of an integer, with a leading '-' when negative
      (PHP's `(string)$i`). */
  function IntString(i: int): (s: string)
    ensures |s| >= 1
    ensures s[0] == '-' <==> i < 0
  {
    if i < 0 then "-" + Decimal(-i) else Decimal(i)
  }

  /** Index of the first `c` in `s`, or |s| when there is none
      (`IndexOfFound` states what it finds). */
  function IndexOf(s: string, c: char): (i: nat)
    ensures i <= |s|
  {
    if |s| == 0 then 0 else if s[0] == c then 0 else 1 + IndexOf(s[1..], c)
  }

  /** `IndexOf` finds the first occurrence: `c` is at the index when it is in
      range, and nowhere before it. */
  lemma {:induction false} IndexOfFound(s: string, c: char)
    ensures IndexOf(s, c) < |s| ==> s[IndexOf(s, c)] == c
    ensures forall j :: 0 <= j < IndexOf(s, c) ==> s[j] != c
    decreases |s|
  {
    if |s| > 0 && s[0] != c {
      IndexOfFound(s[1..], c);
      forall j | 0 < j < IndexOf(s, c) ensures s[j] != c {
        assert s[j] == s[1..][j - 1];
      }
    }
  }

  /** PHP's `explode($sep, $s)` for a one-character separator: the pieces
      between separators, at least one (`explode(',', '')` is `['']`). */
  function Explode(sep: char, s: string): (parts: seq<string>)
    ensures |parts| >= 1
    decreases |s|
  {
    var i := IndexOf(s, sep);
    if i == |s| then [s] else [s[..i]] + Explode(sep, s[i + 1..])
  }

  /** The first piece is the text before the first separator. */
  lemma ExplodeHead(sep: char, s: string)
    ensures Explode(sep, s)[0] == s[..IndexOf(s, sep)]
  {
  }

  /** Without a separator the text is the only piece. */
  lemma ExplodeWhole(sep: char, s: string)
    requires IndexOf(s, sep) == |s|
    ensures Explode(sep, s) == [s]
  {
  }

  /** After the first separator, the remaining pieces are those of the rest. */
  lemma ExplodeTail(sep: char, s: string)
    requires IndexOf(s, sep) < |s|
    ensures Explode(sep, s) == [s[..IndexOf(s, sep)]] + Explode(sep, s[IndexOf(s, sep) + 1..])
  {
  }

  /** No piece contains the separator. */
  lemma {:induction false} ExplodeNoSep(sep: char, s: string)
    ensures forall k :: 0 <= k < |Explode(sep, s)| ==> sep !in Explode(sep, s)[k]
    decreases |s|
  {
    var i0 := IndexOf(s, sep);
    IndexOfFound(s, sep);
    assert sep !in s[..i0];
    if i0 == |s| {
      ExplodeWhole(sep, s);
    } else {
      ExplodeTail(sep, s);
      ExplodeNoSep(sep, s[i0 + 1..]);
      var parts := Explode(sep, s);
      var rest := Explode(sep, s[i0 + 1..]);
      forall k | 0 < k < |parts| ensures sep !in parts[k] {
        assert parts[k] == rest[k - 1];
      }
    }
  }

  /** The pieces joined back with the separator between them: the inverse of `Explode`. */
  function Implode(sep: char, parts: seq<string>): string
    requires |parts| >= 1
  {
    if |parts| == 1 then parts[0] else parts[0] + [sep] + Implode(sep, parts[1..])
  }

  /** Exploding and imploding again gives back the original string. */
  lemma {:induction false} ImplodeExplode(sep: char, s: string)
    ensures Implode(sep, Explode(sep, s)) == s
    decreases |s|
  {
    var i := IndexOf(s, sep);
    IndexOfFound(s, sep);
    if i < |s| {
      var rest := s[i + 1..];
      ExplodeTail(sep, s);
      var parts := Explode(sep, s);
      assert parts[1..] == Explode(sep, rest);
      assert Implode(sep, parts) == s[..i] + [sep] + Implode(sep, Explode(sep, rest));
      ImplodeExplode(sep, rest);
      assert s == s[..i] + [sep] + rest;
    } else {
      ExplodeWhole(sep, s);
    }
  }

  /** `f` occurs in `s` as a whole separator-delimited item starting at `i`. */
  predicate DelimitedAt(s: string, sep: char, f: string, i: int)
  {
    0 <= i && i + |f| <= |s| && s[i..i + |f|] == f &&
    (i == 0 || s[i - 1] == sep) &&
    (i + |f| == |s| || s[i + |f|] == sep)
  }

  /** `f` is one of the separator-delimited items of `s`, stated on positions
      of `s` alone (an independent reading of what `in_array($f, explode(...))` tests). */
  predicate IsDelimitedItem(s: string, sep: char, f: string)
  {
    exists i :: 0 <= i <= |s| && DelimitedAt(s, sep, f, i)
  }

  /** An item starting at or before the first separator is the first piece. */
  lemma DelimitedBeforeFirst(sep: char, s: string, f: string, i: int)
    requires sep !in f
    requires DelimitedAt(s, sep, f, i)
    requires i <= IndexOf(s, sep)
    ensures i == 0 && f == s[..IndexOf(s, sep)]
  {
    IndexOfFound(s, sep);
  }

  /** Items of the text after a separator are items of the whole text, shifted. */
  lemma DelimitedShift(sep: char, s: string, f: string, i0: nat, k: int)
    requires i0 < |s| && s[i0] == sep
    requires 0 <= k
    ensures DelimitedAt(s[i0 + 1..], sep, f, k) <==> DelimitedAt(s, sep, f, k + i0 + 1)
  {
    var rest := s[i0 + 1..];
    if 0 <= k && k + |f| <= |rest| {
      assert s[k + i0 + 1..k + i0 + 1 + |f|] == rest[k..k + |f|];
      assert k + |f| < |rest| ==> rest[k + |f|] == s[k + i0 + 1 + |f|];
      assert k > 0 ==> rest[k - 1] == s[k + i0];
    }
  }

  /** Every piece of `Explode` is a delimited item of the exploded text. */
  lemma {:induction false} ExplodeSound(sep: char, s: string, f: string)
    requires f in Explode(sep, s)
    ensures IsDelimitedItem(s, sep, f)
    decreases |s|
  {
    var i0 := IndexOf(s, sep);
    IndexOfFound(s, sep);
    if i0 == |s| {
      ExplodeWhole(sep, s);
      assert DelimitedAt(s, sep, f, 0);
    } else {
      ExplodeTail(sep, s);
      var parts := Explode(sep, s);
      var rest := s[i0 + 1..];
      var j :| 0 <= j < |parts| && parts[j] == f;
      if j == 0 {
        assert DelimitedAt(s, sep, f, 0);
      } else {
        assert Explode(sep, rest)[j - 1] == f;
        ExplodeSound(sep, rest, f);
        var k :| 0 <= k <= |rest| && DelimitedAt(rest, sep, f, k);
        DelimitedShift(sep, s, f, i0, k);
        assert DelimitedAt(s, sep, f, k + i0 + 1);
      }
    }
  }

  /** Every separator-free delimited item of a text is one of its pieces. */
  lemma {:induction false} ExplodeComplete(sep: char, s: string, f: string, i: int)
    requires sep !in f
    requires DelimitedAt(s, sep, f, i)
    ensures f in Explode(sep, s)
    decreases |s|
  {
    var i0 := IndexOf(s, sep);
    if i <= i0 {
      DelimitedBeforeFirst(sep, s, f, i);
      ExplodeHead(sep, s);
      assert Explode(sep, s)[0] == f;
    } else {
      IndexOfFound(s, sep);
      DelimitedShift(sep, s, f, i0, i - i0 - 1);
      ExplodeComplete(sep, s[i0 + 1..], f, i - i0 - 1);
      ExplodeTail(sep, s);
      var rest := Explode(sep, s[i0 + 1..]);
      var j :| 0 <= j < |rest| && rest[j] == f;
      assert Explode(sep, s)[j + 1] == f;
    }
  }

  /** Exploding `a`, a separator and `rest`, for a first piece `a` without
      separator, gives `a` and the pieces of `rest`. */
  lemma ExplodeCons(sep: char, a: string, rest: string)
    requires sep !in a
    ensures Explode(sep, a + [sep] + rest) == [a] + Explode(sep, rest)
  {
    var s := a + [sep] + rest;
    IndexOfFound(s, sep);
    assert s[|a|] == sep;
    assert IndexOf(s, sep) == |a|;
    ExplodeTail(sep, s);
    assert s[..|a|] == a && s[|a| + 1..] == rest;
  }

  /** Membership in `Explode` is exactly being a delimited item. */
  lemma ExplodeMember(sep: char, s: string, f: string)
    requires sep !in f
    ensures f in Explode(sep, s) <==> IsDelimitedItem(s, sep, f)
  {
    if f in Explode(sep, s) {
      ExplodeSound(sep, s, f);
    }
    if IsDelimitedItem(s, sep, f) {
      var i :| 0 <= i <= |s| && DelimitedAt(s, sep, f, i);
      ExplodeComplete(sep, s, f, i);
    }
  }
}
