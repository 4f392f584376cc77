/** Strings as the program compares, sorts and formats them. The order is by
    character, which for the program's text is the order of its bytes. */
module Text {
  predicate StrLe(a: string, b: string) {
    a == [] || (b != [] && (a[0] < b[0] || (a[0] == b[0] && StrLe(a[1..], b[1..]))))
  }

  predicate StrLt(a: string, b: string) {
    a != b && StrLe(a, b)
  }

  lemma StrLeTotal(a: string, b: string)
    ensures StrLe(a, b) || StrLe(b, a)
  {
  }

  lemma {:induction false} StrLeAntisymmetric(a: string, b: string)
    requires StrLe(a, b) && StrLe(b, a)
    ensures a == b
  {
    if a != [] {
      StrLeAntisymmetric(a[1..], b[1..]);
      assert a == [a[0]] + a[1..] && b == [b[0]] + b[1..];
    }
  }

  lemma {:induction false} StrLeTransitive(a: string, b: string, c: string)
    requires StrLe(a, b) && StrLe(b, c)
    ensures StrLe(a, c)
  {
    if a != [] && a[0] == b[0] == c[0] {
      StrLeTransitive(a[1..], b[1..], c[1..]);
    }
  }

  // ----- Sorted sequences -----

  ghost predicate Ascending(xs: seq<string>) {
    forall i, j :: 0 <= i < j < |xs| ==> StrLt(xs[i], xs[j])
  }

  ghost predicate Distinct<T>(xs: seq<T>) {
    forall i, j :: 0 <= i < j < |xs| ==> xs[i] != xs[j]
  }

  function Elems<T>(xs: seq<T>): set<T> {
    set x | x in xs
  }

  lemma AscendingTail(xs: seq<string>)
    requires Ascending(xs) && xs != []
    ensures Ascending(xs[1..])
    ensures forall y :: y in xs[1..] ==> StrLt(xs[0], y)
    ensures Elems(xs[1..]) == Elems(xs) - {xs[0]}
  {
    assert xs == [xs[0]] + xs[1..];
    forall y | y in xs[1..] ensures StrLt(xs[0], y) {
      var i :| 0 <= i < |xs[1..]| && xs[1..][i] == y;
      assert xs[i + 1] == y;
    }
  }

  /** A strictly ascending sequence is determined by its elements. */
  lemma {:induction false} AscendingUnique(xs: seq<string>, ys: seq<string>)
    requires Ascending(xs) && Ascending(ys) && Elems(xs) == Elems(ys)
    ensures xs == ys
  {
    assert xs != [] ==> xs[0] in Elems(ys);
    assert ys != [] ==> ys[0] in Elems(xs);
    if xs == [] || ys == [] {
    } else {
      AscendingTail(xs);
      AscendingTail(ys);
      assert xs[0] in Elems(ys) && ys[0] in Elems(xs);
      if xs[0] != ys[0] {
        assert ys == [ys[0]] + ys[1..] && xs == [xs[0]] + xs[1..];
        StrLeAntisymmetric(xs[0], ys[0]);
      }
      AscendingUnique(xs[1..], ys[1..]);
      assert xs == [xs[0]] + xs[1..] && ys == [ys[0]] + ys[1..];
    }
  }

  predicate Lowest(m: string, s: set<string>) {
    m in s && forall x :: x in s ==> StrLe(m, x)
  }

  lemma LowestOfTwo(m: string, y: string, s: set<string>)
    requires Lowest(m, s) && y !in s
    ensures Lowest(m, s + {y}) || Lowest(y, s + {y})
  {
    StrLeTotal(m, y);
    StrLeTotal(y, y);
    forall x | x in s && StrLe(y, m) ensures StrLe(y, x) {
      StrLeTransitive(y, m, x);
    }
  }

  lemma {:induction false} HasLeast(s: set<string>)
    requires s != {}
    ensures exists m :: Lowest(m, s)
  {
    var y :| y in s;
    if s == {y} {
      StrLeTotal(y, y);
      assert Lowest(y, s);
    } else {
      HasLeast(s - {y});
      var m :| Lowest(m, s - {y});
      LowestOfTwo(m, y, s - {y});
      assert s - {y} + {y} == s;
    }
  }

  lemma LowestUnique(a: string, b: string, s: set<string>)
    requires Lowest(a, s) && Lowest(b, s)
    ensures a == b
  {
    StrLeAntisymmetric(a, b);
  }

  function Least(s: set<string>): (m: string)
    requires s != {}
    ensures Lowest(m, s)
  {
    HasLeast(s);
    assert forall a, b :: Lowest(a, s) && Lowest(b, s) ==> a == b by {
      forall a, b | Lowest(a, s) && Lowest(b, s) ensures a == b { LowestUnique(a, b, s); }
    }
    var m :| m in s && Lowest(m, s);
    m
  }

  /** A set listed in ascending order: what sorting its elements yields. */
  function SortedOf(s: set<string>): (xs: seq<string>)
    ensures Ascending(xs) && Elems(xs) == s
  {
    if s == {} then []
    else
      var m := Least(s);
      var rest := SortedOf(s - {m});
      AscendingCons(m, rest);
      [m] + rest
  }

  lemma AscendingCons(x: string, xs: seq<string>)
    requires Ascending(xs) && forall y :: y in Elems(xs) ==> StrLt(x, y)
    ensures Ascending([x] + xs) && Elems([x] + xs) == {x} + Elems(xs)
  {
    assert forall y :: y in [x] + xs <==> y == x || y in xs;
    assert forall i :: 0 <= i < |xs| ==> xs[i] in Elems(xs);
  }

  function Insert(x: string, xs: seq<string>): seq<string> {
    if xs == [] then [x]
    else if StrLe(x, xs[0]) then [x] + xs
    else [xs[0]] + Insert(x, xs[1..])
  }

  function Sort(xs: seq<string>): seq<string> {
    if xs == [] then [] else Insert(xs[0], Sort(xs[1..]))
  }

  ghost predicate NonDescending(xs: seq<string>) {
    forall i, j :: 0 <= i <= j < |xs| ==> StrLe(xs[i], xs[j])
  }

  lemma {:induction false} InsertElems(x: string, xs: seq<string>)
    ensures Elems(Insert(x, xs)) == Elems(xs) + {x}
  {
    if xs != [] && !StrLe(x, xs[0]) {
      InsertElems(x, xs[1..]);
      assert xs == [xs[0]] + xs[1..];
      forall y ensures y in Elems(Insert(x, xs)) <==> y in Elems(xs) + {x} {
        assert y in Insert(x, xs) <==> y == xs[0] || y in Elems(Insert(x, xs[1..]));
        assert y in xs <==> y == xs[0] || y in Elems(xs[1..]);
      }
    }
  }

  lemma {:induction false} InsertSorted(x: string, xs: seq<string>)
    requires NonDescending(xs)
    ensures NonDescending(Insert(x, xs))
    ensures Ascending(xs) && x !in xs ==> Ascending(Insert(x, xs))
  {
    StrLeTotal(x, x);
    if xs == [] {
    } else if StrLe(x, xs[0]) {
      forall i | 0 <= i < |xs| ensures StrLe(x, xs[i]) {
        StrLeTransitive(x, xs[0], xs[i]);
      }
    } else {
      StrLeTotal(x, xs[0]);
      InsertSorted(x, xs[1..]);
      InsertElems(x, xs[1..]);
      var rest := Insert(x, xs[1..]);
      forall i | 0 <= i < |rest| ensures StrLe(xs[0], rest[i]) && (Ascending(xs) && x !in xs ==> xs[0] != rest[i]) {
        assert rest[i] in Elems(xs[1..]) + {x};
        StrLeTotal(xs[0], xs[0]);
        if rest[i] != x {
          var k :| 0 <= k < |xs[1..]| && xs[1..][k] == rest[i];
          assert xs[k + 1] == rest[i];
        }
      }
      StrLeTotal(xs[0], xs[0]);
    }
  }

  lemma {:induction false} SortCorrect(xs: seq<string>)
    ensures NonDescending(Sort(xs)) && Elems(Sort(xs)) == Elems(xs)
    ensures Distinct(xs) ==> Ascending(Sort(xs))
  {
    if xs != [] {
      SortCorrect(xs[1..]);
      InsertSorted(xs[0], Sort(xs[1..]));
      InsertElems(xs[0], Sort(xs[1..]));
      assert xs == [xs[0]] + xs[1..];
      assert xs[0] in Sort(xs[1..]) <==> xs[0] in Elems(xs[1..]);
    }
  }

  // Removal of adjacent repeats, as `Vec::dedup` does it.
  function Dedup(xs: seq<string>): seq<string> {
    if |xs| < 2 then xs
    else if xs[0] == xs[1] then Dedup(xs[1..])
    else [xs[0]] + Dedup(xs[1..])
  }

  lemma {:induction false} DedupSorted(xs: seq<string>)
    requires NonDescending(xs)
    ensures Ascending(Dedup(xs)) && Elems(Dedup(xs)) == Elems(xs)
  {
    if |xs| >= 2 {
      DedupSorted(xs[1..]);
      assert xs == [xs[0]] + xs[1..];
      assert Elems(xs) == {xs[0]} + Elems(xs[1..]);
      assert xs[1..][0] in Elems(xs[1..]);
      if xs[0] != xs[1] {
        var rest := Dedup(xs[1..]);
        forall i | 0 <= i < |rest| ensures StrLt(xs[0], rest[i]) {
          assert rest[i] in Elems(xs[1..]);
          var k :| 0 <= k < |xs[1..]| && xs[1..][k] == rest[i];
          assert StrLe(xs[1], xs[k + 1]) && StrLe(xs[0], xs[1]);
          StrLeTransitive(xs[0], xs[1], rest[i]);
          if xs[0] == rest[i] { StrLeAntisymmetric(xs[0], xs[1]); }
        }
      }
    }
  }

  function SortedUnique(values: seq<string>): seq<string> {
    Dedup(Sort(values))
  }

  /** Sorting and removing repeats lists the set of the values. */
  lemma SortedUniqueIsSet(values: seq<string>)
    ensures SortedUnique(values) == SortedOf(Elems(values))
  {
    SortCorrect(values);
    DedupSorted(Sort(values));
    AscendingUnique(SortedUnique(values), SortedOf(Elems(values)));
  }

  // ----- Decimal suffixes -----

  function Decimal(n: nat): string {
    if n < 10 then [(48 + n) as char] else Decimal(n / 10) + [(48 + n % 10) as char]
  }

  lemma {:induction false} DecimalDigits(n: nat)
    ensures Decimal(n) != [] && forall i :: 0 <= i < |Decimal(n)| ==> '0' <= Decimal(n)[i] <= '9'
  {
    if n >= 10 { DecimalDigits(n / 10); }
  }

  // The number a numeral stands for.
  ghost function NumberOf(digits: string): int {
    if digits == [] then 0 else 10 * NumberOf(digits[..|digits| - 1]) + (digits[|digits| - 1] as int - '0' as int)
  }

  /** A decimal is the numeral of its number, without leading zeros. */
  lemma {:induction false} DecimalReads(n: nat)
    ensures NumberOf(Decimal(n)) == n
    ensures Decimal(n) != [] && (n > 0 ==> Decimal(n)[0] != '0')
  {
    if n < 10 {
      assert Decimal(n)[..0] == [];
    } else {
      DecimalReads(n / 10);
      assert Decimal(n)[..|Decimal(n)| - 1] == Decimal(n / 10);
    }
  }

  lemma DecimalInjective(m: nat, n: nat)
    requires Decimal(m) == Decimal(n)
    ensures m == n
  {
    DecimalReads(m);
    DecimalReads(n);
  }

  /** What follows the last separator is determined by the whole text, whatever
      separators the part before it contains. */
  lemma LastSegment(p: string, d: string, p': string, d': string, sep: char)
    requires p + [sep] + d == p' + [sep] + d'
    requires sep !in d && sep !in d'
    ensures p == p' && d == d'
  {
    var t, t' := p + [sep] + d, p' + [sep] + d';
    assert forall i :: |p| < i < |t| ==> t[i] == d[i - |p| - 1];
    assert forall i :: |p'| < i < |t'| ==> t'[i] == d'[i - |p'| - 1];
    assert t[|p|] == sep && t'[|p'|] == sep;
    assert p == t[..|p|] && p' == t'[..|p'|];
    assert d == t[|p| + 1..] && d' == t'[|p'| + 1..];
  }

  /** A text ending in a separator and a number determines both parts. */
  lemma NumberedSuffix(p: string, n: nat, p': string, n': nat, sep: char)
    requires !('0' <= sep <= '9')
    requires p + [sep] + Decimal(n) == p' + [sep] + Decimal(n')
    ensures p == p' && n == n'
  {
    DecimalDigits(n);
    DecimalDigits(n');
    LastSegment(p, Decimal(n), p', Decimal(n'), sep);
    DecimalInjective(n, n');
  }

  // ----- Blank text -----

  // The characters `str::trim` removes.
  predicate IsWhitespace(c: char) {
    '\t' <= c <= '\r' || c == ' ' || c == '\U{0085}' || c == '\U{00A0}' || c == '\U{1680}' ||
    '\U{2000}' <= c <= '\U{200A}' || c == '\U{2028}' || c == '\U{2029}' || c == '\U{202F}' ||
    c == '\U{205F}' || c == '\U{3000}'
  }

  function TrimStart(s: string): string {
    if s != [] && IsWhitespace(s[0]) then TrimStart(s[1..]) else s
  }

  function TrimEnd(s: string): string {
    if s != [] && IsWhitespace(s[|s| - 1]) then TrimEnd(s[..|s| - 1]) else s
  }

  function Trim(s: string): string {
    TrimEnd(TrimStart(s))
  }

  predicate Blank(s: string) {
    forall c :: c in s ==> IsWhitespace(c)
  }

  lemma {:induction false} TrimStartBlank(s: string)
    ensures Blank(TrimStart(s)) <==> Blank(s)
    ensures Blank(s) ==> TrimStart(s) == ""
  {
    if s != [] && IsWhitespace(s[0]) {
      TrimStartBlank(s[1..]);
      assert s == [s[0]] + s[1..];
    }
  }

  lemma {:induction false} TrimEndBlank(s: string)
    ensures Blank(s) <==> TrimEnd(s) == ""
  {
    if s != [] && IsWhitespace(s[|s| - 1]) {
      TrimEndBlank(s[..|s| - 1]);
      assert s == s[..|s| - 1] + [s[|s| - 1]];
    }
  }

  /** Text is blank exactly when nothing of it is left after trimming. */
  lemma BlankIsTrimmedAway(s: string)
    ensures Blank(s) <==> Trim(s) == ""
  {
    TrimStartBlank(s);
    TrimEndBlank(TrimStart(s));
  }

  // The test the program makes for missing text.
  predicate EmptyWhenTrimmed(s: string)
    ensures EmptyWhenTrimmed(s) <==> Blank(s)
  {
    BlankIsTrimmedAway(s);
    Trim(s) == ""
  }

  ghost predicate Strips(s: string, t: string) {
    && (t != "" ==> !IsWhitespace(t[0]) && !IsWhitespace(t[|t| - 1]))
    && exists i, j :: 0 <= i <= j <= |s| && s[i..j] == t && Blank(s[..i]) && Blank(s[j..])
  }

  /** Trimming takes white space off both ends, all of it and nothing else. */
  lemma TrimStrips(s: string)
    ensures Strips(s, Trim(s))
  {
    var i := TrimStartFrom(s);
    var j := TrimEndTo(s[i..]);
    assert s[i..][..j] == s[i..i + j] && s[i..][j..] == s[i + j..];
    if j > 0 { assert Trim(s)[0] == s[i]; }
  }

  lemma {:induction false} TrimStartFrom(s: string) returns (i: nat)
    ensures i <= |s| && TrimStart(s) == s[i..] && Blank(s[..i]) && (i < |s| ==> !IsWhitespace(s[i]))
  {
    if s != [] && IsWhitespace(s[0]) {
      var k := TrimStartFrom(s[1..]);
      i := k + 1;
      assert s[1..][k..] == s[i..] && s[..i] == [s[0]] + s[1..][..k];
    } else {
      i := 0;
    }
  }

  lemma {:induction false} TrimEndTo(s: string) returns (j: nat)
    ensures j <= |s| && TrimEnd(s) == s[..j] && Blank(s[j..]) && (j > 0 ==> !IsWhitespace(s[j - 1]))
  {
    if s != [] && IsWhitespace(s[|s| - 1]) {
      j := TrimEndTo(s[..|s| - 1]);
      assert s[..|s| - 1][..j] == s[..j] && s[j..] == s[..|s| - 1][j..] + [s[|s| - 1]];
    } else {
      j := |s|;
    }
  }
}
