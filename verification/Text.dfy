/** What every module shares: results, optional values and the outcomes of outside calls. */
module Wrappers {
  datatype Option<+T> = None | Some(value: T)

  datatype Result<+T, +E> = Ok(value: T) | Err(error: E)

  /** Whether the outside call of each number succeeds. */
  type Outcomes = nat -> bool

  ghost predicate AllSucceed(outcomes: Outcomes, from: nat, n: nat) {
    forall i :: from <= i < from + n ==> outcomes(i)
  }
}

/** The string operations of the service: trimming white space and lowering case. */
module Text {

  /** Unicode White_Space, the characters Go's strings.TrimSpace removes. */
  predicate IsSpace(c: char) {
    || '\t' <= c <= '\r' || c == ' ' || c == '\U{0085}' || c == '\U{00A0}' || c == '\U{1680}'
    || '\U{2000}' <= c <= '\U{200A}' || c == '\U{2028}' || c == '\U{2029}' || c == '\U{202F}'
    || c == '\U{205F}' || c == '\U{3000}'
  }

  /** Blanks, tabs and line ends are white space; no printable ASCII character is. */
  lemma SpacesAre(c: char)
    ensures c in " \t\n\r" ==> IsSpace(c)
    ensures '!' <= c <= '~' ==> !IsSpace(c)
  {
  }

  /** The first position from i on that is not white space. */
  function Start(s: string, i: nat): (r: nat)
    requires i <= |s|
    ensures i <= r <= |s|
    ensures r < |s| ==> !IsSpace(s[r])
    decreases |s| - i
  {
    if i < |s| && IsSpace(s[i]) then Start(s, i + 1) else i
  }

  /** The position after the last character of s[i..j] that is not white space. */
  function End(s: string, i: nat, j: nat): (r: nat)
    requires i <= j <= |s|
    ensures i <= r <= j
    ensures i < r ==> !IsSpace(s[r - 1])
  {
    if i < j && IsSpace(s[j - 1]) then End(s, i, j - 1) else j
  }

  function Trim(s: string): string {
    var i := Start(s, 0);
    s[i..End(s, i, |s|)]
  }

  predicate Trimmed(s: string) {
    s == "" || (!IsSpace(s[0]) && !IsSpace(s[|s| - 1]))
  }

  /** Trimming lands on a trimmed string, and leaves exactly the trimmed strings alone. */
  lemma TrimIsIdempotent(s: string)
    ensures Trimmed(Trim(s))
    ensures Trim(Trim(s)) == Trim(s)
    ensures Trimmed(s) <==> Trim(s) == s
  {
    var i := Start(s, 0);
    var j := End(s, i, |s|);
    if i < j {
      assert Trim(s)[0] == s[i] && Trim(s)[|Trim(s)| - 1] == s[j - 1];
    }
    TrimmedStays(Trim(s));
    if Trimmed(s) {
      TrimmedStays(s);
    }
  }

  lemma TrimmedStays(s: string)
    requires Trimmed(s)
    ensures Trim(s) == s
  {
    assert s[0..|s|] == s;
  }

  ghost predicate Blank(s: string) {
    forall i :: 0 <= i < |s| ==> IsSpace(s[i])
  }

  lemma {:induction false} StartSkipsSpace(s: string, i: nat)
    requires i <= |s|
    ensures forall k :: i <= k < Start(s, i) ==> IsSpace(s[k])
    decreases |s| - i
  {
    if i < |s| && IsSpace(s[i]) {
      StartSkipsSpace(s, i + 1);
    }
  }

  lemma {:induction false} EndSkipsSpace(s: string, i: nat, j: nat)
    requires i <= j <= |s|
    ensures forall k :: End(s, i, j) <= k < j ==> IsSpace(s[k])
  {
    if i < j && IsSpace(s[j - 1]) {
      EndSkipsSpace(s, i, j - 1);
    }
  }

  /** Trimming cuts white space at both ends and nothing else. */
  lemma TrimCutsSpace(s: string) returns (before: string, after: string)
    ensures s == before + Trim(s) + after && Blank(before) && Blank(after) && Trimmed(Trim(s))
  {
    var i := Start(s, 0);
    var j := End(s, i, |s|);
    StartSkipsSpace(s, 0);
    EndSkipsSpace(s, i, |s|);
    before, after := s[..i], s[j..];
    TrimIsIdempotent(s);
  }

  /** Where the parts of a text between white space lie. */
  lemma Positions(s: string, before: string, middle: string, after: string)
    requires s == before + middle + after && Blank(before) && Blank(after)
    ensures |before| + |middle| <= |s| && middle == s[|before|..|before| + |middle|]
    ensures forall n :: 0 <= n < |before| ==> IsSpace(s[n])
    ensures forall n :: |before| + |middle| <= n < |s| ==> IsSpace(s[n])
  {
    assert forall n :: 0 <= n < |before| ==> s[n] == before[n];
    assert forall n :: |before| + |middle| <= n < |s| ==> s[n] == after[n - |before| - |middle|];
  }

  /** And there is one way to do so: a trimmed text between white space is what trimming leaves. */
  lemma TrimIs(before: string, middle: string, after: string)
    requires Blank(before) && Trimmed(middle) && Blank(after)
    ensures Trim(before + middle + after) == middle
  {
    var s := before + middle + after;
    var b, a := TrimCutsSpace(s);
    Positions(s, before, middle, after);
    Positions(s, b, Trim(s), a);
    SameStretch(s, |before|, |before| + |middle|, |b|, |b| + |Trim(s)|);
  }

  lemma SameStretch(s: string, i: nat, j: nat, k: nat, l: nat)
    requires i <= j <= |s| && k <= l <= |s| && Trimmed(s[i..j]) && Trimmed(s[k..l])
    requires (forall n :: 0 <= n < i ==> IsSpace(s[n])) && (forall n :: j <= n < |s| ==> IsSpace(s[n]))
    requires (forall n :: 0 <= n < k ==> IsSpace(s[n])) && (forall n :: l <= n < |s| ==> IsSpace(s[n]))
    ensures s[i..j] == s[k..l]
  {
    if i < j {
      assert s[i..j][0] == s[i] && s[i..j][j - i - 1] == s[j - 1];
      SameEnds(s, i, j, k, l);
    }
    if k < l {
      assert s[k..l][0] == s[k] && s[k..l][l - k - 1] == s[l - 1];
      SameEnds(s, k, l, i, j);
    }
  }

  /** A stretch that begins and ends with text lies inside any stretch that leaves only white space out. */
  lemma SameEnds(s: string, i: nat, j: nat, k: nat, l: nat)
    requires i < j <= |s| && k <= l <= |s|
    requires !IsSpace(s[i]) && !IsSpace(s[j - 1])
    requires (forall n :: 0 <= n < k ==> IsSpace(s[n])) && (forall n :: l <= n < |s| ==> IsSpace(s[n]))
    ensures k <= i && j <= l
  {
  }

  function LowerChar(c: char): char {
    if 'A' <= c <= 'Z' then ((c as int) + 32) as char else c
  }

  /** Lower case over ASCII; every other character is kept. */
  function Lower(s: string): (r: string)
    ensures |r| == |s|
    ensures forall i :: 0 <= i < |s| ==> r[i] == LowerChar(s[i])
  {
    seq(|s|, i requires 0 <= i < |s| => LowerChar(s[i]))
  }

  lemma LowerIsIdempotent(s: string)
    ensures Lower(Lower(s)) == Lower(s)
  {
    assert forall i :: 0 <= i < |s| ==> Lower(Lower(s))[i] == Lower(s)[i];
  }

  /** The texts differ at most in the case of ASCII letters. */
  ghost predicate SameLetters(s: string, t: string) {
    |s| == |t| && forall i :: 0 <= i < |s| ==> SameLetter(s[i], t[i])
  }

  predicate SameLetter(c: char, d: char) {
    c == d || ('A' <= c <= 'Z' && d as int == c as int + 32) || ('A' <= d <= 'Z' && c as int == d as int + 32)
  }

  /** Lowering makes texts equal exactly when they differ at most in case. */
  lemma LowerFoldsCase(s: string, t: string)
    ensures Lower(s) == Lower(t) <==> SameLetters(s, t)
    ensures LowerCase(Lower(s)) && SameLetters(s, Lower(s))
  {
    if Lower(s) == Lower(t) {
      forall i | 0 <= i < |s|
        ensures SameLetter(s[i], t[i])
      {
        assert Lower(s)[i] == Lower(t)[i];
      }
    }
    if SameLetters(s, t) {
      assert forall i :: 0 <= i < |s| ==> Lower(s)[i] == Lower(t)[i];
    }
  }

  lemma LowerKeepsTrimmed(s: string)
    requires Trimmed(s)
    ensures Trimmed(Lower(s))
  {
  }

  predicate LowerCase(s: string) {
    forall i :: 0 <= i < |s| ==> !('A' <= s[i] <= 'Z')
  }

  /** The trimmed and lowered form of a selector part. */
  function Canonical(s: string): string {
    Lower(Trim(s))
  }

  lemma CanonicalIsIdempotent(s: string)
    ensures Trim(Canonical(s)) == Canonical(s)
    ensures Canonical(Canonical(s)) == Canonical(s)
  {
    TrimIsIdempotent(s);
    LowerKeepsTrimmed(Trim(s));
    TrimIsIdempotent(Canonical(s));
    LowerIsIdempotent(Trim(s));
  }

  lemma CleanTextStays(s: string)
    requires Trimmed(s) && LowerCase(s)
    ensures Trim(s) == s && Canonical(s) == s
  {
    TrimIsIdempotent(s);
    assert forall i :: 0 <= i < |s| ==> Lower(s)[i] == s[i];
  }

  // ---- Decimal numbers ----

  function Digit(d: nat): char
    requires d < 10
  {
    ('0' as int + d) as char
  }

  /** Decimal digits without leading zeros, as strconv.Itoa writes them. */
  function Decimal(n: int): (s: string)
    ensures s != ""
    decreases n < 0, if n < 0 then -n else n
  {
    if n < 0 then "-" + Decimal(-n)
    else if n < 10 then [Digit(n)]
    else Decimal(n / 10) + [Digit(n % 10)]
  }

  lemma {:induction false} DecimalIsClean(n: nat)
    ensures forall c <- Decimal(n) :: '0' <= c <= '9'
    ensures !IsSpace(Decimal(n)[|Decimal(n)| - 1])
  {
    if n >= 10 {
      DecimalIsClean(n / 10);
    }
  }

  function Number(s: string): int
    requires s != ""
  {
    if |s| > 1 && s[0] == '-' then -Digits(s[1..]) else Digits(s)
  }

  function Digits(s: string): int {
    if s == "" then 0 else 10 * Digits(s[..|s| - 1]) + (s[|s| - 1] as int - '0' as int)
  }

  lemma {:induction false} DigitsOfDecimal(n: nat)
    ensures Digits(Decimal(n)) == n
  {
    var s := Decimal(n);
    if n >= 10 {
      DigitsOfDecimal(n / 10);
      assert s[..|s| - 1] == Decimal(n / 10);
    } else {
      assert s[..|s| - 1] == "";
    }
  }

  /** Reading a number back gives the number. */
  lemma DecimalRoundTrip(n: int)
    ensures Number(Decimal(n)) == n
  {
    if n < 0 {
      DigitsOfDecimal(-n);
      assert Decimal(n)[1..] == Decimal(-n);
    } else {
      DigitsOfDecimal(n);
      DecimalIsClean(n);
      assert Decimal(n)[0] in Decimal(n);
    }
  }
}

/** The list passes used all over the service: clean every item, then keep the first of each key. */
module Lists {

  /** The cleaned items worth keeping, in order. */
  function Collect<T>(s: seq<T>, clean: T -> T, keep: T -> bool): seq<T> {
    if s == [] then []
    else
      var prefix := Collect(s[..|s| - 1], clean, keep);
      var x := clean(s[|s| - 1]);
      if keep(x) then prefix + [x] else prefix
  }

  lemma {:induction false} CollectElements<T>(s: seq<T>, clean: T -> T, keep: T -> bool, x: T)
    ensures x in Collect(s, clean, keep) <==> exists i :: 0 <= i < |s| && x == clean(s[i]) && keep(x)
  {
    if s != [] {
      var n := |s| - 1;
      CollectElements(s[..n], clean, keep, x);
      if exists i :: 0 <= i < |s| && x == clean(s[i]) && keep(x) {
        var i :| 0 <= i < |s| && x == clean(s[i]) && keep(x);
        if i < n {
          assert s[..n][i] == s[i];
        }
      }
    }
  }

  /** A list of clean items is left alone. */
  lemma {:induction false} CollectFixed<T>(s: seq<T>, clean: T -> T, keep: T -> bool)
    requires forall x <- s :: clean(x) == x && keep(x)
    ensures Collect(s, clean, keep) == s
  {
    if s != [] {
      CollectFixed(s[..|s| - 1], clean, keep);
      assert s == s[..|s| - 1] + [s[|s| - 1]];
    }
  }

  ghost predicate HasKey<T, K>(s: seq<T>, key: T -> K, k: K) {
    exists i :: 0 <= i < |s| && key(s[i]) == k
  }

  ghost predicate DistinctBy<T, K>(s: seq<T>, key: T -> K) {
    forall i, j :: 0 <= i < j < |s| ==> key(s[i]) != key(s[j])
  }

  /** The items whose key no earlier item has, in order. */
  ghost function FirstBy<T, K>(s: seq<T>, key: T -> K): seq<T> {
    if s == [] then []
    else
      var n := |s| - 1;
      if HasKey(s[..n], key, key(s[n])) then FirstBy(s[..n], key)
      else FirstBy(s[..n], key) + [s[n]]
  }

  /** Offering one more item. */
  lemma PushedKey<T, K>(s: seq<T>, x: T, key: T -> K)
    ensures forall k :: HasKey(s + [x], key, k) <==> HasKey(s, key, k) || key(x) == k
    ensures FirstBy(s + [x], key) == if HasKey(s, key, key(x)) then FirstBy(s, key) else FirstBy(s, key) + [x]
  {
    var t := s + [x];
    assert t[..|s|] == s && t[|s|] == x;
    forall k | HasKey(s, key, k)
      ensures HasKey(t, key, k)
    {
      var i :| 0 <= i < |s| && key(s[i]) == k;
      assert t[i] == s[i];
    }
    forall k | HasKey(t, key, k)
      ensures HasKey(s, key, k) || key(x) == k
    {
      var i :| 0 <= i < |t| && key(t[i]) == k;
      if i < |s| {
        assert s[i] == t[i];
      }
    }
  }

  lemma HasKeyConcat<T, K>(a: seq<T>, b: seq<T>, key: T -> K, k: K)
    ensures HasKey(a + b, key, k) <==> HasKey(a, key, k) || HasKey(b, key, k)
  {
    var t := a + b;
    if HasKey(a, key, k) {
      var i :| 0 <= i < |a| && key(a[i]) == k;
      assert t[i] == a[i];
    }
    if HasKey(b, key, k) {
      var i :| 0 <= i < |b| && key(b[i]) == k;
      assert t[|a| + i] == b[i];
    }
    if HasKey(t, key, k) {
      var i :| 0 <= i < |t| && key(t[i]) == k;
      if i < |a| {
        assert a[i] == t[i];
      } else {
        assert b[i - |a|] == t[i];
      }
    }
  }

  lemma {:induction false} FirstByKeys<T, K>(s: seq<T>, key: T -> K, k: K)
    ensures HasKey(FirstBy(s, key), key, k) <==> HasKey(s, key, k)
  {
    if s != [] {
      var n := |s| - 1;
      FirstByKeys(s[..n], key, k);
      var p := FirstBy(s[..n], key);
      if HasKey(s, key, k) {
        var i :| 0 <= i < |s| && key(s[i]) == k;
        if i < n {
          assert s[..n][i] == s[i];
          assert HasKey(s[..n], key, k);
          var j :| 0 <= j < |p| && key(p[j]) == k;
          assert FirstBy(s, key)[j] == p[j];
        } else if !HasKey(s[..n], key, k) {
          assert FirstBy(s, key)[|p|] == s[n];
        }
      }
      if HasKey(FirstBy(s, key), key, k) {
        var j :| 0 <= j < |FirstBy(s, key)| && key(FirstBy(s, key)[j]) == k;
        if j < |p| {
          assert p[j] == FirstBy(s, key)[j];
          assert HasKey(p, key, k);
          var i :| 0 <= i < n && key(s[..n][i]) == k;
          assert s[i] == s[..n][i];
        } else {
          assert key(s[n]) == k;
        }
      }
    }
  }

  lemma {:induction false} FirstByDistinct<T, K>(s: seq<T>, key: T -> K)
    ensures DistinctBy(FirstBy(s, key), key)
    ensures forall x <- FirstBy(s, key) :: x in s
  {
    if s != [] {
      var n := |s| - 1;
      FirstByDistinct(s[..n], key);
      FirstByKeys(s[..n], key, key(s[n]));
    }
  }

  /** Of two items with one key the first stays. */
  lemma SecondIsDropped<T, K>(x: T, y: T, key: T -> K)
    requires key(x) == key(y)
    ensures FirstBy([x, y], key) == [x]
  {
    assert [x, y] == [x] + [y];
    assert [x] == [] + [x];
    PushedKey([x], y, key);
    PushedKey([], x, key);
  }

  /** A list whose keys are distinct is left alone. */
  lemma {:induction false} FirstByFixed<T, K>(s: seq<T>, key: T -> K)
    requires DistinctBy(s, key)
    ensures FirstBy(s, key) == s
  {
    if s != [] {
      var n := |s| - 1;
      FirstByFixed(s[..n], key);
      assert s == s[..n] + [s[n]];
    }
  }

  /** Where the key tells items apart, keeping first occurrences loses no item. */
  lemma {:induction false} FirstByLosesNothing<T, K>(s: seq<T>, key: T -> K)
    requires forall x, y :: x in s && y in s && key(x) == key(y) ==> x == y
    ensures forall x :: x in FirstBy(s, key) <==> x in s
  {
    FirstByDistinct(s, key);
    forall x | x in s
      ensures x in FirstBy(s, key)
    {
      var i :| 0 <= i < |s| && s[i] == x;
      assert HasKey(s, key, key(x));
      FirstByKeys(s, key, key(x));
      var j :| 0 <= j < |FirstBy(s, key)| && key(FirstBy(s, key)[j]) == key(x);
      assert FirstBy(s, key)[j] == x;
    }
  }
}
