/**
 * The string operations the skill relies on: `toLowerCase` (restricted to
 * ASCII), `toUpperCase` for stating case-insensitivity, `includes` and
 * `replace` with a string pattern (first occurrence only), and the
 * conversion of a non-negative integer to its decimal text that happens
 * when a number is concatenated to a string.
 */
module Text {

  predicate IsUpper(c: char) {
    'A' <= c <= 'Z'
  }

  predicate IsLower(c: char) {
    'a' <= c <= 'z'
  }

  function LowerChar(c: char): (d: char)
    ensures !IsUpper(d)
    ensures IsUpper(c) ==> IsLower(d) && d as int == c as int + 32
    ensures !IsUpper(c) ==> d == c
  {
    if IsUpper(c) then (c as int + 32) as char else c
  }

  function UpperChar(c: char): (d: char)
    ensures !IsLower(d)
    ensures IsLower(c) ==> IsUpper(d) && d as int == c as int - 32
    ensures !IsLower(c) ==> d == c
  {
    if IsLower(c) then (c as int - 32) as char else c
  }

  /** No character of `s` is an upper-case ASCII letter. */
  predicate AllLower(s: string) {
    forall i :: 0 <= i < |s| ==> !IsUpper(s[i])
  }

  /** ASCII `toLowerCase`: every upper-case letter is mapped, everything else kept. */
  function ToLower(s: string): (r: string)
    ensures |r| == |s|
    ensures forall i :: 0 <= i < |s| ==> r[i] == LowerChar(s[i])
    ensures AllLower(r)
  {
    if s == [] then [] else [LowerChar(s[0])] + ToLower(s[1..])
  }

  /** ASCII `toUpperCase`. */
  function ToUpper(s: string): (r: string)
    ensures |r| == |s|
    ensures forall i :: 0 <= i < |s| ==> r[i] == UpperChar(s[i])
  {
    if s == [] then [] else [UpperChar(s[0])] + ToUpper(s[1..])
  }

  /** Lower-casing distributes over concatenation. */
  lemma ToLowerAppend(a: string, b: string)
    ensures ToLower(a + b) == ToLower(a) + ToLower(b)
  {
    var l, r := ToLower(a + b), ToLower(a) + ToLower(b);
    assert |l| == |r|;
    forall i | 0 <= i < |l| ensures l[i] == r[i] {
      if i < |a| {
        assert (a + b)[i] == a[i];
      } else {
        assert (a + b)[i] == b[i - |a|];
      }
    }
  }

  /** A string that is already lower case is left alone. */
  lemma ToLowerOfLower(s: string)
    requires AllLower(s)
    ensures ToLower(s) == s
  {
    var r := ToLower(s);
    forall i | 0 <= i < |s| ensures r[i] == s[i] {
      assert !IsUpper(s[i]);
    }
  }

  /** Lower-casing agrees with a character-by-character mapping. */
  lemma ToLowerPointwise(s: string, t: string)
    requires |s| == |t|
    requires forall i :: 0 <= i < |s| ==> LowerChar(s[i]) == t[i]
    ensures ToLower(s) == t
  {
  }

  lemma ToLowerIdempotent(s: string)
    ensures ToLower(ToLower(s)) == ToLower(s)
  {
    ToLowerOfLower(ToLower(s));
  }

  /** Upper-casing first loses nothing that lower-casing keeps. */
  lemma ToLowerOfUpper(s: string)
    ensures ToLower(ToUpper(s)) == ToLower(s)
  {
    var l, r := ToLower(ToUpper(s)), ToLower(s);
    forall i | 0 <= i < |s| ensures l[i] == r[i] {
      var c := s[i];
      assert ToUpper(s)[i] == UpperChar(c);
      if IsLower(c) {
        assert LowerChar(UpperChar(c)) as int == c as int;
      } else if IsUpper(c) {
        assert UpperChar(c) == c;
      }
    }
  }

  lemma Assoc(a: string, b: string, c: string)
    ensures (a + b) + c == a + (b + c)
  {
  }

  /** A prefix of `x` stays a prefix when something is appended to `x`. */
  lemma PrefixExtends(h: string, x: string, y: string)
    requires |h| <= |x| && x[..|h|] == h
    ensures |h| <= |x + y| && (x + y)[..|h|] == h
  {
    assert (x + y)[..|h|] == x[..|h|];
  }

  /** A suffix of `y` stays a suffix when something is put in front of `y`. */
  lemma SuffixExtends(t: string, x: string, y: string)
    requires |t| <= |y| && y[|y| - |t|..] == t
    ensures |t| <= |x + y| && (x + y)[|x + y| - |t|..] == t
  {
    assert (x + y)[|x + y| - |t|..] == y[|y| - |t|..];
  }

  /** `p` occurs in `s` starting at index `j`. */
  predicate OccursAt(s: string, p: string, j: int) {
    0 <= j && j + |p| <= |s| && s[j..j + |p|] == p
  }

  lemma OccursAtTail(s: string, p: string, j: int)
    requires |s| > 0 && 0 <= j
    ensures OccursAt(s[1..], p, j) <==> OccursAt(s, p, j + 1)
  {
    if j + |p| <= |s| - 1 {
      assert s[1..][j..j + |p|] == s[j + 1..j + 1 + |p|];
    }
  }

  /**
   * `indexOf`: the first index at which `p` occurs in `s`, or -1 when it
   * occurs nowhere.
   */
  function IndexOf(s: string, p: string): (i: int)
    ensures -1 <= i
    ensures i >= 0 ==> OccursAt(s, p, i)
    ensures forall j :: 0 <= j && (i < 0 || j < i) ==> !OccursAt(s, p, j)
    decreases |s|
  {
    if |p| > |s| then -1
    else if s[..|p|] == p then 0
    else
      var k := IndexOf(s[1..], p);
      assert forall j :: 1 <= j && (k < 0 || j < k + 1) ==> !OccursAt(s, p, j) by {
        forall j | 1 <= j && (k < 0 || j < k + 1) ensures !OccursAt(s, p, j) {
          OccursAtTail(s, p, j - 1);
        }
      }
      if k < 0 then -1
      else
        OccursAtTail(s, p, k);
        k + 1
  }

  /** `includes`. */
  predicate Contains(s: string, p: string) {
    IndexOf(s, p) >= 0
  }

  lemma ContainsWitness(s: string, p: string, j: int)
    requires OccursAt(s, p, j)
    ensures Contains(s, p)
  {
  }

  /**
   * `replace` with a string pattern: the first occurrence of `p` is replaced
   * by `q`; a string without `p` is returned unchanged.
   */
  function ReplaceFirst(s: string, p: string, q: string): (r: string)
    ensures !Contains(s, p) ==> r == s
    ensures Contains(s, p) ==> |r| == |s| - |p| + |q|
  {
    var i := IndexOf(s, p);
    if i < 0 then s else s[..i] + q + s[i + |p|..]
  }

  /**
   * What `ReplaceFirst` produces, stated without `IndexOf`: the text before
   * the first occurrence, the replacement, and the rest after the occurrence.
   */
  lemma ReplaceFirstSplit(s: string, p: string, q: string, i: int)
    requires OccursAt(s, p, i)
    requires forall j :: 0 <= j < i ==> !OccursAt(s, p, j)
    ensures ReplaceFirst(s, p, q) == s[..i] + q + s[i + |p|..]
  {
    assert IndexOf(s, p) == i;
  }

  lemma ReplaceFirstAbsent(s: string, p: string, q: string)
    requires !Contains(s, p)
    ensures ReplaceFirst(s, p, q) == s
  {
  }

  /** Replacing inside a lower-case string with a lower-case text keeps it lower case. */
  lemma ReplaceFirstKeepsLower(s: string, p: string, q: string)
    requires AllLower(s) && AllLower(q)
    ensures AllLower(ReplaceFirst(s, p, q))
  {
    var i := IndexOf(s, p);
    if i >= 0 {
      var r := ReplaceFirst(s, p, q);
      var a, b := s[..i], s[i + |p|..];
      assert r == a + q + b;
      forall k | 0 <= k < |r| ensures !IsUpper(r[k]) {
        if k < |a| {
          assert r[k] == s[k];
        } else if k < |a| + |q| {
          assert r[k] == q[k - |a|];
        } else {
          assert r[k] == s[k - |a| - |q| + i + |p|];
        }
      }
    }
  }

  predicate IsDigit(c: char) {
    '0' <= c <= '9'
  }

  /** The decimal text of a non-negative integer, as `"" + n` gives it. */
  function Decimal(n: nat): (s: string)
    ensures |s| >= 1
    ensures forall i :: 0 <= i < |s| ==> IsDigit(s[i])
    ensures n >= 10 ==> s[0] != '0'
  {
    if n < 10 then [('0' as int + n) as char]
    else Decimal(n / 10) + [('0' as int + n % 10) as char]
  }

  /** The value of a string of decimal digits. */
  function DecimalValue(s: string): nat
    requires forall i :: 0 <= i < |s| ==> IsDigit(s[i])
  {
    if s == [] then 0
    else
      assert IsDigit(s[|s| - 1]);
      10 * DecimalValue(s[..|s| - 1]) + (s[|s| - 1] as int - '0' as int)
  }

  lemma {:induction false} DecimalRoundTrip(n: nat)
    ensures DecimalValue(Decimal(n)) == n
  {
    if n >= 10 {
      var s := Decimal(n);
      assert s[..|s| - 1] == Decimal(n / 10);
      DecimalRoundTrip(n / 10);
    }
  }

  /** Distinct numbers print as distinct texts. */
  lemma DecimalInjective(m: nat, n: nat)
    requires Decimal(m) == Decimal(n)
    ensures m == n
  {
    DecimalRoundTrip(m);
    DecimalRoundTrip(n);
  }

  /** In a count followed by " min" the first "min" is the one after the count. */
  lemma MinutesReplaced(count: string)
    requires forall k :: 0 <= k < |count| ==> count[k] != 'm'
    ensures Contains(count + " min", "min")
    ensures ReplaceFirst(count + " min", "min", "minutes") == count + " minutes"
  {
    var t := count + " min";
    var i := |count| + 1;
    assert t[i..i + 3] == "min";
    forall j | 0 <= j < i ensures !OccursAt(t, "min", j) {
      assert t[j] == if j < |count| then count[j] else ' ';
    }
    ContainsWitness(t, "min", i);
    ReplaceFirstSplit(t, "min", "minutes", i);
    assert t[..i] == count + " " && t[i + 3..] == "";
    Assoc(count, " ", "minutes");
  }
}
