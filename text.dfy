/**
 * The parts of Go's `strings` and `strconv` packages, and of RE2's character
 * classes, that the bot's decision layer relies on, written over `seq<char>`
 * for ASCII text.
 */
module Text {

  datatype Option<+T> = None | Some(value: T)

  datatype Result<+T> = Ok(value: T) | Err(error: string)

  /** Largest value of Go's `int` on a 64-bit platform: the range `strconv.Atoi` accepts. */
  const MaxInt: int := 0x7FFF_FFFF_FFFF_FFFF

  // ---------------------------------------------------------------------------
  // Character classes

  /** RE2's `\d`. */
  predicate IsDigit(c: char) { '0' <= c <= '9' }

  /** RE2's `\s`, which is `[\t\n\f\r ]` (no vertical tab). */
  predicate IsRegexSpace(c: char)
  {
    c == '\t' || c == '\n' || c == '\U{000C}' || c == '\r' || c == ' '
  }

  /** The ASCII characters `strings.TrimSpace` removes: RE2's `\s` plus vertical tab. */
  const TrimSpaceSet: set<char> := {'\t', '\n', '\U{000B}', '\U{000C}', '\r', ' '}

  predicate AllIn(s: string, cls: char -> bool)
  {
    forall i :: 0 <= i < |s| ==> cls(s[i])
  }

  predicate AllDigits(s: string)
  {
    forall i :: 0 <= i < |s| ==> IsDigit(s[i])
  }

  /** The end of the run of characters of class `cls` that starts at index `i`. */
  function RunEnd(s: string, i: nat, cls: char -> bool): (j: nat)
    requires i <= |s|
    ensures i <= j <= |s|
    ensures forall k :: i <= k < j ==> cls(s[k])
    ensures j < |s| ==> !cls(s[j])
    decreases |s| - i
  {
    if i == |s| || !cls(s[i]) then i else RunEnd(s, i + 1, cls)
  }

  /** The start of the run of characters of class `cls` that ends just before index `j`. */
  function RunStart(s: string, j: nat, cls: char -> bool): (i: nat)
    requires j <= |s|
    ensures i <= j
    ensures forall k :: i <= k < j ==> cls(s[k])
    ensures 0 < i ==> !cls(s[i - 1])
  {
    if j == 0 || !cls(s[j - 1]) then j else RunStart(s, j - 1, cls)
  }

  /** A stretch of the class that is followed by a character outside it is exactly the run. */
  lemma RunEndIsUnique(s: string, i: nat, cls: char -> bool, j: nat)
    requires i <= j <= |s|
    requires forall k :: i <= k < j ==> cls(s[k])
    requires j == |s| || !cls(s[j])
    ensures RunEnd(s, i, cls) == j
  {
  }

  /** The run itself is a string of the class. */
  lemma RunInClass(s: string, i: nat, cls: char -> bool)
    requires i <= |s|
    ensures AllIn(s[i..RunEnd(s, i, cls)], cls)
  {
    var j := RunEnd(s, i, cls);
    forall k | 0 <= k < j - i ensures cls(s[i..j][k]) {
      assert s[i..j][k] == s[i + k];
    }
  }

  /** A digit run is a digit string. */
  lemma DigitRunIsDigits(s: string, i: nat)
    requires i <= |s|
    ensures AllDigits(s[i..RunEnd(s, i, IsDigit)])
  {
    RunInClass(s, i, IsDigit);
  }

  // ---------------------------------------------------------------------------
  // strings.ToLower, strings.Contains, strings.HasPrefix

  function LowerChar(c: char): char
  {
    if 'A' <= c <= 'Z' then (c as int + 32) as char else c
  }

  /** `strings.ToLower` restricted to ASCII letters. */
  function ToLower(s: string): (r: string)
    ensures |r| == |s|
    ensures forall i :: 0 <= i < |r| ==> !('A' <= r[i] <= 'Z')
    ensures forall i :: 0 <= i < |s| && !('A' <= s[i] <= 'Z') ==> r[i] == s[i]
    ensures forall i :: 0 <= i < |s| && 'A' <= s[i] <= 'Z' ==> r[i] as int - 'a' as int == s[i] as int - 'A' as int
  {
    seq(|s|, i requires 0 <= i < |s| => LowerChar(s[i]))
  }

  lemma ToLowerConcat(a: string, b: string)
    ensures ToLower(a + b) == ToLower(a) + ToLower(b)
  {
  }

  predicate OccursAt(s: string, sub: string, i: int)
  {
    0 <= i && i + |sub| <= |s| && s[i..i + |sub|] == sub
  }

  /** `strings.Contains`: `sub` occurs somewhere in `s`. */
  predicate Contains(s: string, sub: string)
  {
    exists i | 0 <= i <= |s| - |sub| :: OccursAt(s, sub, i)
  }

  /** Whatever is put between two strings occurs in the result. */
  lemma ContainsMiddle(a: string, w: string, b: string)
    ensures Contains(a + w + b, w)
  {
    assert (a + w + b)[|a|..|a| + |w|] == w;
    assert OccursAt(a + w + b, w, |a|);
  }

  lemma LowerTwice(s: string)
    ensures ToLower(ToLower(s)) == ToLower(s)
  {
  }

  predicate HasPrefix(s: string, prefix: string)
  {
    |prefix| <= |s| && s[..|prefix|] == prefix
  }

  // ---------------------------------------------------------------------------
  // strings.TrimLeft, strings.TrimRight, strings.TrimSpace

  /** `strings.TrimLeft(s, cutset)`: drops the leading characters of the cut set. */
  function TrimLeft(s: string, cut: char -> bool): (r: string)
    ensures |r| <= |s| && r == s[|s| - |r|..]
    ensures forall i :: 0 <= i < |s| - |r| ==> cut(s[i])
    ensures r != [] ==> !cut(r[0])
  {
    var j := RunEnd(s, 0, cut);
    assert j < |s| ==> s[j..][0] == s[j];
    s[j..]
  }

  /** `strings.TrimRight(s, cutset)`: drops the trailing characters of the cut set. */
  function TrimRight(s: string, cut: char -> bool): (r: string)
    ensures |r| <= |s| && r == s[..|r|]
    ensures forall i :: |r| <= i < |s| ==> cut(s[i])
    ensures r != [] ==> !cut(r[|r| - 1])
  {
    var i := RunStart(s, |s|, cut);
    assert 0 < i ==> s[..i][i - 1] == s[i - 1];
    s[..i]
  }

  predicate IsTrimSpace(c: char) { c in TrimSpaceSet }

  /**
   * `TrimSpace(s)` is `s` with its leading and trailing white space removed:
   * a stretch `s[i..j]` with only white space around it that neither starts
   * nor ends with white space.
   */
  lemma TrimSpaceIsInfix(s: string)
    ensures exists i, j ::
              && 0 <= i <= j <= |s| && TrimSpace(s) == s[i..j]
              && (forall k :: 0 <= k < i ==> s[k] in TrimSpaceSet)
              && (forall k :: j <= k < |s| ==> s[k] in TrimSpaceSet)
    ensures TrimSpace(s) == [] || (TrimSpace(s)[0] !in TrimSpaceSet && TrimSpace(s)[|TrimSpace(s)| - 1] !in TrimSpaceSet)
  {
    var l := TrimLeft(s, IsTrimSpace);
    var i := |s| - |l|;
    var r := TrimRight(l, IsTrimSpace);
    var j := i + |r|;
    assert r == s[i..j];
    forall k | j <= k < |s| ensures s[k] in TrimSpaceSet {
      assert s[k] == l[k - i];
    }
  }

  /** `strings.TrimSpace` restricted to ASCII white space. */
  function TrimSpace(s: string): (r: string)
    ensures r == [] || (r[0] !in TrimSpaceSet && r[|r| - 1] !in TrimSpaceSet)
  {
    TrimRight(TrimLeft(s, IsTrimSpace), IsTrimSpace)
  }

  // ---------------------------------------------------------------------------
  // strings.Split(s, "\n") and its inverse

  /** `strings.Split(s, "\n")`: the pieces between line breaks, always at least one. */
  function Split(s: string): (lines: seq<string>)
    ensures |lines| >= 1
  {
    if s == [] then [""]
    else
      var rest := Split(s[1..]);
      if s[0] == '\n' then [""] + rest
      else [[s[0]] + rest[0]] + rest[1..]
  }

  lemma {:induction false} SplitLinesHaveNoBreak(s: string)
    ensures forall k :: 0 <= k < |Split(s)| ==> '\n' !in Split(s)[k]
  {
    if s != [] {
      SplitLinesHaveNoBreak(s[1..]);
    }
  }

  /** `strings.Join(lines, "\n")`. */
  function JoinLines(lines: seq<string>): string
    requires |lines| >= 1
  {
    if |lines| == 1 then lines[0] else lines[0] + "\n" + JoinLines(lines[1..])
  }

  lemma {:induction false} JoinSplit(s: string)
    ensures JoinLines(Split(s)) == s
  {
    if s != [] {
      JoinSplit(s[1..]);
      var rest := Split(s[1..]);
      if s[0] != '\n' {
        var lines := Split(s);
        assert lines[1..] == rest[1..];
        if |rest| > 1 {
          assert rest == [rest[0]] + rest[1..];
          assert JoinLines(rest) == rest[0] + "\n" + JoinLines(rest[1..]);
        }
      }
    }
  }

  lemma {:induction false} SplitSingleLine(s: string)
    requires '\n' !in s
    ensures Split(s) == [s]
  {
    if s != [] {
      SplitSingleLine(s[1..]);
      assert [s[0]] + s[1..] == s;
    }
  }

  lemma {:induction false} SplitAtBreak(a: string, b: string)
    ensures Split(a + "\n" + b) == Split(a) + Split(b)
  {
    var s := a + "\n" + b;
    if a == [] {
      assert s[0] == '\n' && s[1..] == b;
    } else {
      assert s[0] == a[0] && s[1..] == a[1..] + "\n" + b;
      SplitAtBreak(a[1..], b);
      SplitStep(s);
      SplitStep(a);
    }
  }

  lemma SplitStep(s: string)
    requires s != []
    ensures s[0] == '\n' ==> Split(s) == [""] + Split(s[1..])
    ensures s[0] != '\n' ==> Split(s) == [[s[0]] + Split(s[1..])[0]] + Split(s[1..])[1..]
  {
  }

  // ---------------------------------------------------------------------------
  // Concatenating the images of a sequence

  lemma Assoc<T>(a: seq<T>, b: seq<T>, c: seq<T>)
    ensures a + b + c == a + (b + c)
  {
  }

  /** Regrouping a five-part concatenation around an empty part. */
  lemma Regroup<T>(a: seq<T>, b: seq<T>, l: seq<T>, e: seq<T>, c: seq<T>)
    ensures a + b + l + e + c == a + (b + l) + [] + e + c
  {
  }

  /** Regrouping a five-part concatenation after its second part. */
  lemma Regroup2<T>(a: seq<T>, b: seq<T>, l: seq<T>, e: seq<T>, c: seq<T>)
    ensures a + b + l + e + c == (a + b) + (l + e + c)
  {
  }

  /** The last part of a concatenation is its suffix. */
  lemma SuffixOfConcat<T>(a: seq<T>, b: seq<T>)
    ensures |b| <= |a + b| && (a + b)[|a + b| - |b|..] == b
  {
  }

  /** Sequences of one length whose whole prefixes agree are equal. */
  lemma WholePrefix<T>(a: seq<T>, b: seq<T>)
    requires |a| == |b| && a[..|a|] == b[..|b|]
    ensures a == b
  {
    assert a == a[..|a|] && b == b[..|b|];
  }

  /** `f(xs[0]) + f(xs[1]) + ...`: what a loop appending `f` of each element builds. */
  function FlatMap<T, U>(xs: seq<T>, f: T -> seq<U>): seq<U>
  {
    if xs == [] then [] else FlatMap(xs[..|xs| - 1], f) + f(xs[|xs| - 1])
  }

  lemma {:induction false} FlatMapAppend<T, U>(a: seq<T>, b: seq<T>, f: T -> seq<U>)
    ensures FlatMap(a + b, f) == FlatMap(a, f) + FlatMap(b, f)
    decreases |b|
  {
    if b == [] {
      assert a + b == a;
    } else {
      var n, ab := |b|, a + b;
      var init, last := b[..n - 1], b[n - 1];
      assert ab[..|ab| - 1] == a + init && ab[|ab| - 1] == last;
      assert FlatMap(ab, f) == FlatMap(a + init, f) + f(last);
      assert FlatMap(b, f) == FlatMap(init, f) + f(last);
      FlatMapAppend(a, init, f);
      Assoc(FlatMap(a, f), FlatMap(init, f), f(last));
    }
  }

  /** One more element adds its image at the end. */
  lemma FlatMapSnoc<T, U>(xs: seq<T>, i: nat, f: T -> seq<U>)
    requires i < |xs|
    ensures FlatMap(xs[..i + 1], f) == FlatMap(xs[..i], f) + f(xs[i])
  {
    assert xs[..i + 1][..i] == xs[..i];
  }

  // ---------------------------------------------------------------------------
  // strings.ReplaceAll

  /**
   * `strings.ReplaceAll(s, pat, rep)` for a non-empty `pat`: occurrences are
   * found from left to right and never overlap.
   */
  function ReplaceAll(s: string, pat: string, rep: string): string
    requires pat != []
    decreases |s|
  {
    if |s| < |pat| then s
    else if s[..|pat|] == pat then rep + ReplaceAll(s[|pat|..], pat, rep)
    else [s[0]] + ReplaceAll(s[1..], pat, rep)
  }

  lemma {:induction false} ReplaceAllAbsent(s: string, pat: string, rep: string)
    requires pat != []
    requires !Contains(s, pat)
    ensures ReplaceAll(s, pat, rep) == s
    decreases |s|
  {
    if |s| >= |pat| {
      assert !OccursAt(s, pat, 0);
      if Contains(s[1..], pat) {
        var i :| 0 <= i <= |s[1..]| - |pat| && OccursAt(s[1..], pat, i);
        assert s[1..][i..i + |pat|] == s[i + 1..i + 1 + |pat|];
        assert OccursAt(s, pat, i + 1);
        assert false;
      }
      ReplaceAllAbsent(s[1..], pat, rep);
      assert [s[0]] + s[1..] == s;
    }
  }

  /** An occurrence at the front is replaced and the scan resumes after it. */
  lemma ReplaceAllAtFront(s: string, pat: string, rep: string)
    requires pat != []
    ensures ReplaceAll(pat + s, pat, rep) == rep + ReplaceAll(s, pat, rep)
  {
    assert (pat + s)[..|pat|] == pat && (pat + s)[|pat|..] == s;
  }

  /** A text that does not start with the pattern keeps its first character, and the scan moves on. */
  lemma ReplaceAllKeepsHead(c: char, s: string, pat: string, rep: string)
    requires pat != [] && !(|[c] + s| >= |pat| && ([c] + s)[..|pat|] == pat)
    ensures ReplaceAll([c] + s, pat, rep) == [c] + ReplaceAll(s, pat, rep)
  {
    assert ([c] + s)[1..] == s;
  }

  // ---------------------------------------------------------------------------
  // strconv.Atoi and decimal rendering (fmt's %d)

  function ValueOf(c: char): nat
    requires IsDigit(c)
  {
    c as int - '0' as int
  }

  function DigitOf(d: nat): char
    requires d < 10
  {
    ('0' as int + d) as char
  }

  /** The value of a decimal digit string, leading zeros allowed. */
  function Decimal(s: string): nat
    requires AllDigits(s)
  {
    if s == [] then 0 else 10 * Decimal(s[..|s| - 1]) + ValueOf(s[|s| - 1])
  }

  /** A digit string as `%d` writes one: no leading zero unless it is the single digit 0. */
  predicate Canonical(s: string)
  {
    s != [] && AllDigits(s) && (s[0] != '0' || |s| == 1)
  }

  /**
   * `strconv.Atoi` on a non-empty digit string: fails exactly on 64-bit
   * overflow, and a canonical string reads back to a number `%d` writes as it.
   */
  function Atoi(s: string): (r: Result<int>)
    requires s != [] && AllDigits(s)
    ensures r.Ok? ==> 0 <= r.value <= MaxInt
    ensures r.Ok? && Canonical(s) ==> Itoa(r.value) == s
  {
    ItoaOfDecimal(s);
    if Decimal(s) <= MaxInt then Ok(Decimal(s))
    else Err("strconv.Atoi: parsing \"" + s + "\": value out of range")
  }

  /** Decimal rendering of a natural number, as `fmt` prints `%d`. */
  function Itoa(n: nat): (s: string)
    ensures s != [] && AllDigits(s)
    ensures n == 0 || s[0] != '0'
  {
    if n < 10 then [DigitOf(n)] else Itoa(n / 10) + [DigitOf(n % 10)]
  }

  /** `strconv.Atoi` reads back the `%d` rendering of every number in range, and rejects the rest. */
  lemma AtoiItoa(n: nat)
    ensures n <= MaxInt ==> Atoi(Itoa(n)) == Ok(n)
    ensures n > MaxInt ==> Atoi(Itoa(n)).Err?
  {
    DecimalOfItoa(n);
  }

  /** A digit string without a leading zero denotes a positive number. */
  lemma {:induction false} DecimalPositive(s: string)
    requires s != [] && AllDigits(s) && s[0] != '0'
    ensures Decimal(s) >= 1
  {
    var p := s[..|s| - 1];
    if |s| > 1 {
      assert p[0] == s[0];
      DecimalPositive(p);
    }
  }

  /** Rendering the value of a canonical digit string gives back the string. */
  lemma {:induction false} ItoaOfDecimal(s: string)
    requires s != [] && AllDigits(s)
    ensures Canonical(s) ==> Itoa(Decimal(s)) == s
  {
    var p := s[..|s| - 1];
    if Canonical(s) && |s| > 1 {
      assert p[0] == s[0];
      DecimalPositive(p);
      ItoaOfDecimal(p);
      var n := Decimal(s);
      assert n / 10 == Decimal(p) && n % 10 == ValueOf(s[|s| - 1]);
      assert s == p + [s[|s| - 1]];
    }
  }

  lemma {:induction false} DecimalOfItoa(n: nat)
    ensures Decimal(Itoa(n)) == n
  {
    if n >= 10 {
      DecimalOfItoa(n / 10);
      var s := Itoa(n);
      assert s[..|s| - 1] == Itoa(n / 10);
    }
  }
}
