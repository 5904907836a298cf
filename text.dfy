/**
  The few Python string operations the reports rely on:
  `str.strip()`, `str.lower()`, `str.title()` and `str.replace(old, new)` on one character.
  Case mapping is restricted to ASCII letters; whitespace is Python's `str.isspace` set.
 */
module Text {

  /** Python's `str.isspace()`: ASCII controls 9-13 and 28-31, the space, and the Unicode spaces. */
  predicate IsSpace(c: char) {
    var n := c as int;
    (9 <= n <= 13) || (28 <= n <= 32) || n == 0x85 || n == 0xA0 || n == 0x1680
    || (0x2000 <= n <= 0x200A) || n == 0x2028 || n == 0x2029 || n == 0x202F
    || n == 0x205F || n == 0x3000
  }

  predicate IsUpper(c: char) { 'A' <= c <= 'Z' }

  predicate IsLower(c: char) { 'a' <= c <= 'z' }

  /** A cased character in the sense of `str.title()` (ASCII letters only). */
  predicate IsLetter(c: char) { IsUpper(c) || IsLower(c) }

  function LowerChar(c: char): (d: char)
    ensures IsLetter(d) == IsLetter(c) && IsSpace(d) == IsSpace(c)
    ensures !IsUpper(d)
  {
    if IsUpper(c) then (c as int + 32) as char else c
  }

  function UpperChar(c: char): (d: char)
    ensures IsLetter(d) == IsLetter(c) && IsSpace(d) == IsSpace(c)
    ensures !IsLower(d)
  {
    if IsLower(c) then (c as int - 32) as char else c
  }

  /** `str.lower()` on ASCII letters. */
  function Lower(s: string): (r: string)
    ensures |r| == |s|
    ensures forall i :: 0 <= i < |s| ==> r[i] == LowerChar(s[i])
  {
    seq(|s|, i requires 0 <= i < |s| => LowerChar(s[i]))
  }

  /**
    `str.title()`: a letter is upper-cased when the character before it is not a letter,
    and lower-cased when it is; every other character is kept.
    `afterLetter` says whether the character before `s` was a letter.
   */
  function TitleFrom(s: string, afterLetter: bool): (r: string)
    ensures |r| == |s|
    ensures forall i :: 0 <= i < |s| ==> IsSpace(r[i]) == IsSpace(s[i])
    ensures forall i :: 0 <= i < |s| ==> IsLetter(r[i]) == IsLetter(s[i])
  {
    if s == [] then []
    else [if afterLetter then LowerChar(s[0]) else UpperChar(s[0])] + TitleFrom(s[1..], IsLetter(s[0]))
  }

  /** The character title-casing makes of `c`, given whether a letter comes just before it. */
  function TitledChar(c: char, afterLetter: bool): char {
    if afterLetter then LowerChar(c) else UpperChar(c)
  }

  /**
    Title-casing letter by letter: a character is lower-cased when the one before it (or
    `afterLetter`, for the first) is a letter, and upper-cased otherwise.
   */
  lemma {:induction false} TitleShape(s: string, afterLetter: bool)
    ensures |TitleFrom(s, afterLetter)| == |s|
    ensures forall i :: 0 <= i < |s| ==>
      TitleFrom(s, afterLetter)[i] == TitledChar(s[i], if i == 0 then afterLetter else IsLetter(s[i - 1]))
  {
    if s != [] {
      TitleShape(s[1..], IsLetter(s[0]));
      var t := TitleFrom(s, afterLetter);
      assert t == [t[0]] + TitleFrom(s[1..], IsLetter(s[0]));
      assert t[0] == TitledChar(s[0], afterLetter);
      forall i | 1 <= i < |s|
        ensures t[i] == TitledChar(s[i], IsLetter(s[i - 1]))
      {
        assert t[i] == TitleFrom(s[1..], IsLetter(s[0]))[i - 1];
        assert s[1..][i - 1] == s[i];
        if i > 1 {
          assert s[1..][i - 2] == s[i - 1];
        }
      }
    }
  }

  /**
    `key` is `s` title-cased: a character is lower-cased when a letter comes just before
    it and upper-cased otherwise.
   */
  predicate TitleCaseOf(s: string, key: string) {
    && |key| == |s|
    && (forall i :: 0 <= i < |s| ==> key[i] == TitledChar(s[i], i > 0 && IsLetter(s[i - 1])))
  }

  lemma TitleCased(s: string)
    ensures TitleCaseOf(s, Title(s))
  {
    TitleShape(s, false);
    forall i | 0 <= i < |s|
      ensures Title(s)[i] == TitledChar(s[i], i > 0 && IsLetter(s[i - 1]))
    {
      assert (if i == 0 then false else IsLetter(s[i - 1])) == (i > 0 && IsLetter(s[i - 1]));
    }
  }

  /** Title-casing only changes letter case: lower-casing undoes it. */
  lemma {:induction false} TitleFromLower(s: string, afterLetter: bool)
    ensures Lower(TitleFrom(s, afterLetter)) == Lower(s)
  {
    if s != [] {
      TitleFromLower(s[1..], IsLetter(s[0]));
      var t := TitleFrom(s, afterLetter);
      assert t == [t[0]] + TitleFrom(s[1..], IsLetter(s[0]));
      assert t[0] == TitledChar(s[0], afterLetter);
      assert LowerChar(t[0]) == LowerChar(s[0]);
      forall i | 0 <= i < |s|
        ensures Lower(t)[i] == Lower(s)[i]
      {
        if i > 0 {
          assert Lower(t)[i] == Lower(TitleFrom(s[1..], IsLetter(s[0])))[i - 1];
          assert Lower(s)[i] == Lower(s[1..])[i - 1];
        }
      }
    }
  }

  function Title(s: string): string {
    TitleFrom(s, false)
  }

  lemma {:induction false} TitleFromIdempotent(s: string, afterLetter: bool)
    ensures TitleFrom(TitleFrom(s, afterLetter), afterLetter) == TitleFrom(s, afterLetter)
  {
    if s != [] {
      var t := TitleFrom(s, afterLetter);
      assert t[1..] == TitleFrom(s[1..], IsLetter(s[0]));
      TitleFromIdempotent(s[1..], IsLetter(s[0]));
    }
  }

  /** `title()` does not look at the case a letter had before. */
  lemma {:induction false} TitleFromIgnoresCase(s: string, afterLetter: bool)
    ensures TitleFrom(Lower(s), afterLetter) == TitleFrom(s, afterLetter)
  {
    if s != [] {
      assert Lower(s)[1..] == Lower(s[1..]);
      TitleFromIgnoresCase(s[1..], IsLetter(s[0]));
    }
  }

  /** The position of the first non-whitespace character of `s` at or after `i`, or `|s|`. */
  function SkipSpace(s: string, i: nat): (k: nat)
    requires i <= |s|
    ensures i <= k <= |s|
    ensures k == |s| || !IsSpace(s[k])
    ensures forall j :: i <= j < k ==> IsSpace(s[j])
    decreases |s| - i
  {
    if i < |s| && IsSpace(s[i]) then SkipSpace(s, i + 1) else i
  }

  /** The end of `s[..j]` once the whitespace at its end is dropped. */
  function TrimEnd(s: string, j: nat): (k: nat)
    requires j <= |s|
    ensures k <= j
    ensures k == 0 || !IsSpace(s[k - 1])
    ensures forall i :: k <= i < j ==> IsSpace(s[i])
  {
    if j > 0 && IsSpace(s[j - 1]) then TrimEnd(s, j - 1) else j
  }

  /** No whitespace at either end. */
  predicate Stripped(s: string) {
    s == [] || (!IsSpace(s[0]) && !IsSpace(s[|s| - 1]))
  }

  /** `str.strip()`: the longest slice of `s` without whitespace at either end. */
  function Strip(s: string): (r: string)
    ensures Stripped(r)
    ensures |r| <= |s|
  {
    var a := SkipSpace(s, 0);
    var b := TrimEnd(s, |s|);
    if a == |s| then []
    else
      assert !IsSpace(s[a]);
      s[a..b]
  }

  /** Stripping only removes characters, all of them whitespace, from the two ends. */
  lemma StripIsSlice(s: string)
    ensures exists a, b :: (0 <= a <= b <= |s| && Strip(s) == s[a..b]
      && (forall i :: 0 <= i < a ==> IsSpace(s[i]))
      && (forall i :: b <= i < |s| ==> IsSpace(s[i])))
  {
    var a := SkipSpace(s, 0);
    var b := TrimEnd(s, |s|);
    if a == |s| {
      assert Strip(s) == s[a..a];
    } else {
      assert !IsSpace(s[a]);
      assert Strip(s) == s[a..b];
    }
  }

  /** A string without surrounding whitespace is its own strip. */
  lemma StripStripped(s: string)
    requires Stripped(s)
    ensures Strip(s) == s
  {
    if s != [] {
      assert SkipSpace(s, 0) == 0;
      assert TrimEnd(s, |s|) == |s|;
      assert s[0..|s|] == s;
    }
  }

  lemma StripIdempotent(s: string)
    ensures Strip(Strip(s)) == Strip(s)
  {
    StripStripped(Strip(s));
  }

  lemma {:induction false} SkipSpaceLower(s: string, i: nat)
    requires i <= |s|
    ensures SkipSpace(Lower(s), i) == SkipSpace(s, i)
    decreases |s| - i
  {
    if i < |s| && IsSpace(s[i]) {
      SkipSpaceLower(s, i + 1);
    }
  }

  lemma {:induction false} TrimEndLower(s: string, j: nat)
    requires j <= |s|
    ensures TrimEnd(Lower(s), j) == TrimEnd(s, j)
  {
    if j > 0 && IsSpace(s[j - 1]) {
      TrimEndLower(s, j - 1);
    }
  }

  /** Lower-casing a slice is slicing the lower-cased string. */
  lemma LowerSlice(s: string, a: nat, b: nat)
    requires a <= b <= |s|
    ensures Lower(s)[a..b] == Lower(s[a..b])
  {
    var l, m := Lower(s)[a..b], Lower(s[a..b]);
    assert |l| == |m|;
    forall i | 0 <= i < |l|
      ensures l[i] == m[i]
    {
      assert s[a..b][i] == s[a + i];
    }
  }

  /** Stripping and lower-casing commute, as lower-casing keeps whitespace. */
  lemma StripLowerCommute(s: string)
    ensures Strip(Lower(s)) == Lower(Strip(s))
  {
    SkipSpaceLower(s, 0);
    TrimEndLower(s, |s|);
    var a := SkipSpace(s, 0);
    var b := TrimEnd(s, |s|);
    var l := Lower(s);
    assert SkipSpace(l, 0) == a && TrimEnd(l, |l|) == b;
    if a < |s| {
      assert !IsSpace(s[a]);
      assert Strip(s) == s[a..b];
      assert Strip(l) == l[a..b];
      LowerSlice(s, a, b);
    } else {
      assert Strip(s) == [] && Strip(l) == [];
    }
  }

  /** `str.replace(old, new)` for single characters. */
  function ReplaceChar(s: string, from: char, to: char): (r: string)
    ensures |r| == |s|
    ensures forall i :: 0 <= i < |s| ==> r[i] == (if s[i] == from then to else s[i])
  {
    seq(|s|, i requires 0 <= i < |s| => if s[i] == from then to else s[i])
  }
}
