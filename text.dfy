/** The few string operations of Python's `str` that `grader.py` and `load_env.py` rely on. */
module Text {

  /**
   * The ASCII characters that `str.strip()` removes: the space, `\t` to `\r`
   * (tab, line feed, vertical tab, form feed, carriage return) and the four
   * separators U+001C to U+001F. Non-ASCII whitespace is not included.
   */
  predicate IsSpace(c: char) {
    c == ' ' || '\t' <= c <= '\r' || '\U{001C}' <= c <= '\U{001F}'
  }

  /** `s.startswith(p)`. */
  predicate StartsWith(s: string, p: string) {
    |p| <= |s| && s[..|p|] == p
  }

  /** Starting with a one-character string is having that character first. */
  lemma StartsWithChar(s: string, c: char)
    ensures StartsWith(s, [c]) <==> |s| > 0 && s[0] == c
  {
    if |s| > 0 && s[0] == c {
      assert s[..1] == [c];
    }
  }

  /** `s.endswith(p)`. */
  predicate EndsWith(s: string, p: string) {
    |p| <= |s| && s[|s| - |p|..] == p
  }

  /** `s.lstrip()`: the longest suffix of `s` that does not start with whitespace. */
  function StripLeft(s: string): (r: string)
    ensures |r| <= |s| && r == s[|s| - |r|..]
    ensures forall k :: 0 <= k < |s| - |r| ==> IsSpace(s[k])
    ensures r != [] ==> !IsSpace(r[0])
  {
    if |s| > 0 && IsSpace(s[0]) then StripLeft(s[1..]) else s
  }

  /** `s.rstrip()`: the longest prefix of `s` that does not end with whitespace. */
  function StripRight(s: string): (r: string)
    ensures |r| <= |s| && r == s[..|r|]
    ensures forall k :: |r| <= k < |s| ==> IsSpace(s[k])
    ensures r != [] ==> !IsSpace(r[|r| - 1])
  {
    if |s| > 0 && IsSpace(s[|s| - 1]) then StripRight(s[..|s| - 1]) else s
  }

  /** `r` occurs in `s` starting at index `i`. */
  ghost predicate SliceAt(r: string, s: string, i: int) {
    0 <= i <= |s| - |r| && r == s[i..i + |r|]
  }

  /** `s.strip()`: `s` without its leading and trailing whitespace. */
  function Strip(s: string): string {
    StripRight(StripLeft(s))
  }

  /**
   * `Strip` keeps a slice of `s` that neither starts nor ends with whitespace,
   * removes only whitespace around it, and keeps nothing exactly when `s` is
   * whitespace throughout.
   */
  lemma StripSpec(s: string)
    ensures var r := Strip(s); r != [] ==> !IsSpace(r[0]) && !IsSpace(r[|r| - 1])
    ensures Strip(s) == [] <==> forall k :: 0 <= k < |s| ==> IsSpace(s[k])
    ensures exists i :: SliceAt(Strip(s), s, i) && TrimmedAround(Strip(s), s, i)
  {
    StripEnds(s);
    StripEmpty(s);
    StripSlice(s);
  }

  /** Everything of `s` before index `i` and after the slice `r` that starts there is whitespace. */
  ghost predicate TrimmedAround(r: string, s: string, i: int) {
    (forall k :: 0 <= k < i && k < |s| ==> IsSpace(s[k]))
      && (forall k :: 0 <= i + |r| <= k < |s| ==> IsSpace(s[k]))
  }

  /** The slice `Strip` keeps, and the whitespace around it. */
  lemma StripSlice(s: string)
    ensures exists i :: SliceAt(Strip(s), s, i) && TrimmedAround(Strip(s), s, i)
  {
    var l := StripLeft(s);
    var r := StripRight(l);
    var i := |s| - |l|;
    assert Strip(s) == r;
    assert l == s[i..] && r == l[..|r|];
    SliceOfSlice(s, i, |r|);
    assert forall k :: i + |r| <= k < |s| ==> s[k] == l[k - i];
    assert SliceAt(r, s, i) && TrimmedAround(r, s, i);
  }

  /** The first `n` characters of the suffix of `s` from `i` are the slice of `s` from `i` of length `n`. */
  lemma SliceOfSlice(s: string, i: nat, n: nat)
    requires i + n <= |s|
    ensures SliceAt(s[i..][..n], s, i)
  {
  }

  /** What `Strip` keeps neither starts nor ends with whitespace. */
  lemma StripEnds(s: string)
    ensures var r := Strip(s); r != [] ==> !IsSpace(r[0]) && !IsSpace(r[|r| - 1])
  {
    var l := StripLeft(s);
    var r := StripRight(l);
    assert Strip(s) == r;
    assert r != [] ==> r[0] == l[0];
  }

  /** `Strip` leaves nothing exactly when every character is whitespace. */
  lemma StripEmpty(s: string)
    ensures Strip(s) == [] <==> forall k :: 0 <= k < |s| ==> IsSpace(s[k])
  {
    var l := StripLeft(s);
    var r := StripRight(l);
    assert Strip(s) == r;
    assert r == [] ==> l == [] by {
      assert l != [] ==> var c := l[0]; r == [] ==> IsSpace(c);
    }
    assert l != [] ==> s[|s| - |l|] == l[0];
  }

  /** A string that neither starts nor ends with whitespace is left alone by `Strip`. */
  lemma {:induction false} StripUntrimmed(s: string)
    requires s != [] ==> !IsSpace(s[0]) && !IsSpace(s[|s| - 1])
    ensures Strip(s) == s
  {
  }

  /** Stripping twice is stripping once. */
  lemma StripIdempotent(s: string)
    ensures Strip(Strip(s)) == Strip(s)
  {
    StripSpec(s);
    StripUntrimmed(Strip(s));
  }

  /** ASCII `str.lower()` of one character. */
  function LowerChar(c: char): (d: char)
    ensures 'A' <= c <= 'Z' ==> 'a' <= d <= 'z' && d as int - c as int == 32
    ensures !('A' <= c <= 'Z') ==> d == c
  {
    if 'A' <= c <= 'Z' then (c as int + 32) as char else c
  }

  /** `s.lower()`, character by character. */
  function Lower(s: string): (r: string)
    ensures |r| == |s|
    ensures forall i :: 0 <= i < |s| ==> r[i] == LowerChar(s[i])
  {
    if s == [] then [] else [LowerChar(s[0])] + Lower(s[1..])
  }

  /** The index of the first occurrence of `c` in `s`. */
  function FirstIndex(s: string, c: char): (i: nat)
    requires c in s
    ensures i < |s| && s[i] == c && c !in s[..i]
  {
    if s[0] == c then 0 else 1 + FirstIndex(s[1..], c)
  }

  /** A string is what precedes index `i`, the character there, and what follows. */
  lemma SplitAround(s: string, i: nat)
    requires i < |s|
    ensures s == s[..i] + [s[i]] + s[i + 1..]
  {
  }

  /** `s.splitlines()` with `'\n'` as the only line boundary. */
  function SplitLines(s: string): (lines: seq<string>)
    ensures forall i :: 0 <= i < |lines| ==> '\n' !in lines[i]
    decreases |s|
  {
    if s == [] then []
    else if '\n' in s then
      var i := FirstIndex(s, '\n');
      [s[..i]] + SplitLines(s[i + 1..])
    else [s]
  }

  /** Lines written back out, each followed by `'\n'`. */
  function Unlines(lines: seq<string>): string {
    if lines == [] then "" else lines[0] + "\n" + Unlines(lines[1..])
  }

  /** Splitting text written from lines without line breaks gives back those lines. */
  lemma {:induction false} SplitUnlines(lines: seq<string>)
    requires forall i :: 0 <= i < |lines| ==> '\n' !in lines[i]
    ensures SplitLines(Unlines(lines)) == lines
  {
    if lines != [] {
      var s := Unlines(lines);
      var rest := Unlines(lines[1..]);
      assert s == lines[0] + "\n" + rest;
      assert s[|lines[0]|] == '\n';
      var i := FirstIndex(s, '\n');
      assert s[..|lines[0]|] == lines[0];
      assert '\n' !in s[..|lines[0]|];
      assert i == |lines[0]|;
      assert s[i + 1..] == rest;
      SplitUnlines(lines[1..]);
    }
  }

  /** Writing the lines of `s` back out gives `s`, with a final `'\n'` added when it had none. */
  lemma {:induction false} UnlinesSplit(s: string)
    ensures Unlines(SplitLines(s)) == if s == [] || s[|s| - 1] == '\n' then s else s + "\n"
    decreases |s|
  {
    if s == [] {
    } else if '\n' in s {
      var i := FirstIndex(s, '\n');
      var t := s[i + 1..];
      UnlinesSplitAt(s, i, t);
    } else {
      assert SplitLines(s) == [s];
      assert Unlines([s]) == s + "\n" + Unlines([s][1..]);
      assert s[|s| - 1] in s;
    }
  }

  /** The step of `UnlinesSplit` for text whose first line ends at index `i`. */
  lemma {:induction false} UnlinesSplitAt(s: string, i: nat, t: string)
    requires '\n' in s && i == FirstIndex(s, '\n') && t == s[i + 1..]
    ensures Unlines(SplitLines(s)) == if s[|s| - 1] == '\n' then s else s + "\n"
    decreases |s|, 0
  {
    UnlinesCons(s[..i], SplitLines(t));
    UnlinesSplit(t);
    CloseFirstLine(s, i, Unlines(SplitLines(t)));
  }

  /** The first line of `s`, its break, and the rest of `s` written out again. */
  lemma CloseFirstLine(s: string, i: nat, u: string)
    requires i < |s| && s[i] == '\n'
    requires u == if s[i + 1..] == [] || s[|s| - 1] == '\n' then s[i + 1..] else s[i + 1..] + "\n"
    ensures s[..i] + "\n" + u == if s[|s| - 1] == '\n' then s else s + "\n"
  {
    SplitAround(s, i);
  }

  /** Writing out a first line and the rest. */
  lemma UnlinesCons(line: string, rest: seq<string>)
    ensures Unlines([line] + rest) == line + "\n" + Unlines(rest)
  {
    assert ([line] + rest)[1..] == rest;
  }

  /** `sep.join(parts)`. */
  function Join(parts: seq<string>, sep: string): (r: string)
    ensures |parts| > 0 ==> StartsWith(r, parts[0]) && EndsWith(r, parts[|parts| - 1])
    ensures |parts| == 1 ==> r == parts[0]
  {
    if |parts| == 0 then ""
    else if |parts| == 1 then parts[0]
    else Join(parts[..|parts| - 1], sep) + sep + parts[|parts| - 1]
  }

  /** Joining is associative with its separator: the first part, the separator, the rest joined. */
  lemma {:induction false} JoinCons(p: string, parts: seq<string>, sep: string)
    requires |parts| > 0
    ensures Join([p] + parts, sep) == p + sep + Join(parts, sep)
    decreases |parts|
  {
    if |parts| > 1 {
      var init := parts[..|parts| - 1];
      var last := parts[|parts| - 1];
      var whole := [p] + parts;
      assert whole[..|whole| - 1] == [p] + init;
      calc {
        Join(whole, sep);
        Join([p] + init, sep) + sep + last;
        { JoinCons(p, init, sep); }
        p + sep + Join(init, sep) + sep + last;
        p + sep + (Join(init, sep) + sep + last);
        p + sep + Join(parts, sep);
      }
    } else {
      assert [p] + parts == [p, parts[0]];
    }
  }
}
