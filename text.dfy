/** The string primitives the extension relies on: JavaScript's
    `String.prototype.trim`, `String.prototype.toLowerCase`, and the
    concatenation of the chunks a child process writes to stdout. */
module Text {

  /** ECMAScript WhiteSpace and LineTerminator code points: the characters
      `trim` removes from both ends of a string. */
  predicate IsWhitespace(c: char) {
    || c == '\t' || c == '\n' || c == '\U{000B}' || c == '\U{000C}' || c == '\r'
    || c == ' ' || c == '\U{00A0}' || c == '\U{1680}'
    || ('\U{2000}' <= c <= '\U{200A}')
    || c == '\U{2028}' || c == '\U{2029}' || c == '\U{202F}' || c == '\U{205F}'
    || c == '\U{3000}' || c == '\U{FEFF}'
  }

  predicate AllWhitespace(s: string) {
    forall i :: 0 <= i < |s| ==> IsWhitespace(s[i])
  }

  /** True of a string with no whitespace at either end: what `trim` produces. */
  predicate IsTrimmed(s: string) {
    s == [] || (!IsWhitespace(s[0]) && !IsWhitespace(s[|s| - 1]))
  }

  /** The index of the first non-whitespace character of `s` at or after
      `i`, or `|s|` when there is none. */
  function SkipLeading(s: string, i: nat): (k: nat)
    requires i <= |s|
    ensures i <= k <= |s|
    ensures forall j :: i <= j < k ==> IsWhitespace(s[j])
    ensures k < |s| ==> !IsWhitespace(s[k])
    decreases |s| - i
  {
    if i < |s| && IsWhitespace(s[i]) then SkipLeading(s, i + 1) else i
  }

  /** Scanning back from `j` but not below `lo`: the index just past the
      last non-whitespace character of `s[lo..j]`, or `lo` when there is
      none. */
  function SkipTrailing(s: string, lo: nat, j: nat): (k: nat)
    requires lo <= j <= |s|
    ensures lo <= k <= j
    ensures forall t :: k <= t < j ==> IsWhitespace(s[t])
    ensures k > lo ==> !IsWhitespace(s[k - 1])
  {
    if j > lo && IsWhitespace(s[j - 1]) then SkipTrailing(s, lo, j - 1) else j
  }

  /** `s.trim()`: the text between the leading and the trailing whitespace. */
  function Trim(s: string): string
  {
    var start := SkipLeading(s, 0);
    s[start..SkipTrailing(s, start, |s|)]
  }

  /** `SkipLeading` stops at the first non-whitespace character. */
  lemma {:induction false} SkipLeadingAt(s: string, i: nat, k: nat)
    requires i <= k <= |s|
    requires forall j :: i <= j < k ==> IsWhitespace(s[j])
    requires k < |s| ==> !IsWhitespace(s[k])
    ensures SkipLeading(s, i) == k
    decreases k - i
  {
    if i < k {
      SkipLeadingAt(s, i + 1, k);
    }
  }

  /** `SkipTrailing` stops just past the last non-whitespace character. */
  lemma {:induction false} SkipTrailingAt(s: string, lo: nat, j: nat, k: nat)
    requires lo <= k <= j <= |s|
    requires forall t :: k <= t < j ==> IsWhitespace(s[t])
    requires k > lo ==> !IsWhitespace(s[k - 1])
    ensures SkipTrailing(s, lo, j) == k
    decreases j - k
  {
    if k < j {
      SkipTrailingAt(s, lo, j - 1, k);
    }
  }

  /** What `trim` removes and keeps: `s` is whitespace, then the result,
      then whitespace, and the result has no whitespace at either end. */
  lemma TrimSplits(s: string) returns (p: string, q: string)
    ensures IsTrimmed(Trim(s))
    ensures AllWhitespace(p) && AllWhitespace(q)
    ensures s == p + Trim(s) + q
  {
    var start := SkipLeading(s, 0);
    var end := SkipTrailing(s, start, |s|);
    p, q := s[..start], s[end..];
    assert AllWhitespace(p) by {
      forall j | 0 <= j < |p| ensures IsWhitespace(p[j]) {
        assert p[j] == s[j];
      }
    }
    assert AllWhitespace(q) by {
      forall t | 0 <= t < |q| ensures IsWhitespace(q[t]) {
        assert q[t] == s[end + t];
      }
    }
    Slices3(s, start, end);
  }

  lemma Slices3(s: string, i: nat, j: nat)
    requires i <= j <= |s|
    ensures s == s[..i] + s[i..j] + s[j..]
  {
  }

  lemma AllWhitespaceAppend(a: string, b: string)
    requires AllWhitespace(a) && AllWhitespace(b)
    ensures AllWhitespace(a + b)
  {
    forall k | 0 <= k < |a + b| ensures IsWhitespace((a + b)[k]) {
      if k >= |a| {
        assert (a + b)[k] == b[k - |a|];
      }
    }
  }

  /** `trim` is determined by the split: whatever whitespace surrounds a
      trimmed middle, the middle is what `trim` returns. */
  lemma TrimOfPadded(p: string, m: string, q: string)
    requires AllWhitespace(p) && AllWhitespace(q) && IsTrimmed(m)
    ensures Trim(p + m + q) == m
  {
    var s := p + m + q;
    var e := |p| + |m|;
    assert forall j :: 0 <= j < |p| ==> s[j] == p[j];
    assert forall t :: e <= t < |s| ==> s[t] == q[t - e];
    if m == [] {
      SkipLeadingAt(s, 0, |s|);
      SkipTrailingAt(s, |s|, |s|, |s|);
    } else {
      assert s[|p|] == m[0] && s[e - 1] == m[|m| - 1];
      SkipLeadingAt(s, 0, |p|);
      SkipTrailingAt(s, |p|, |s|, e);
      assert s[|p|..e] == m;
    }
  }

  /** Trimming twice is trimming once. */
  lemma TrimIdempotent(s: string)
    ensures Trim(Trim(s)) == Trim(s)
  {
    var _, _ := TrimSplits(s);
    TrimOfPadded([], Trim(s), []);
    assert [] + Trim(s) + [] == Trim(s);
  }

  /** An upper-case letter that `toLowerCase` maps to a different single
      character: A-Z, and the Latin-1 capitals U+00C0-U+00DE except the
      multiplication sign U+00D7. */
  predicate IsUpper(c: char) {
    ('A' <= c <= 'Z') || ('\U{00C0}' <= c <= '\U{00DE}' && c != '\U{00D7}')
  }

  function LowerChar(c: char): char
  {
    if IsUpper(c) then (c as int + 32) as char else c
  }

  /** `s.toLowerCase()`, character by character. */
  function ToLower(s: string): string
  {
    seq(|s|, i requires 0 <= i < |s| => LowerChar(s[i]))
  }

  predicate IsLower(s: string) {
    forall i :: 0 <= i < |s| ==> !IsUpper(s[i])
  }

  /** Everything `toLowerCase` returns is lower case, and lowering it again
      changes nothing. */
  lemma ToLowerIsLower(s: string)
    ensures IsLower(ToLower(s))
    ensures ToLower(ToLower(s)) == ToLower(s)
  {
    var r := ToLower(s);
    forall i | 0 <= i < |s| ensures !IsUpper(r[i]) {
      if IsUpper(s[i]) {
        assert 'a' <= r[i] <= 'z' || '\U{00E0}' <= r[i] <= '\U{00FE}';
      }
    }
  }

  /** A lower-case string is its own lower-case form. */
  lemma ToLowerOfLower(s: string)
    requires IsLower(s)
    ensures ToLower(s) == s
  {
  }

  /** Lowering leaves whitespace alone, so it commutes with `trim`. */
  lemma ToLowerKeepsTrimmed(s: string)
    requires IsTrimmed(s)
    ensures IsTrimmed(ToLower(s))
  {
    if s != [] {
      assert !IsUpper(s[0]) ==> ToLower(s)[0] == s[0];
      assert !IsUpper(s[|s| - 1]) ==> ToLower(s)[|s| - 1] == s[|s| - 1];
    }
  }

  /** The string a sequence of stdout chunks adds up to. */
  function Concat(chunks: seq<string>): string
  {
    if chunks == [] then [] else chunks[0] + Concat(chunks[1..])
  }

  /** Appending one more chunk appends its text. */
  lemma {:induction false} ConcatSnoc(chunks: seq<string>, c: string)
    ensures Concat(chunks + [c]) == Concat(chunks) + c
  {
    if chunks == [] {
      assert [] + [c] == [c];
    } else {
      assert (chunks + [c])[1..] == chunks[1..] + [c];
      ConcatSnoc(chunks[1..], c);
    }
  }
}
