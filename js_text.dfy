/** JavaScript's `String.prototype.trim`, used by the chat input check and by
    the summary extraction. */
module JsText {

  /** The characters `trim` removes: the WhiteSpace and LineTerminator
      code points of ECMA-262 (tab, vertical tab, form feed, space, no-break
      space, byte order mark, the other space separators, LF, CR, LS, PS). */
  predicate IsTrimmable(c: char) {
    var n := c as int;
    n == 0x09 || n == 0x0B || n == 0x0C || n == 0x20 || n == 0xA0 || n == 0xFEFF
    || n == 0x1680 || (0x2000 <= n <= 0x200A) || n == 0x202F || n == 0x205F || n == 0x3000
    || n == 0x0A || n == 0x0D || n == 0x2028 || n == 0x2029
  }

  /** The number of trimmable characters at the front of `s`. */
  function LeadingCount(s: string): (n: nat)
    ensures n <= |s|
    ensures forall k :: 0 <= k < n ==> IsTrimmable(s[k])
    ensures n < |s| ==> !IsTrimmable(s[n])
    decreases |s|
  {
    if s != [] && IsTrimmable(s[0]) then 1 + LeadingCount(s[1..]) else 0
  }

  /** The number of trimmable characters at the end of `s`. */
  function TrailingCount(s: string): (n: nat)
    ensures n <= |s|
    ensures forall k :: |s| - n <= k < |s| ==> IsTrimmable(s[k])
    ensures n < |s| ==> !IsTrimmable(s[|s| - 1 - n])
    decreases |s|
  {
    if s != [] && IsTrimmable(s[|s| - 1]) then 1 + TrailingCount(s[..|s| - 1]) else 0
  }

  /** `r` is what is left of `s` once its leading and trailing trimmable
      characters are removed, and `r` starts at offset `i` of `s`. */
  ghost predicate TrimmedAt(r: string, s: string, i: nat) {
    && i + |r| <= |s|
    && s[i..i + |r|] == r
    && (forall k :: 0 <= k < i ==> IsTrimmable(s[k]))
    && (forall k :: i + |r| <= k < |s| ==> IsTrimmable(s[k]))
    && (r != [] ==> !IsTrimmable(r[0]) && !IsTrimmable(r[|r| - 1]))
  }

  /** `s.trim()` */
  function Trim(s: string): (r: string)
    ensures TrimmedAt(r, s, LeadingCount(s))
  {
    var a := LeadingCount(s);
    if a == |s| then "" else s[a..|s| - TrailingCount(s)]
  }

  /** Every character of `s` is trimmable. */
  predicate IsBlank(s: string)
    decreases |s|
  {
    s == [] || (IsTrimmable(s[0]) && IsBlank(s[1..]))
  }

  /** A string is blank exactly when all its characters are trimmable. */
  lemma {:induction false} BlankIffAllTrimmable(s: string)
    ensures IsBlank(s) <==> forall k :: 0 <= k < |s| ==> IsTrimmable(s[k])
    decreases |s|
  {
    if s != [] {
      BlankIffAllTrimmable(s[1..]);
      assert forall k :: 1 <= k < |s| ==> s[1..][k - 1] == s[k];
    }
  }

  /** `!s.trim()` holds exactly for the blank strings: the trimmed string is
      empty, hence falsy, when nothing but trimmable characters is left. */
  lemma BlankIffTrimEmpty(s: string)
    ensures IsBlank(s) <==> Trim(s) == ""
  {
    BlankIffAllTrimmable(s);
  }

  /** Trimming has exactly one possible result: any window of `s` that the
      trimming conditions allow is the one `Trim` returns. */
  lemma {:induction false} TrimUnique(r: string, s: string, i: nat)
    requires TrimmedAt(r, s, i)
    ensures r == Trim(s)
  {
    var a := LeadingCount(s);
    if r == [] {
      assert forall k :: 0 <= k < |s| ==> IsTrimmable(s[k]) by {
        forall k | 0 <= k < |s| ensures IsTrimmable(s[k]) {
          if k >= i { assert i + |r| <= k; }
        }
      }
      BlankIffAllTrimmable(s);
    } else {
      assert s[i] == r[0];
      assert i == a;
      var b := TrailingCount(s);
      var j := i + |r|;
      assert s[j - 1] == r[|r| - 1];
      assert j == |s| - b;
    }
  }

  /** Trimming twice is trimming once. */
  lemma {:induction false} TrimIdempotent(s: string)
    ensures Trim(Trim(s)) == Trim(s)
  {
    var r := Trim(s);
    assert r[0..|r|] == r;
    assert TrimmedAt(r, r, 0);
    TrimUnique(r, r, 0);
  }
}
