/**
  Python's `str.isspace` and argument-less `str.strip()`, the two string
  operations the controller relies on: it strips the human's reply before
  sending it, and it consults the decision callback only when the stripped
  buffer is non-empty.
 */
module PyStr {

  /** A code point Python counts as whitespace (`str.isspace`), which is
      exactly the set `str.strip()` removes when given no argument. */
  predicate IsSpace(c: char) {
    var n := c as int;
    || (0x09 <= n <= 0x0D)
    || (0x1C <= n <= 0x20)
    || n == 0x85
    || n == 0xA0
    || n == 0x1680
    || (0x2000 <= n <= 0x200A)
    || n == 0x2028
    || n == 0x2029
    || n == 0x202F
    || n == 0x205F
    || n == 0x3000
  }

  /** Every character of `s` is whitespace (true of the empty string). */
  predicate AllSpace(s: string) {
    forall i :: 0 <= i < |s| ==> IsSpace(s[i])
  }

  /** Neither end of `s` is whitespace: the shape of anything `strip` returns. */
  predicate Trimmed(s: string) {
    s == [] || (!IsSpace(s[0]) && !IsSpace(s[|s| - 1]))
  }

  /** Length of the longest whitespace prefix of `s`. */
  function LeadingSpace(s: string): (k: nat)
    ensures k <= |s|
    ensures forall i :: 0 <= i < k ==> IsSpace(s[i])
    ensures k < |s| ==> !IsSpace(s[k])
  {
    if |s| > 0 && IsSpace(s[0]) then 1 + LeadingSpace(s[1..]) else 0
  }

  /** Length of the longest whitespace suffix of `s`. */
  function TrailingSpace(s: string): (k: nat)
    ensures k <= |s|
    ensures forall i :: |s| - k <= i < |s| ==> IsSpace(s[i])
    ensures k < |s| ==> !IsSpace(s[|s| - 1 - k])
  {
    if |s| > 0 && IsSpace(s[|s| - 1]) then 1 + TrailingSpace(s[..|s| - 1]) else 0
  }

  /** `s.strip()`: drop the leading whitespace, then the trailing whitespace
      of what is left. */
  function Strip(s: string): (r: string)
    ensures Trimmed(r)
    ensures |r| <= |s|
    ensures r == [] <==> AllSpace(s)
  {
    var t := s[LeadingSpace(s)..];
    t[..|t| - TrailingSpace(t)]
  }

  /** A whitespace-only string concatenated with one is whitespace-only, and
      both parts of a whitespace-only concatenation are. */
  lemma AllSpaceConcat(a: string, b: string)
    ensures AllSpace(a + b) <==> AllSpace(a) && AllSpace(b)
  {
    if AllSpace(a + b) {
      forall i | 0 <= i < |a| ensures IsSpace(a[i]) {
        assert a[i] == (a + b)[i];
      }
      forall i | 0 <= i < |b| ensures IsSpace(b[i]) {
        assert b[i] == (a + b)[|a| + i];
      }
    }
  }

  /** `Strip(s)` is a slice of `s` with only whitespace cut off either side:
      `s == s[..i] + Strip(s) + s[j..]`. */
  lemma StripSlice(s: string) returns (i: nat, j: nat)
    ensures i <= j <= |s|
    ensures Strip(s) == s[i..j]
    ensures AllSpace(s[..i]) && AllSpace(s[j..])
  {
    i := LeadingSpace(s);
    var t := s[i..];
    j := i + |t| - TrailingSpace(t);
    assert s[j..] == t[|t| - TrailingSpace(t)..];
  }

  /** The reference characterisation of `strip`: whenever `s` splits into a
      whitespace prefix, a trimmed middle and a whitespace suffix, `Strip`
      returns that middle. */
  lemma StripIsCore(s: string, a: string, m: string, b: string)
    requires s == a + m + b
    requires AllSpace(a) && AllSpace(b) && Trimmed(m)
    ensures Strip(s) == m
  {
    if m == [] {
      AllSpaceConcat(a, b);
      assert s == a + b;
    } else {
      assert s[|a|] == m[0];
      assert LeadingSpace(s) == |a|;
      var t := s[|a|..];
      assert t == m + b;
      assert t[|m| - 1] == m[|m| - 1];
      assert TrailingSpace(t) == |b|;
      assert t[..|m|] == m;
    }
  }

  /** Stripping twice is stripping once. */
  lemma StripIdempotent(s: string)
    ensures Strip(Strip(s)) == Strip(s)
  {
  }
}
