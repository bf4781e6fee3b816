/**
 * JavaScript's `String.prototype.trim`, as the submit handler applies it to
 * the selected company: white space and line terminators are removed from
 * both ends.
 */
module JsText {

  /**
   * The characters `trim` removes: the ECMAScript WhiteSpace set (tab,
   * vertical tab, form feed, space, no-break space, byte-order mark and
   * every space separator) and the LineTerminator set.
   */
  predicate IsTrimmable(c: char)
  {
    var n := c as int;
    || n == 0x09 || n == 0x0B || n == 0x0C || n == 0x20 || n == 0xA0 || n == 0xFEFF
    || n == 0x1680 || (0x2000 <= n <= 0x200A) || n == 0x202F || n == 0x205F || n == 0x3000
    || n == 0x0A || n == 0x0D || n == 0x2028 || n == 0x2029
  }

  /** Every character of `s` is trimmable. */
  predicate AllTrimmable(s: string)
  {
    forall k :: 0 <= k < |s| ==> IsTrimmable(s[k])
  }

  /** Joining two all-trimmable strings gives an all-trimmable string. */
  lemma AllTrimmableAppend(a: string, b: string)
    requires AllTrimmable(a) && AllTrimmable(b)
    ensures AllTrimmable(a + b)
  {
    forall k | 0 <= k < |a + b| ensures IsTrimmable((a + b)[k]) {
      if k < |a| {
        assert (a + b)[k] == a[k];
      } else {
        assert (a + b)[k] == b[k - |a|];
      }
    }
  }

  /** A trimmable first character in front of a trimmable run of the tail extends the run. */
  lemma LeadingStep(s: string, rest: nat)
    requires 0 < |s| && IsTrimmable(s[0]) && rest <= |s| - 1
    requires AllTrimmable(s[1..][..rest])
    requires rest < |s| - 1 ==> !IsTrimmable(s[1..][rest])
    ensures AllTrimmable(s[..rest + 1])
    ensures rest + 1 < |s| ==> !IsTrimmable(s[rest + 1])
  {
    assert s[1..][..rest] == s[1..rest + 1];
    assert s[..rest + 1] == [s[0]] + s[1..rest + 1];
    AllTrimmableAppend([s[0]], s[1..rest + 1]);
  }

  /** A trimmable last character after a trimmable run of the front part extends the run. */
  lemma TrailingStep(s: string, rest: nat)
    requires 0 < |s| && IsTrimmable(s[|s| - 1]) && rest <= |s| - 1
    requires AllTrimmable(s[..|s| - 1][|s| - 1 - rest..])
    requires rest < |s| - 1 ==> !IsTrimmable(s[..|s| - 1][|s| - 1 - rest - 1])
    ensures AllTrimmable(s[|s| - 1 - rest..])
    ensures rest + 1 < |s| ==> !IsTrimmable(s[|s| - rest - 2])
  {
    var k := |s| - 1 - rest;
    assert s[..|s| - 1][k..] == s[k..|s| - 1];
    assert s[k..] == s[k..|s| - 1] + [s[|s| - 1]];
    AllTrimmableAppend(s[k..|s| - 1], [s[|s| - 1]]);
  }

  /** The number of trimmable characters at the front of `s`. */
  function LeadingTrimmable(s: string): (n: nat)
    ensures n <= |s|
    ensures AllTrimmable(s[..n])
    ensures n < |s| ==> !IsTrimmable(s[n])
    decreases |s|
  {
    if |s| > 0 && IsTrimmable(s[0]) then
      var rest := LeadingTrimmable(s[1..]);
      LeadingStep(s, rest);
      1 + rest
    else 0
  }

  /** The number of trimmable characters at the end of `s`. */
  function TrailingTrimmable(s: string): (n: nat)
    ensures n <= |s|
    ensures AllTrimmable(s[|s| - n..])
    ensures n < |s| ==> !IsTrimmable(s[|s| - n - 1])
    decreases |s|
  {
    if |s| > 0 && IsTrimmable(s[|s| - 1]) then
      var rest := TrailingTrimmable(s[..|s| - 1]);
      TrailingStep(s, rest);
      1 + rest
    else 0
  }

  /**
   * `s.trim()`: the result is a contiguous piece of `s` that neither starts
   * nor ends with a trimmable character, and everything cut away on either
   * side is trimmable.
   */
  function Trim(s: string): (t: string)
    ensures exists i, j :: 0 <= i <= j <= |s| && t == s[i..j] && AllTrimmable(s[..i]) && AllTrimmable(s[j..])
    ensures |t| > 0 ==> !IsTrimmable(t[0]) && !IsTrimmable(t[|t| - 1])
  {
    var front := LeadingTrimmable(s);
    var back := TrailingTrimmable(s[front..]);
    SlicesOfSuffix(s, front, back);
    var t := s[front..|s| - back];
    assert AllTrimmable(s[..front]) && AllTrimmable(s[|s| - back..]);
    assert 0 <= front <= |s| - back <= |s| && t == s[front..|s| - back];
    t
  }

  /** Cutting `back` characters off the suffix from `front` is slicing `s` itself. */
  lemma SlicesOfSuffix(s: string, front: nat, back: nat)
    requires front <= |s| && back <= |s| - front
    ensures s[front..][..|s| - front - back] == s[front..|s| - back]
    ensures s[front..][|s| - front - back..] == s[|s| - back..]
  {
  }

  /** An all-trimmable string is trimmable from the front all the way through. */
  lemma {:induction false} AllTrimmableLeading(s: string)
    requires AllTrimmable(s)
    ensures LeadingTrimmable(s) == |s|
    decreases |s|
  {
    if |s| > 0 {
      assert IsTrimmable(s[0]);
      assert AllTrimmable(s[1..]) by {
        forall k | 0 <= k < |s| - 1 ensures IsTrimmable(s[1..][k]) {
          assert s[1..][k] == s[k + 1];
        }
      }
      AllTrimmableLeading(s[1..]);
    }
  }

  /** An all-trimmable input trims to the empty string. */
  lemma TrimOfAllTrimmable(s: string)
    requires AllTrimmable(s)
    ensures Trim(s) == ""
  {
    AllTrimmableLeading(s);
  }

  /** Only an all-trimmable input trims to the empty string. */
  lemma AllTrimmableOfTrimEmpty(s: string)
    requires Trim(s) == ""
    ensures AllTrimmable(s)
  {
    var front := LeadingTrimmable(s);
    var rest := s[front..];
    var back := TrailingTrimmable(rest);
    SlicesOfSuffix(s, front, back);
    assert Trim(s) == s[front..|s| - back];
    assert back == |rest|;
    assert rest[|rest| - back..] == rest;
    assert front == |s|;
    assert s[..front] == s;
  }

  /** Trimming yields the empty string exactly when the input is all trimmable characters. */
  lemma TrimEmptyIff(s: string)
    ensures Trim(s) == "" <==> AllTrimmable(s)
  {
    if AllTrimmable(s) {
      TrimOfAllTrimmable(s);
    }
    if Trim(s) == "" {
      AllTrimmableOfTrimEmpty(s);
    }
  }

  /** Trimming twice is the same as trimming once. */
  lemma TrimIdempotent(s: string)
    ensures Trim(Trim(s)) == Trim(s)
  {
    var t := Trim(s);
    if |t| > 0 {
      assert LeadingTrimmable(t) == 0;
      assert t[0..] == t;
      assert TrailingTrimmable(t) == 0;
    }
  }
}
