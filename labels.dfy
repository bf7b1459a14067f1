/** The label clean-up that `set_vote_options` applies before touching the
    database: every submitted label is stripped of surrounding whitespace,
    and labels that are empty or whitespace-only are dropped. */
module Labels {

  /** Python's `str.isspace` on one character: the characters that
      `str.strip()` with no argument removes. */
  predicate IsSpace(c: char) {
    var n := c as int;
    || 0x09 <= n <= 0x0D
    || 0x1C <= n <= 0x20
    || n == 0x85
    || n == 0xA0
    || n == 0x1680
    || 0x2000 <= n <= 0x200A
    || n == 0x2028
    || n == 0x2029
    || n == 0x202F
    || n == 0x205F
    || n == 0x3000
  }

  predicate AllSpace(s: string) {
    forall i :: 0 <= i < |s| ==> IsSpace(s[i])
  }

  /** `s` has no surrounding whitespace: `s.strip() == s` (StripOfStripped). */
  predicate Stripped(s: string) {
    s == [] || (!IsSpace(s[0]) && !IsSpace(s[|s| - 1]))
  }

  /** A label that survives the filter as it is: non-empty, with no
      surrounding whitespace. */
  predicate Clean(s: string) {
    s != [] && Stripped(s)
  }

  /** The number of whitespace characters `s.lstrip()` removes. */
  function LeadingSpace(s: string): (n: nat)
    ensures n <= |s|
    ensures forall k :: 0 <= k < n ==> IsSpace(s[k])
    ensures n < |s| ==> !IsSpace(s[n])
  {
    if s != [] && IsSpace(s[0]) then 1 + LeadingSpace(s[1..]) else 0
  }

  /** The number of whitespace characters `s.rstrip()` removes. */
  function TrailingSpace(s: string): (n: nat)
    ensures n <= |s|
    ensures forall k :: |s| - n <= k < |s| ==> IsSpace(s[k])
    ensures n < |s| ==> !IsSpace(s[|s| - 1 - n])
  {
    if s != [] && IsSpace(s[|s| - 1]) then 1 + TrailingSpace(s[..|s| - 1]) else 0
  }

  /** `s.strip()`: the result neither starts nor ends with whitespace, and it
      is empty exactly when `s` is whitespace only. */
  function Strip(s: string): (r: string)
    ensures |r| <= |s|
    ensures Stripped(r)
    ensures r == [] <==> AllSpace(s)
  {
    var i := LeadingSpace(s);
    var t := s[i..];
    t[..|t| - TrailingSpace(t)]
  }

  /** What `s.strip()` removes is whitespace: `s` is the result with
      whitespace before and after it. */
  lemma StripIsInfix(s: string)
    ensures exists i :: 0 <= i <= |s| - |Strip(s)| && Strip(s) == s[i..i + |Strip(s)|]
                        && AllSpace(s[..i]) && AllSpace(s[i + |Strip(s)|..])
  {
    var i := LeadingSpace(s);
    var t := s[i..];
    var r := Strip(s);
    assert r == s[i..i + |r|];
    assert AllSpace(s[..i]);
    assert s[i + |r|..] == t[|r|..];
  }

  /** `strip()` of a label padded with whitespace on either side is the
      label itself. */
  lemma StripPadded(pre: string, core: string, post: string)
    requires AllSpace(pre) && AllSpace(post)
    requires Clean(core)
    ensures Strip(pre + core + post) == core
  {
    var s := pre + core + post;
    var i := LeadingSpace(s);
    assert !IsSpace(s[|pre|]) by { assert s[|pre|] == core[0]; }
    assert forall k :: 0 <= k < |pre| ==> IsSpace(s[k]) by {
      assert forall k :: 0 <= k < |pre| ==> s[k] == pre[k];
    }
    var t := s[i..];
    assert t == core + post;
    var j := TrailingSpace(t);
    assert !IsSpace(t[|core| - 1]) by { assert t[|core| - 1] == core[|core| - 1]; }
    assert forall k :: |core| <= k < |t| ==> IsSpace(t[k]) by {
      assert forall k :: |core| <= k < |t| ==> t[k] == post[k - |core|];
    }
    assert t[..|t| - j] == core;
  }

  lemma StripOfStripped(s: string)
    requires Stripped(s)
    ensures Strip(s) == s
  {
    assert LeadingSpace(s) == 0;
    assert TrailingSpace(s) == 0;
  }

  /** Stripping twice is the same as stripping once. */
  lemma StripIdempotent(s: string)
    ensures Strip(Strip(s)) == Strip(s)
  {
    StripOfStripped(Strip(s));
  }

  /** The part of the comprehension's output that one label contributes. */
  function Kept(l: string): seq<string> {
    if Strip(l) == [] then [] else [Strip(l)]
  }

  /** `[l.strip() for l in labels if l and l.strip()]`, in submission order
      (UsableLabelsClean, UsableLabelsMembers). */
  function UsableLabels(labels: seq<string>): (r: seq<string>)
    ensures |r| <= |labels|
  {
    if labels == [] then [] else Kept(labels[0]) + UsableLabels(labels[1..])
  }

  /** Every usable label is non-empty and has no surrounding whitespace. */
  lemma {:induction false} UsableLabelsClean(labels: seq<string>)
    ensures forall i :: 0 <= i < |UsableLabels(labels)| ==> Clean(UsableLabels(labels)[i])
  {
    if labels != [] {
      UsableLabelsClean(labels[1..]);
      var head, tail := Kept(labels[0]), UsableLabels(labels[1..]);
      assert UsableLabels(labels) == head + tail;
      forall i | 0 <= i < |head + tail|
        ensures Clean((head + tail)[i])
      {
        if i >= |head| {
          assert (head + tail)[i] == tail[i - |head|];
        }
      }
    }
  }

  /** A whitespace-only label contributes nothing. */
  lemma {:induction false} BlankLabelDropped(blank: string, rest: seq<string>)
    requires AllSpace(blank)
    ensures UsableLabels([blank] + rest) == UsableLabels(rest)
  {
    assert ([blank] + rest)[1..] == rest;
  }

  /** A label with whitespace around it contributes the label alone. */
  lemma {:induction false} PaddedLabelKept(pre: string, core: string, post: string, rest: seq<string>)
    requires AllSpace(pre) && AllSpace(post)
    requires Clean(core)
    ensures UsableLabels([pre + core + post] + rest) == [core] + UsableLabels(rest)
  {
    StripPadded(pre, core, post);
    assert ([pre + core + post] + rest)[1..] == rest;
  }

  /** The filter works label by label and keeps submission order: the
      labels kept from `a + b` are those kept from `a`, then those kept
      from `b`, duplicates included. */
  lemma {:induction false} UsableLabelsAppend(a: seq<string>, b: seq<string>)
    ensures UsableLabels(a + b) == UsableLabels(a) + UsableLabels(b)
    decreases |a|
  {
    if a == [] {
      assert a + b == b;
    } else {
      var head, tail := Kept(a[0]), a[1..] + b;
      assert UsableLabels(a + b) == head + UsableLabels(tail) by {
        assert (a + b)[0] == a[0] && (a + b)[1..] == tail;
      }
      UsableLabelsAppend(a[1..], b);
      assert head + (UsableLabels(a[1..]) + UsableLabels(b))
          == (head + UsableLabels(a[1..])) + UsableLabels(b);
    }
  }

  /** Every kept label is the stripped form of a submitted label, and every
      submitted label that is not whitespace-only is kept in stripped form. */
  lemma {:induction false} UsableLabelsMembers(labels: seq<string>, x: string)
    ensures x in UsableLabels(labels) <==> x != [] && exists l :: l in labels && Strip(l) == x
  {
    if labels != [] {
      UsableLabelsMembers(labels[1..], x);
      assert UsableLabels(labels) == Kept(labels[0]) + UsableLabels(labels[1..]);
      if x != [] && exists l :: l in labels && Strip(l) == x {
        var l :| l in labels && Strip(l) == x;
        if l != labels[0] {
          assert l in labels[1..];
        }
      }
      if x in UsableLabels(labels[1..]) {
        var l :| l in labels[1..] && Strip(l) == x;
        assert l in labels;
      }
    }
  }

  /** Filtering an already filtered list changes nothing. */
  lemma {:induction false} UsableLabelsIdempotent(labels: seq<string>)
    ensures UsableLabels(UsableLabels(labels)) == UsableLabels(labels)
  {
    UsableLabelsClean(labels);
    UsableLabelsOfClean(UsableLabels(labels));
  }

  /** Labels that are already non-empty and stripped all pass the filter
      unchanged. */
  lemma {:induction false} UsableLabelsOfClean(labels: seq<string>)
    requires forall i :: 0 <= i < |labels| ==> Clean(labels[i])
    ensures UsableLabels(labels) == labels
  {
    if labels != [] {
      StripOfStripped(labels[0]);
      UsableLabelsOfClean(labels[1..]);
      assert labels == [labels[0]] + labels[1..];
    }
  }
}
