/** The few Python string operations the core relies on: truthiness of an
    optional string, `str.isspace`, `str.strip`, ASCII `str.lower`,
    `sep.join(parts)`, and a splitter that undoes the join. */
module Text {
  import opened Wrappers

  /** Python truthiness of `os.getenv(...)`: `not v` holds for `None` and `""`. */
  predicate IsSet(v: Option<string>) {
    v.Some? && v.value != ""
  }

  /** Python's `str.isspace` on one character: the ASCII whitespace and
      separator controls and the Unicode space separators. */
  predicate IsSpace(c: char) {
    || c == ' '
    || '\t' <= c <= '\r'
    || '\U{1c}' <= c <= '\U{1f}'
    || c == '\U{85}' || c == '\U{a0}' || c == '\U{1680}'
    || '\U{2000}' <= c <= '\U{200a}'
    || c == '\U{2028}' || c == '\U{2029}' || c == '\U{202f}'
    || c == '\U{205f}' || c == '\U{3000}'
  }

  predicate AllSpace(s: string) {
    forall c | c in s :: IsSpace(c)
  }

  /** `s.lstrip()`: the longest suffix of `s` that does not start with whitespace,
      whatever precedes it being all whitespace. */
  function StripLeading(s: string): (r: string)
    ensures |r| <= |s| && r == s[|s| - |r|..]
    ensures AllSpace(s[..|s| - |r|])
    ensures r == [] || !IsSpace(r[0])
    decreases |s|
  {
    if s != [] && IsSpace(s[0]) then
      var r := StripLeading(s[1..]);
      assert s[..|s| - |r|] == [s[0]] + s[1..][..|s| - 1 - |r|];
      r
    else
      s
  }

  /** `s.rstrip()`: the longest prefix of `s` that does not end with whitespace,
      whatever follows it being all whitespace. */
  function StripTrailing(s: string): (r: string)
    ensures |r| <= |s| && r == s[..|r|]
    ensures AllSpace(s[|r|..])
    ensures r == [] || !IsSpace(r[|r| - 1])
    decreases |s|
  {
    if s != [] && IsSpace(s[|s| - 1]) then
      var r := StripTrailing(s[..|s| - 1]);
      assert s[|r|..] == s[..|s| - 1][|r|..] + [s[|s| - 1]];
      r
    else
      s
  }

  /** `s.strip()`. */
  function Strip(s: string): string {
    StripTrailing(StripLeading(s))
  }

  lemma {:induction false} LeadingOfAllSpace(s: string)
    requires AllSpace(s)
    ensures StripLeading(s) == []
    decreases |s|
  {
    if s != [] {
      assert s[0] in s;
      LeadingOfAllSpace(s[1..]);
    }
  }

  /** Stripping removes exactly the whitespace padding around a word that
      neither starts nor ends with whitespace. */
  lemma StripPadded(pre: string, w: string, post: string)
    requires AllSpace(pre) && AllSpace(post)
    requires w == [] || (!IsSpace(w[0]) && !IsSpace(w[|w| - 1]))
    ensures Strip(pre + w + post) == w
  {
    if w == [] {
      var s := pre + w + post;
      assert s == pre + post;
      forall c | c in s ensures IsSpace(c) {
        assert c in pre || c in post;
      }
      LeadingOfAllSpace(s);
    } else {
      assert StripLeading(pre + w + post) == w + post by {
        assert pre + w + post == pre + (w + post);
        LeadingOfPadded(pre, w + post);
      }
      TrailingOfPadded(w, post);
    }
  }

  lemma LeadingOfPadded(pre: string, t: string)
    requires AllSpace(pre)
    requires t != [] && !IsSpace(t[0])
    ensures StripLeading(pre + t) == t
  {
    var s := pre + t;
    var l := StripLeading(s);
    var n := |s| - |l|;
    assert forall i :: 0 <= i < n ==> IsSpace(s[i]) by {
      forall i | 0 <= i < n ensures IsSpace(s[i]) {
        assert s[..n][i] in s[..n];
      }
    }
    assert forall i :: 0 <= i < |pre| ==> IsSpace(s[i]) by {
      forall i | 0 <= i < |pre| ensures IsSpace(s[i]) {
        assert s[i] == pre[i] && pre[i] in pre;
      }
    }
    assert !IsSpace(s[|pre|]);
    assert n == |pre|;
  }

  lemma TrailingOfPadded(w: string, post: string)
    requires AllSpace(post)
    requires w != [] && !IsSpace(w[|w| - 1])
    ensures StripTrailing(w + post) == w
  {
    var l := w + post;
    var t := StripTrailing(l);
    assert forall i :: |t| <= i < |l| ==> IsSpace(l[i]) by {
      forall i | |t| <= i < |l| ensures IsSpace(l[i]) {
        assert l[|t|..][i - |t|] in l[|t|..];
      }
    }
    assert forall i :: |w| <= i < |l| ==> IsSpace(l[i]) by {
      forall i | |w| <= i < |l| ensures IsSpace(l[i]) {
        assert l[i] == post[i - |w|] && post[i - |w|] in post;
      }
    }
    assert !IsSpace(l[|w| - 1]);
    assert |t| == |w|;
  }

  /** ASCII `str.lower` on one character. */
  function LowerChar(c: char): char {
    if 'A' <= c <= 'Z' then (c as int + 32) as char else c
  }

  /** `s.lower()`, character by character. */
  function Lower(s: string): string {
    seq(|s|, i requires 0 <= i < |s| => LowerChar(s[i]))
  }

  /** `sep.join(parts)`. */
  function Join(sep: string, parts: seq<string>): string {
    if |parts| == 0 then ""
    else if |parts| == 1 then parts[0]
    else parts[0] + sep + Join(sep, parts[1..])
  }

  /** The pieces of `s` between occurrences of `c` (Python's `s.split(c)`). */
  function Split(s: string, c: char): (r: seq<string>)
    ensures |r| >= 1
    decreases |s|
  {
    if |s| == 0 then [""]
    else if s[0] == c then [""] + Split(s[1..], c)
    else
      var rest := Split(s[1..], c);
      [[s[0]] + rest[0]] + rest[1..]
  }

  lemma {:induction false} SplitWithout(p: string, c: char)
    requires c !in p
    ensures Split(p, c) == [p]
    decreases |p|
  {
    if p != [] {
      SplitWithout(p[1..], c);
      assert [p[0]] + p[1..] == p;
    }
  }

  lemma {:induction false} SplitAfterPiece(p: string, c: char, t: string)
    requires c !in p
    ensures Split(p + [c] + t, c) == [p] + Split(t, c)
    decreases |p|
  {
    var s := p + [c] + t;
    if p == [] {
      assert s[1..] == t;
    } else {
      assert s[1..] == p[1..] + [c] + t;
      SplitAfterPiece(p[1..], c, t);
      assert [p[0]] + p[1..] == p;
    }
  }

  /** Splitting a newline join on the separator gives back the parts, as long as
      no part contains the separator. */
  lemma {:induction false} SplitJoin(parts: seq<string>, c: char)
    requires |parts| >= 1
    requires forall i :: 0 <= i < |parts| ==> c !in parts[i]
    ensures Split(Join([c], parts), c) == parts
  {
    if |parts| == 1 {
      SplitWithout(parts[0], c);
    } else {
      SplitJoin(parts[1..], c);
      SplitAfterPiece(parts[0], c, Join([c], parts[1..]));
      assert [parts[0]] + parts[1..] == parts;
    }
  }
  /** Lexicographic order on strings by code point, the order Postgres uses on
      ISO `YYYY-MM-DD` dates. */
  predicate LexLess(a: string, b: string)
    decreases |a|
  {
    if a == [] then b != []
    else if b == [] then false
    else a[0] < b[0] || (a[0] == b[0] && LexLess(a[1..], b[1..]))
  }

  lemma {:induction false} LexLessIrreflexive(a: string)
    ensures !LexLess(a, a)
    decreases |a|
  {
    if a != [] {
      LexLessIrreflexive(a[1..]);
    }
  }

  lemma {:induction false} LexLessTransitive(a: string, b: string, c: string)
    requires LexLess(a, b) && LexLess(b, c)
    ensures LexLess(a, c)
    decreases |a|
  {
    if a != [] && a[0] == b[0] && b[0] == c[0] {
      LexLessTransitive(a[1..], b[1..], c[1..]);
    }
  }

  lemma {:induction false} LexLessTotal(a: string, b: string)
    requires a != b
    ensures LexLess(a, b) || LexLess(b, a)
    decreases |a|
  {
    if a != [] && b != [] && a[0] == b[0] {
      assert a[1..] != b[1..] by {
        assert a == [a[0]] + a[1..] && b == [b[0]] + b[1..];
      }
      LexLessTotal(a[1..], b[1..]);
    }
  }

  /** Comparing two concatenations whose first parts have equal length
      compares the first parts, then the second parts. */
  lemma {:induction false} LexLessAppend(x: string, y: string, x2: string, y2: string)
    requires |x| == |x2|
    ensures LexLess(x + y, x2 + y2) <==> LexLess(x, x2) || (x == x2 && LexLess(y, y2))
    decreases |x|
  {
    if x != [] {
      assert (x + y)[1..] == x[1..] + y && (x2 + y2)[1..] == x2[1..] + y2;
      LexLessAppend(x[1..], y, x2[1..], y2);
      assert x == [x[0]] + x[1..] && x2 == [x2[0]] + x2[1..];
    } else {
      assert x + y == y && x2 + y2 == y2;
    }
  }
}
