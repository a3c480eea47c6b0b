/**
 * The JavaScript string built-ins the core relies on: `trim`, `startsWith`,
 * `endsWith`, `split` on one character and `join`. Characters are Unicode
 * scalar values; every character these operations inspect lies in the Basic
 * Multilingual Plane, where a scalar value and a UTF-16 code unit coincide.
 */
module Strings {

  /**
   * The characters `String.prototype.trim` removes: the ECMAScript
   * WhiteSpace and LineTerminator productions (tab, vertical tab, form feed,
   * space, no-break space, byte order mark, every Space_Separator, line feed,
   * carriage return, line and paragraph separators).
   */
  predicate IsWhitespace(c: char) {
    || c == '\t' || c == '\n' || c == '\U{000B}' || c == '\U{000C}' || c == '\r'
    || c == ' ' || c == '\U{00A0}' || c == '\U{1680}'
    || ('\U{2000}' <= c <= '\U{200A}')
    || c == '\U{2028}' || c == '\U{2029}' || c == '\U{202F}' || c == '\U{205F}'
    || c == '\U{3000}' || c == '\U{FEFF}'
  }

  predicate AllWhitespace(s: string) {
    forall k :: 0 <= k < |s| ==> IsWhitespace(s[k])
  }

  /** `s` with its leading whitespace removed. */
  function TrimStart(s: string): (r: string)
    ensures |r| <= |s|
    decreases |s|
  {
    if s != "" && IsWhitespace(s[0]) then TrimStart(s[1..]) else s
  }

  /** `s` with its trailing whitespace removed. */
  function TrimEnd(s: string): (r: string)
    ensures |r| <= |s|
    decreases |s|
  {
    if s != "" && IsWhitespace(s[|s| - 1]) then TrimEnd(s[..|s| - 1]) else s
  }

  /** `String.prototype.trim`. */
  function Trim(s: string): (r: string)
    ensures |r| <= |s|
  {
    TrimEnd(TrimStart(s))
  }

  /** Trimming the start removes a whitespace prefix and stops at a non-whitespace character. */
  lemma {:induction false} TrimStartSpec(s: string)
    ensures var r := TrimStart(s);
      && r == s[|s| - |r|..]
      && AllWhitespace(s[..|s| - |r|])
      && (r != "" ==> !IsWhitespace(r[0]))
    decreases |s|
  {
    if s != "" && IsWhitespace(s[0]) {
      var r := TrimStart(s[1..]);
      TrimStartSpec(s[1..]);
      assert s[1..][|s| - 1 - |r|..] == s[|s| - |r|..];
      assert s[..|s| - |r|] == [s[0]] + s[1..][..|s| - 1 - |r|];
    }
  }

  /** Trimming the end removes a whitespace suffix and stops at a non-whitespace character. */
  lemma {:induction false} TrimEndSpec(s: string)
    ensures var r := TrimEnd(s);
      && r == s[..|r|]
      && AllWhitespace(s[|r|..])
      && (r != "" ==> !IsWhitespace(r[|r| - 1]))
    decreases |s|
  {
    if s != "" && IsWhitespace(s[|s| - 1]) {
      var t := s[..|s| - 1];
      var r := TrimEnd(t);
      TrimEndSpec(t);
      assert t[..|r|] == s[..|r|];
      assert s[|r|..] == t[|r|..] + [s[|s| - 1]];
    }
  }

  /** Trimming leaves nothing exactly for an all-whitespace string, and otherwise stops at non-whitespace on both ends. */
  lemma TrimSpec(s: string)
    ensures Trim(s) == "" <==> AllWhitespace(s)
    ensures Trim(s) != "" ==> !IsWhitespace(Trim(s)[0]) && !IsWhitespace(Trim(s)[|Trim(s)| - 1])
  {
    var t := TrimStart(s);
    var r := TrimEnd(t);
    TrimStartSpec(s);
    TrimEndSpec(t);
    assert s == s[..|s| - |t|] + t;
    if r != "" {
      assert r[0] == t[0];
    }
    if r == "" {
      assert t == t[|r|..];
    }
  }

  /** Trimming twice changes nothing more than trimming once. */
  lemma TrimIdempotent(s: string)
    ensures Trim(Trim(s)) == Trim(s)
  {
    var t := Trim(s);
    TrimSpec(s);
    if t != "" {
      assert TrimStart(t) == t;
      assert TrimEnd(t) == t;
    }
  }

  /** `String.prototype.startsWith`. */
  predicate StartsWith(s: string, prefix: string) {
    |prefix| <= |s| && s[..|prefix|] == prefix
  }

  /** `String.prototype.endsWith`. */
  predicate EndsWith(s: string, suffix: string) {
    |suffix| <= |s| && s[|s| - |suffix|..] == suffix
  }

  /** Number of occurrences of `c` in `s`. */
  function Count(s: string, c: char): nat {
    if s == "" then 0 else (if s[0] == c then 1 else 0) + Count(s[1..], c)
  }

  /**
   * `s.split(sep)` for a one-character separator: the maximal pieces between
   * separators, always at least one (`"".split("\n")` is `[""]`).
   */
  function Split(s: string, sep: char): (r: seq<string>)
    ensures |r| >= 1
    ensures forall i :: 0 <= i < |r| ==> sep !in r[i]
    decreases |s|
  {
    if s == "" then [""]
    else
      var rest := Split(s[1..], sep);
      if s[0] == sep then [""] + rest
      else [[s[0]] + rest[0]] + rest[1..]
  }

  /** `xs.join(sep)`; the empty list joins to `""`. */
  function Join(xs: seq<string>, sep: string): string
    decreases |xs|
  {
    if xs == [] then ""
    else if |xs| == 1 then xs[0]
    else xs[0] + sep + Join(xs[1..], sep)
  }

  /** A string with k separators splits into k + 1 pieces. */
  lemma {:induction false} SplitCount(s: string, sep: char)
    ensures |Split(s, sep)| == Count(s, sep) + 1
    decreases |s|
  {
    if s != "" {
      SplitCount(s[1..], sep);
    }
  }

  /** Joining the pieces with the separator gives back the string. */
  lemma {:induction false} JoinSplit(s: string, sep: char)
    ensures Join(Split(s, sep), [sep]) == s
    decreases |s|
  {
    if s != "" {
      var rest := Split(s[1..], sep);
      JoinSplit(s[1..], sep);
      if s[0] == sep {
        assert ([""] + rest)[1..] == rest;
      } else {
        var r := [[s[0]] + rest[0]] + rest[1..];
        if |rest| > 1 {
          assert r[1..] == rest[1..];
        }
      }
    }
  }

  /** Splitting a separator-free prefix onto what follows it. */
  lemma {:induction false} SplitFreePrefix(x: string, t: string, sep: char)
    requires sep !in x
    ensures Split(x + t, sep) == [x + Split(t, sep)[0]] + Split(t, sep)[1..]
    decreases |x|
  {
    var st := Split(t, sep);
    if x == "" {
      assert x + t == t && x + st[0] == st[0];
      assert [st[0]] + st[1..] == st;
    } else {
      assert (x + t)[0] == x[0] && (x + t)[1..] == x[1..] + t;
      SplitFreePrefix(x[1..], t, sep);
      var rest := Split(x[1..] + t, sep);
      assert rest == [x[1..] + st[0]] + st[1..];
      assert Split(x + t, sep) == [[x[0]] + rest[0]] + rest[1..];
      assert [x[0]] + (x[1..] + st[0]) == x + st[0];
    }
  }

  /** Splitting separator-free pieces joined by the separator gives them back. */
  lemma {:induction false} SplitJoin(xs: seq<string>, sep: char)
    requires xs != []
    requires forall i :: 0 <= i < |xs| ==> sep !in xs[i]
    ensures Split(Join(xs, [sep]), sep) == xs
    decreases |xs|
  {
    if |xs| == 1 {
      SplitFreePrefix(xs[0], "", sep);
      assert xs[0] + "" == xs[0];
    } else {
      var t := Join(xs[1..], [sep]);
      SplitJoin(xs[1..], sep);
      assert xs[0] + [sep] + t == xs[0] + ([sep] + t);
      SplitFreePrefix(xs[0], [sep] + t, sep);
      assert ([sep] + t)[1..] == t;
      assert xs[0] + "" == xs[0];
    }
  }

  /** Joining two non-empty lists is joining their joins. */
  lemma {:induction false} JoinAppend(a: seq<string>, b: seq<string>, sep: string)
    requires a != [] && b != []
    ensures Join(a + b, sep) == Join(a, sep) + sep + Join(b, sep)
    decreases |a|
  {
    if |a| == 1 {
      assert (a + b)[1..] == b;
    } else {
      JoinAppend(a[1..], b, sep);
      assert (a + b)[1..] == a[1..] + b;
    }
  }
}
