/**
  The two JavaScript string built-ins of the formatter's line filter (popup.js:245), as
  functions on `seq<char>`: `String.prototype.trim` (through the blank-line test) and
  `String.prototype.split` with a one-character separator, together with the `join`
  that undoes `split`. The extractor's `substring` (popup.js:128) is the slice in
  `PageExtractor.Truncate`.
 */
module JsText {
  import opened Wrappers

  /** JavaScript truthiness of a value that is a string or `null`/`undefined`: present
      and not the empty string. */
  predicate Truthy(v: Option<string>) {
    v.Some? && v.value != ""
  }

  /** The characters `trim` removes: WhiteSpace and LineTerminator of ECMA-262
      (sections 12.2 and 12.3), the space separators being those of Unicode 15. */
  predicate IsWhitespace(c: char) {
    || c == '\t' || c == '\n' || c == '\U{000B}' || c == '\U{000C}' || c == '\r'
    || c == ' ' || c == '\U{00A0}' || c == '\U{1680}'
    || ('\U{2000}' <= c <= '\U{200A}')
    || c == '\U{2028}' || c == '\U{2029}' || c == '\U{202F}' || c == '\U{205F}'
    || c == '\U{3000}' || c == '\U{FEFF}'
  }

  predicate AllWhitespace(s: string) {
    forall i :: 0 <= i < |s| ==> IsWhitespace(s[i])
  }

  /** `s` with its leading whitespace removed. */
  function TrimStart(s: string): string {
    if |s| > 0 && IsWhitespace(s[0]) then TrimStart(s[1..]) else s
  }

  /** `s` with its trailing whitespace removed. */
  function TrimEnd(s: string): string {
    if |s| > 0 && IsWhitespace(s[|s| - 1]) then TrimEnd(s[..|s| - 1]) else s
  }

  /** `TrimStart` drops a whitespace-only prefix and stops at the first other character. */
  lemma {:induction false} TrimStartSpec(s: string)
    ensures exists k :: 0 <= k <= |s| && TrimStart(s) == s[k..] && AllWhitespace(s[..k])
    ensures TrimStart(s) == [] || !IsWhitespace(TrimStart(s)[0])
  {
    if |s| > 0 && IsWhitespace(s[0]) {
      TrimStartSpec(s[1..]);
      var r := TrimStart(s[1..]);
      var k :| 0 <= k <= |s[1..]| && r == s[1..][k..] && AllWhitespace(s[1..][..k]);
      assert r == s[k + 1..];
      assert AllWhitespace(s[..k + 1]) by {
        forall i | 0 <= i < k + 1 ensures IsWhitespace(s[i]) {
          if i > 0 { assert s[i] == s[1..][..k][i - 1]; }
        }
      }
    } else {
      assert s == s[0..];
    }
  }

  /** `TrimEnd` drops a whitespace-only suffix and stops at the last other character. */
  lemma {:induction false} TrimEndSpec(s: string)
    ensures exists k :: 0 <= k <= |s| && TrimEnd(s) == s[..k] && AllWhitespace(s[k..])
    ensures TrimEnd(s) == [] || !IsWhitespace(TrimEnd(s)[|TrimEnd(s)| - 1])
  {
    if |s| > 0 && IsWhitespace(s[|s| - 1]) {
      var init := s[..|s| - 1];
      TrimEndSpec(init);
      var r := TrimEnd(init);
      var k :| 0 <= k <= |init| && r == init[..k] && AllWhitespace(init[k..]);
      assert r == s[..k];
      assert AllWhitespace(s[k..]) by {
        forall i | 0 <= i < |s| - k ensures IsWhitespace(s[k..][i]) {
          if i < |s| - 1 - k { assert s[k..][i] == init[k..][i]; }
        }
      }
    } else {
      assert s == s[..|s|];
    }
  }

  /** `String.prototype.trim`. */
  function Trim(s: string): string {
    TrimEnd(TrimStart(s))
  }

  /** The formatter's test `line.trim().length > 0`, negated. */
  predicate IsBlank(s: string) {
    |Trim(s)| == 0
  }

  lemma TrimStartEmpty(s: string)
    ensures |TrimStart(s)| == 0 <==> AllWhitespace(s)
  {
    TrimStartSpec(s);
    var t := TrimStart(s);
    var k :| 0 <= k <= |s| && t == s[k..] && AllWhitespace(s[..k]);
    if |t| == 0 {
      assert s == s[..k];
    } else {
      assert s[k] == t[0];
    }
  }

  lemma TrimEndEmpty(s: string)
    ensures |TrimEnd(s)| == 0 <==> AllWhitespace(s)
  {
    TrimEndSpec(s);
    var t := TrimEnd(s);
    var k :| 0 <= k <= |s| && t == s[..k] && AllWhitespace(s[k..]);
    if |t| == 0 {
      assert s == s[k..];
    } else {
      assert s[k - 1] == t[|t| - 1];
    }
  }

  /** A line is blank exactly when every one of its characters is whitespace. */
  lemma BlankIffAllWhitespace(s: string)
    ensures IsBlank(s) <==> AllWhitespace(s)
  {
    var t := TrimStart(s);
    TrimStartEmpty(s);
    TrimEndEmpty(t);
    TrimStartSpec(s);
    if |t| > 0 {
      assert !IsWhitespace(t[0]);
    }
  }

  /** `parts` joined with `sep` between neighbours: `parts.join(sep)`. */
  function Join(parts: seq<string>, sep: char): string
    requires |parts| >= 1
  {
    if |parts| == 1 then parts[0] else parts[0] + [sep] + Join(parts[1..], sep)
  }

  /** `s.split(sep)` for a one-character separator: the maximal pieces between
      separators, at least one of them. */
  function Split(s: string, sep: char): (r: seq<string>)
    ensures |r| >= 1
  {
    if |s| == 0 then
      [""]
    else
      var rest := Split(s[1..], sep);
      if s[0] == sep then [""] + rest
      else [[s[0]] + rest[0]] + rest[1..]
  }

  /** No piece holds a separator, and joined back with it the pieces give `s`. */
  lemma {:induction false} SplitSpec(s: string, sep: char)
    ensures Join(Split(s, sep), sep) == s
    ensures forall i :: 0 <= i < |Split(s, sep)| ==> sep !in Split(s, sep)[i]
  {
    if |s| > 0 {
      var rest := Split(s[1..], sep);
      SplitSpec(s[1..], sep);
      assert s == [s[0]] + s[1..];
      if s[0] != sep {
        var r := Split(s, sep);
        assert r == [[s[0]] + rest[0]] + rest[1..];
        assert r[1..] == rest[1..];
        forall i | 0 < i < |r| ensures sep !in r[i] {
          assert r[i] == rest[i];
        }
      }
    }
  }

  lemma {:induction false} JoinAppend(a: seq<string>, b: seq<string>, sep: char)
    requires |a| >= 1 && |b| >= 1
    ensures Join(a + b, sep) == Join(a, sep) + [sep] + Join(b, sep)
  {
    if |a| == 1 {
      assert (a + b)[1..] == b;
    } else {
      assert (a + b)[1..] == a[1..] + b;
      JoinAppend(a[1..], b, sep);
    }
  }

  /** A join seen around one of its parts: everything before it, a separator, the part
      itself, a separator, everything after it. */
  lemma JoinAround(parts: seq<string>, k: nat, sep: char)
    requires 0 < k < |parts| - 1
    ensures Join(parts, sep) == Join(parts[..k], sep) + [sep] + parts[k] + [sep] + Join(parts[k + 1..], sep)
  {
    assert parts == parts[..k] + ([parts[k]] + parts[k + 1..]);
    JoinAppend(parts[..k], [parts[k]] + parts[k + 1..], sep);
    assert ([parts[k]] + parts[k + 1..])[1..] == parts[k + 1..];
  }

  /** `split` undoes `join`: pieces without a separator come back unchanged. */
  lemma {:induction false} SplitJoin(parts: seq<string>, sep: char)
    requires |parts| >= 1
    requires forall i :: 0 <= i < |parts| ==> sep !in parts[i]
    ensures Split(Join(parts, sep), sep) == parts
  {
    if |parts| == 1 {
      SplitNoSeparator(parts[0], sep);
    } else {
      SplitJoin(parts[1..], sep);
      SplitPrefix(parts[0], Join(parts[1..], sep), sep);
    }
  }

  lemma {:induction false} SplitNoSeparator(s: string, sep: char)
    requires sep !in s
    ensures Split(s, sep) == [s]
  {
    if |s| > 0 {
      assert sep !in s[1..] by { assert forall i :: 0 <= i < |s| - 1 ==> s[1..][i] == s[i + 1]; }
      SplitNoSeparator(s[1..], sep);
      assert [s[0]] + s[1..] == s;
    }
  }

  lemma {:induction false} SplitPrefix(p: string, t: string, sep: char)
    requires sep !in p
    ensures Split(p + [sep] + t, sep) == [p] + Split(t, sep)
  {
    if |p| == 0 {
      assert (p + [sep] + t)[1..] == t;
    } else {
      assert (p + [sep] + t)[1..] == p[1..] + [sep] + t;
      assert sep !in p[1..] by { assert forall i :: 0 <= i < |p| - 1 ==> p[1..][i] == p[i + 1]; }
      SplitPrefix(p[1..], t, sep);
      assert [p[0]] + p[1..] == p;
    }
  }

  /** Splitting at one separator splits each side on its own. */
  lemma SplitConcat(a: string, b: string, sep: char)
    ensures Split(a + [sep] + b, sep) == Split(a, sep) + Split(b, sep)
  {
    var sa, sb := Split(a, sep), Split(b, sep);
    SplitSpec(a, sep);
    SplitSpec(b, sep);
    JoinAppend(sa, sb, sep);
    forall i | 0 <= i < |sa + sb| ensures sep !in (sa + sb)[i] {
      if i >= |sa| { assert (sa + sb)[i] == sb[i - |sa|]; }
    }
    SplitJoin(sa + sb, sep);
  }
}
