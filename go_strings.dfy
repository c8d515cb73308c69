/**
 * The part of Go's `strings` package the program relies on, on `seq<char>`:
 * prefix and suffix tests, whitespace trimming and field splitting by
 * `unicode.IsSpace`, splitting on one separator character, joining,
 * replacing every non-overlapping occurrence, and ASCII lower-casing.
 */
module GoStrings {

  predicate HasPrefix(s: string, p: string) {
    |p| <= |s| && s[..|p|] == p
  }

  predicate HasSuffix(s: string, p: string) {
    |p| <= |s| && s[|s| - |p|..] == p
  }

  /** `strings.Contains`: `sub` occurs somewhere in `s`. */
  predicate Contains(s: string, sub: string)
    decreases |s|
  {
    HasPrefix(s, sub) || (|s| > 0 && Contains(s[1..], sub))
  }

  /** `strings.TrimSuffix`: removes one trailing `suffix` if present. */
  function TrimSuffix(s: string, suffix: string): (r: string)
    ensures HasSuffix(s, suffix) ==> r + suffix == s
    ensures !HasSuffix(s, suffix) ==> r == s
  {
    if HasSuffix(s, suffix) then s[..|s| - |suffix|] else s
  }

  /** `unicode.IsSpace`: the Latin-1 spaces and the other White_Space code points. */
  predicate IsSpace(c: char) {
    var n := c as int;
    (0x09 <= n <= 0x0D) || n == 0x20 || n == 0x85 || n == 0xA0 || n == 0x1680
    || (0x2000 <= n <= 0x200A) || n == 0x2028 || n == 0x2029 || n == 0x202F
    || n == 0x205F || n == 0x3000
  }

  predicate NoSpace(s: string) {
    forall i :: 0 <= i < |s| ==> !IsSpace(s[i])
  }

  predicate AllSpace(s: string) {
    forall i :: 0 <= i < |s| ==> IsSpace(s[i])
  }

  function TrimLeftSpace(s: string): (r: string)
    ensures |r| <= |s| && r == s[|s| - |r|..]
    ensures r == [] || !IsSpace(r[0])
    ensures AllSpace(s[..|s| - |r|])
  {
    if |s| > 0 && IsSpace(s[0]) then
      var r := TrimLeftSpace(s[1..]);
      TrimLeftStep(s, r);
      r
    else s
  }

  /** One leading space removed before the rest is trimmed. */
  lemma TrimLeftStep(s: string, r: string)
    requires |s| > 0 && IsSpace(s[0])
    requires |r| <= |s| - 1 && r == s[1..][|s| - 1 - |r|..]
    requires AllSpace(s[1..][..|s| - 1 - |r|])
    ensures r == s[|s| - |r|..]
    ensures AllSpace(s[..|s| - |r|])
  {
    assert s[1..][|s| - 1 - |r|..] == s[|s| - |r|..];
    var dropped := s[..|s| - |r|];
    var rest := s[1..][..|s| - 1 - |r|];
    forall i | 0 <= i < |dropped|
      ensures IsSpace(dropped[i])
    {
      if i > 0 {
        assert dropped[i] == rest[i - 1];
      }
    }
  }

  function TrimRightSpace(s: string): (r: string)
    ensures |r| <= |s| && r == s[..|r|]
    ensures r == [] || !IsSpace(r[|r| - 1])
    ensures AllSpace(s[|r|..])
  {
    if |s| > 0 && IsSpace(s[|s| - 1]) then
      var r := TrimRightSpace(s[..|s| - 1]);
      TrimRightStep(s, r);
      r
    else s
  }

  /** One trailing space removed before the rest is trimmed. */
  lemma TrimRightStep(s: string, r: string)
    requires |s| > 0 && IsSpace(s[|s| - 1])
    requires |r| <= |s| - 1 && r == s[..|s| - 1][..|r|]
    requires AllSpace(s[..|s| - 1][|r|..])
    ensures r == s[..|r|]
    ensures AllSpace(s[|r|..])
  {
    assert s[..|s| - 1][..|r|] == s[..|r|];
    var dropped := s[|r|..];
    var rest := s[..|s| - 1][|r|..];
    forall i | 0 <= i < |dropped|
      ensures IsSpace(dropped[i])
    {
      if i < |rest| {
        assert dropped[i] == rest[i];
      }
    }
  }

  /** `strings.TrimSpace`: removes leading and trailing white space. */
  function TrimSpace(s: string): (r: string)
    ensures r == [] || (!IsSpace(r[0]) && !IsSpace(r[|r| - 1]))
  {
    TrimRightSpace(TrimLeftSpace(s))
  }

  /** Length of the longest prefix of `s` without white space. */
  function WordLength(s: string): (n: nat)
    ensures n <= |s| && NoSpace(s[..n])
    ensures n < |s| ==> IsSpace(s[n])
  {
    if |s| == 0 || IsSpace(s[0]) then 0 else 1 + WordLength(s[1..])
  }

  /** A list of non-empty strings without white space, as `strings.Fields` produces. */
  predicate Words(r: seq<string>) {
    forall i :: 0 <= i < |r| ==> r[i] != [] && NoSpace(r[i])
  }

  /** `strings.Fields`: the maximal runs of non-space characters, in order. */
  function Fields(s: string): (r: seq<string>)
    ensures Words(r)
    decreases |s|
  {
    var t := TrimLeftSpace(s);
    if t == [] then []
    else
      var n := WordLength(t);
      var rest := Fields(t[n..]);
      ConsWords(t[..n], rest);
      [t[..n]] + rest
  }

  lemma ConsWords(w: string, rest: seq<string>)
    requires w != [] && NoSpace(w) && Words(rest)
    ensures Words([w] + rest)
  {
    var r := [w] + rest;
    forall i | 0 <= i < |r| ensures r[i] != [] && NoSpace(r[i]) {
      if i > 0 { assert r[i] == rest[i - 1]; }
    }
  }

  /** `strings.Split` with a one-character separator: never returns an empty list. */
  function Split(s: string, sep: char): (r: seq<string>)
    ensures |r| >= 1
    ensures forall i :: 0 <= i < |r| ==> sep !in r[i]
  {
    if s == [] then [""]
    else if s[0] == sep then [""] + Split(s[1..], sep)
    else
      var rest := Split(s[1..], sep);
      [[s[0]] + rest[0]] + rest[1..]
  }

  /** `strings.Join`. */
  function Join(parts: seq<string>, sep: string): string {
    if |parts| == 0 then ""
    else if |parts| == 1 then parts[0]
    else parts[0] + sep + Join(parts[1..], sep)
  }

  /** `strings.ReplaceAll` for a non-empty `pattern`: left to right, non-overlapping. */
  function ReplaceAll(s: string, pattern: string, replacement: string): string
    requires pattern != []
    decreases |s|
  {
    if HasPrefix(s, pattern) then replacement + ReplaceAll(s[|pattern|..], pattern, replacement)
    else if s == [] then []
    else [s[0]] + ReplaceAll(s[1..], pattern, replacement)
  }

  function LowerChar(c: char): char {
    if 'A' <= c <= 'Z' then (c as int + 32) as char else c
  }

  /** `strings.ToLower`, restricted to ASCII letters. */
  function ToLower(s: string): (r: string)
    ensures |r| == |s|
    ensures forall i :: 0 <= i < |s| ==> r[i] == LowerChar(s[i])
  {
    if s == [] then [] else [LowerChar(s[0])] + ToLower(s[1..])
  }

  /** The names in `names` that end in `suffix`, in their original order. */
  function FilterSuffix(names: seq<string>, suffix: string): (r: seq<string>)
    ensures forall i :: 0 <= i < |r| ==> HasSuffix(r[i], suffix) && r[i] in names
    ensures forall n :: n in names && HasSuffix(n, suffix) ==> n in r
  {
    if names == [] then []
    else (if HasSuffix(names[0], suffix) then [names[0]] else []) + FilterSuffix(names[1..], suffix)
  }

  // ---- Lemmas ----

  /** Splitting then joining with the same separator gives the string back. */
  lemma {:induction false} SplitJoin(s: string, sep: char)
    ensures Join(Split(s, sep), [sep]) == s
  {
    if s != [] {
      SplitJoin(s[1..], sep);
      var rest := Split(s[1..], sep);
      if s[0] == sep {
        assert Split(s, sep) == [""] + rest;
        assert ([""] + rest)[1..] == rest;
      } else {
        SplitCons(s, sep);
        JoinPrepend(s[0], rest, [sep]);
      }
      assert s == [s[0]] + s[1..];
    }
  }

  /** A head that is no separator extends the first piece. */
  lemma SplitCons(s: string, sep: char)
    requires s != [] && s[0] != sep
    ensures var rest := Split(s[1..], sep); Split(s, sep) == [[s[0]] + rest[0]] + rest[1..]
  {
  }

  /** Extending the first part extends the join at its front. */
  lemma JoinPrepend(c: char, parts: seq<string>, sep: string)
    requires |parts| >= 1
    ensures Join([[c] + parts[0]] + parts[1..], sep) == [c] + Join(parts, sep)
  {
    var p := [[c] + parts[0]] + parts[1..];
    if |parts| > 1 {
      var j := Join(parts[1..], sep);
      assert p[1..] == parts[1..];
      assert Join(p, sep) == [c] + parts[0] + sep + j;
      assert [c] + parts[0] + sep + j == [c] + (parts[0] + sep + j);
    }
  }

  /** A split yields a single piece exactly when the separator is absent, and that piece is the whole string. */
  lemma {:induction false} SplitSingle(s: string, sep: char)
    ensures |Split(s, sep)| == 1 <==> sep !in s
    ensures |Split(s, sep)| == 1 ==> Split(s, sep)[0] == s
  {
    if s == [] {
    } else if s[0] == sep {
      assert |Split(s, sep)| == 1 + |Split(s[1..], sep)|;
    } else {
      SplitSingle(s[1..], sep);
      assert s == [s[0]] + s[1..];
    }
  }

  /** `last` is a suffix of `s` preceded, unless it is all of `s`, by `sep`. */
  predicate AfterLastSep(s: string, last: string, sep: char) {
    HasSuffix(s, last) && (|last| < |s| ==> s[|s| - |last| - 1] == sep)
  }

  /** The last piece of a split is exactly what follows the last separator. */
  lemma {:induction false} SplitLast(s: string, sep: char)
    ensures var r := Split(s, sep); AfterLastSep(s, r[|r| - 1], sep)
  {
    if s != [] {
      SplitLast(s[1..], sep);
      SplitLastStep(s, sep);
    }
  }

  /** The last piece of `s` is the last piece of its tail, unless that tail has a single piece not cut off by `s[0]`. */
  lemma SplitLastStep(s: string, sep: char)
    requires s != []
    requires var rest := Split(s[1..], sep); AfterLastSep(s[1..], rest[|rest| - 1], sep)
    ensures var r := Split(s, sep); AfterLastSep(s, r[|r| - 1], sep)
  {
    var rest := Split(s[1..], sep);
    if s[0] != sep && |rest| == 1 {
      SplitLastWhole(s, sep);
    } else {
      SplitLastKept(s, sep);
      SplitSingle(s[1..], sep);
      ExtendAfterLastSep(s, rest[|rest| - 1], sep);
    }
  }

  /** Without a separator after a non-separator head, the only piece is the whole string. */
  lemma SplitLastWhole(s: string, sep: char)
    requires s != [] && s[0] != sep && |Split(s[1..], sep)| == 1
    ensures var r := Split(s, sep); r[|r| - 1] == s
  {
    SplitSingle(s[1..], sep);
    assert [s[0]] + s[1..] == s;
  }

  /** With a separator at the head or further on, the last piece is that of the tail. */
  lemma SplitLastKept(s: string, sep: char)
    requires s != [] && (s[0] == sep || |Split(s[1..], sep)| > 1)
    ensures var r := Split(s, sep); var rest := Split(s[1..], sep); r[|r| - 1] == rest[|rest| - 1]
  {
  }

  lemma ExtendAfterLastSep(s: string, last: string, sep: char)
    requires s != [] && AfterLastSep(s[1..], last, sep)
    requires last != s[1..] || s[0] == sep
    ensures AfterLastSep(s, last, sep)
  {
    var tail := s[1..];
    assert s[|s| - |last|..] == tail[|tail| - |last|..];
    if |last| < |tail| {
      assert s[|s| - |last| - 1] == tail[|tail| - |last| - 1];
    } else {
      assert tail[|tail| - |last|..] == tail;
    }
  }

  /** A string ending in the separator has an empty last piece. */
  lemma {:induction false} SplitTrailingSep(s: string, sep: char)
    requires s != [] && s[|s| - 1] == sep
    ensures var r := Split(s, sep); r[|r| - 1] == ""
  {
    var tail := s[1..];
    if |s| == 1 {
      assert Split(s, sep) == [""] + Split(tail, sep);
    } else {
      SplitTrailingSep(tail, sep);
      var rest := Split(tail, sep);
      if s[0] != sep {
        assert tail[|tail| - 1] == sep;
        SplitSingle(tail, sep);
        assert Split(s, sep) == [[s[0]] + rest[0]] + rest[1..];
      }
    }
  }

  /** A string without the separator splits into itself. */
  lemma {:induction false} SplitNoSep(s: string, sep: char)
    requires sep !in s
    ensures Split(s, sep) == [s]
  {
    if s != [] {
      SplitNoSep(s[1..], sep);
      assert s == [s[0]] + s[1..];
    }
  }

  /** The text before the first separator is the first piece. */
  lemma {:induction false} SplitFirst(a: string, b: string, sep: char)
    requires sep !in a
    ensures Split(a + [sep] + b, sep) == [a] + Split(b, sep)
  {
    var s := a + [sep] + b;
    if a == [] {
      assert s == [sep] + b && s[1..] == b;
    } else {
      assert s[1..] == a[1..] + [sep] + b;
      SplitFirst(a[1..], b, sep);
      assert [a[0]] + a[1..] == a;
    }
  }

  /** `Fields` is empty exactly when the string is all white space. */
  lemma {:induction false} FieldsEmpty(s: string)
    ensures Fields(s) == [] <==> AllSpace(s)
  {
    var t := TrimLeftSpace(s);
    if t == [] {
      assert s[..|s|] == s;
    } else {
      assert !IsSpace(s[|s| - |t|]);
    }
  }

  /** A leading word followed by white space or the end is the first field; the rest follow. */
  lemma FieldsHead(w: string, rest: string)
    requires w != [] && NoSpace(w)
    requires rest == [] || IsSpace(rest[0])
    ensures Fields(w + rest) == [w] + Fields(rest)
  {
    var s := w + rest;
    assert TrimLeftSpace(s) == s;
    WordLengthOf(w, rest);
    assert s[..|w|] == w;
    assert s[|w|..] == rest;
  }

  /** Two words separated by white space are exactly two fields. */
  lemma FieldsTwo(w1: string, sp: string, w2: string)
    requires w1 != [] && NoSpace(w1) && w2 != [] && NoSpace(w2)
    requires sp != [] && AllSpace(sp)
    ensures Fields(w1 + sp + w2) == [w1, w2]
  {
    var rest := sp + w2;
    assert Fields(rest) == [w2] by {
      assert !IsSpace(w2[0]);
      FieldsSkipSpace(sp, w2);
      FieldsOne(w2);
    }
    assert Fields(w1 + sp + w2) == [w1] + Fields(rest) by {
      assert w1 + sp + w2 == w1 + rest;
      assert rest[0] == sp[0];
      FieldsHead(w1, rest);
    }
    PairOf(w1, w2);
  }

  /** A single word is its only field. */
  lemma FieldsOne(w: string)
    requires w != [] && NoSpace(w)
    ensures Fields(w) == [w]
  {
    var nil: string := [];
    assert w + nil == w;
    FieldsHead(w, nil);
    assert Fields(nil) == [];
  }

  lemma PairOf(a: string, b: string)
    ensures [a] + [b] == [a, b]
  {
  }

  /** An occurrence at position `k` is an occurrence. */
  lemma {:induction false} ContainsAt(s: string, sub: string, k: nat)
    requires k + |sub| <= |s| && s[k..k + |sub|] == sub
    ensures Contains(s, sub)
    decreases k
  {
    if k == 0 {
      assert s[..|sub|] == sub;
    } else {
      assert s[1..][k - 1..k - 1 + |sub|] == s[k..k + |sub|];
      ContainsAt(s[1..], sub, k - 1);
    }
  }

  /** Leading white space is what `TrimLeftSpace` removes. */
  lemma {:induction false} TrimLeftSpaceOf(sp: string, s: string)
    requires AllSpace(sp) && (s == [] || !IsSpace(s[0]))
    ensures TrimLeftSpace(sp + s) == s
    decreases |sp|
  {
    if sp != [] {
      assert (sp + s)[0] == sp[0];
      assert (sp + s)[1..] == sp[1..] + s;
      TrimLeftSpaceOf(sp[1..], s);
    } else {
      assert sp + s == s;
    }
  }

  /** Leading white space does not change the fields. */
  lemma FieldsSkipSpace(sp: string, s: string)
    requires AllSpace(sp) && (s == [] || !IsSpace(s[0]))
    ensures Fields(sp + s) == Fields(s)
  {
    TrimLeftSpaceOf(sp, s);
    TrimLeftSpaceOf([], s);
    assert [] + s == s;
  }

  lemma {:induction false} WordLengthOf(w: string, rest: string)
    requires NoSpace(w)
    requires rest == [] || IsSpace(rest[0])
    ensures WordLength(w + rest) == |w|
  {
    if w != [] {
      assert (w + rest)[1..] == w[1..] + rest;
      WordLengthOf(w[1..], rest);
    } else {
      assert w + rest == rest;
    }
  }

  /** `ReplaceAll` leaves a string without any occurrence of `pattern` unchanged. */
  lemma {:induction false} ReplaceAllAbsent(s: string, pattern: string, replacement: string)
    requires pattern != [] && !Contains(s, pattern)
    ensures ReplaceAll(s, pattern, replacement) == s
  {
    if s != [] {
      ReplaceAllAbsent(s[1..], pattern, replacement);
      assert s == [s[0]] + s[1..];
    }
  }

  /** A string lacking some character of `sub` does not contain `sub`. */
  lemma {:induction false} NotContainsChar(s: string, sub: string, c: char)
    requires c in sub && c !in s
    ensures !Contains(s, sub)
    decreases |s|
  {
    var k :| 0 <= k < |sub| && sub[k] == c;
    if |sub| <= |s| {
      assert s[..|sub|][k] == s[k] != c;
    }
    if |s| > 0 {
      NotContainsChar(s[1..], sub, c);
    }
  }

  /** Text before the first possible start of `pattern` is copied through unchanged. */
  lemma {:induction false} ReplaceAllSkip(a: string, b: string, pattern: string, replacement: string)
    requires pattern != [] && pattern[0] !in a
    ensures ReplaceAll(a + b, pattern, replacement) == a + ReplaceAll(b, pattern, replacement)
    decreases |a|
  {
    if a != [] {
      var s := a + b;
      assert s[0] == a[0] && s[1..] == a[1..] + b;
      if |pattern| <= |s| {
        assert s[..|pattern|][0] == a[0] != pattern[0];
      }
      assert ReplaceAll(s, pattern, replacement) == [a[0]] + ReplaceAll(a[1..] + b, pattern, replacement);
      ReplaceAllSkip(a[1..], b, pattern, replacement);
      var tail := ReplaceAll(b, pattern, replacement);
      assert [a[0]] + (a[1..] + tail) == ([a[0]] + a[1..]) + tail;
      assert [a[0]] + a[1..] == a;
    } else {
      assert a + b == b;
    }
  }

  /** An occurrence of `pattern` that follows text free of its first character is replaced. */
  lemma ReplaceAllSplice(a: string, b: string, pattern: string, replacement: string)
    requires pattern != [] && pattern[0] !in a
    ensures ReplaceAll(a + pattern + b, pattern, replacement)
         == a + replacement + ReplaceAll(b, pattern, replacement)
  {
    assert a + pattern + b == a + (pattern + b);
    ReplaceAllSkip(a, pattern + b, pattern, replacement);
    assert (pattern + b)[..|pattern|] == pattern;
    assert (pattern + b)[|pattern|..] == b;
  }

  /** `ToLower` is idempotent. */
  lemma ToLowerIdempotent(s: string)
    ensures ToLower(ToLower(s)) == ToLower(s)
  {
  }

  /** Concatenation regroups; used wherever a trace or a result list grows in steps. */
  lemma AppendAssoc<T>(a: seq<T>, b: seq<T>, c: seq<T>)
    ensures (a + b) + c == a + (b + c)
  {
  }
}
