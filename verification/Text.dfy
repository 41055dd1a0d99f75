/** Strings as the program reads them: character classes, trimming and searching. */
module Text {
  datatype Option<+T> = None | Some(value: T)

  function Min(a: nat, b: nat): nat { if a < b then a else b }

  /** The characters `\s` and `String.trim` treat as white space. */
  predicate IsSpace(c: char) {
    || c == ' ' || '\U{0009}' <= c <= '\U{000D}' || c == '\U{00A0}' || c == '\U{1680}'
    || '\U{2000}' <= c <= '\U{200A}' || c == '\U{2028}' || c == '\U{2029}' || c == '\U{202F}'
    || c == '\U{205F}' || c == '\U{3000}' || c == '\U{FEFF}'
  }

  predicate IsDigit(c: char) { '0' <= c <= '9' }

  predicate IsLetter(c: char) { 'a' <= c <= 'z' || 'A' <= c <= 'Z' }

  predicate AllSpace(s: string) { forall k | 0 <= k < |s| :: IsSpace(s[k]) }

  /** Length of the longest prefix of `s` whose characters all satisfy `p`. */
  function Span(p: char -> bool, s: string): (n: nat)
    ensures n <= |s|
    ensures forall k | 0 <= k < n :: p(s[k])
    ensures n < |s| ==> !p(s[n])
  {
    if s != "" && p(s[0]) then 1 + Span(p, s[1..]) else 0
  }

  function TrimStart(s: string): (r: string)
    ensures |r| <= |s| && r == s[|s| - |r|..] && AllSpace(s[..|s| - |r|])
    ensures r != "" ==> !IsSpace(r[0])
  {
    s[Span(IsSpace, s)..]
  }

  function TrimEnd(s: string): (r: string)
    ensures |r| <= |s| && r == s[..|r|] && AllSpace(s[|r|..])
    ensures r != "" ==> !IsSpace(r[|r| - 1])
  {
    if s != "" && IsSpace(s[|s| - 1]) then
      var t := s[..|s| - 1];
      var r := TrimEnd(t);
      assert s[|r|..] == t[|r|..] + [s[|s| - 1]];
      r
    else s
  }

  function Trim(s: string): string { TrimEnd(TrimStart(s)) }

  /** Offset of the first `c` in `s`; `|s|` when there is none. */
  function Find(c: char, s: string): (n: nat)
    ensures n <= |s| && c !in s[..n]
    ensures n < |s| ==> s[n] == c
  {
    if s == "" || s[0] == c then 0
    else
      var n := Find(c, s[1..]);
      assert s[..1 + n] == [s[0]] + s[1..][..n];
      1 + n
  }

  /** A prefix is what the tail adds nothing to: two maximal spans of one string are equal. */
  lemma SpanUnique(p: char -> bool, s: string, n: nat)
    requires n <= |s|
    requires forall k | 0 <= k < n :: p(s[k])
    requires n < |s| ==> !p(s[n])
    ensures Span(p, s) == n
  {
  }

  lemma FindUnique(c: char, s: string, n: nat)
    requires n <= |s| && c !in s[..n]
    requires n < |s| ==> s[n] == c
    ensures Find(c, s) == n
  {
    if s != "" && s[0] != c && n > 0 {
      assert s[1..][..n - 1] == s[..n][1..];
      FindUnique(c, s[1..], n - 1);
    }
  }

  /** Leading white space is invisible to `TrimStart`. */
  lemma TrimStartSkips(w: string, s: string)
    requires AllSpace(w)
    ensures TrimStart(w + s) == TrimStart(s)
  {
    var n := Span(IsSpace, s);
    forall k | 0 <= k < |w| + n
      ensures IsSpace((w + s)[k])
    {
      if k < |w| {
        assert (w + s)[k] == w[k];
      } else {
        assert (w + s)[k] == s[k - |w|];
      }
    }
    SpanUnique(IsSpace, w + s, |w| + n);
    assert (w + s)[|w| + n..] == s[n..];
  }

  lemma TrimIsEmpty(s: string)
    ensures Trim(s) == "" <==> AllSpace(s)
  {
    var t := TrimStart(s);
    assert s == s[..|s| - |t|] + t;
    assert t != "" ==> t[0] == s[|s| - |t|];
  }

  /** A prefix of `q` followed by `x`, seen from index `a` on. */
  lemma PrefixThen(q: string, a: nat, n: nat, x: string)
    requires a + n <= |q|
    ensures q[..a + n] + x == q[..a] + (q[a..][..n] + x)
    ensures q[a + n..] == q[a..][n..]
    ensures (q[..a + n] + x)[a..] == q[a..][..n] + x
  {
  }

  lemma Assoc(a: string, b: string, c: string)
    ensures a + b + c == a + (b + c)
  {
  }

  // ---- Parts between separators ----

  function Split(s: string, sep: char): (parts: seq<string>)
    ensures parts != []
  {
    if s == "" then [""]
    else
      var rest := Split(s[1..], sep);
      if s[0] == sep then [""] + rest else [[s[0]] + rest[0]] + rest[1..]
  }

  function Join(parts: seq<string>, sep: char): string
    requires parts != []
  {
    if |parts| == 1 then parts[0] else parts[0] + [sep] + Join(parts[1..], sep)
  }

  lemma JoinSep(rest: seq<string>, sep: char)
    requires rest != []
    ensures Join([""] + rest, sep) == [sep] + Join(rest, sep)
  {
    assert ([""] + rest)[1..] == rest;
  }

  lemma JoinChar(c: char, rest: seq<string>, sep: char)
    requires rest != []
    ensures Join([[c] + rest[0]] + rest[1..], sep) == [c] + Join(rest, sep)
  {
    assert ([[c] + rest[0]] + rest[1..])[1..] == rest[1..];
  }

  lemma JoinOne(s: string, sep: char)
    ensures Join([s], sep) == s
  {
  }

  lemma {:induction false} JoinOfSplit(s: string, sep: char)
    ensures Join(Split(s, sep), sep) == s
  {
    hide Join;
    if s == "" {
      JoinOne("", sep);
    } else {
      var rest := Split(s[1..], sep);
      JoinOfSplit(s[1..], sep);
      JoinSep(rest, sep);
      JoinChar(s[0], rest, sep);
      assert s == [s[0]] + s[1..];
    }
  }

  /** A part without separator is read up to the next one. */
  lemma {:induction false} SplitPart(a: string, rest: string, sep: char)
    requires sep !in a
    ensures Split(a + ([sep] + rest), sep) == [a] + Split(rest, sep)
    ensures Split(a, sep) == [a]
  {
    if a == "" {
      assert a + ([sep] + rest) == [sep] + rest;
      assert ([sep] + rest)[1..] == rest;
    } else {
      var s := a + ([sep] + rest);
      assert s[0] == a[0] && s[1..] == a[1..] + ([sep] + rest);
      SplitPart(a[1..], rest, sep);
      assert a == [a[0]] + a[1..];
      assert ([a[1..]] + Split(rest, sep))[1..] == Split(rest, sep);
    }
  }

  /** Parts without separators come back from the text that joins them. */
  lemma {:induction false} SplitOfJoin(parts: seq<string>, sep: char)
    requires parts != [] && forall p | p in parts :: sep !in p
    ensures Split(Join(parts, sep), sep) == parts
    decreases |parts|
  {
    hide Split;
    if |parts| == 1 {
      SplitPart(parts[0], "", sep);
    } else {
      var rest := Join(parts[1..], sep);
      SplitOfJoin(parts[1..], sep);
      SplitPart(parts[0], rest, sep);
      Assoc(parts[0], [sep], rest);
      assert parts == [parts[0]] + parts[1..];
    }
  }
}
