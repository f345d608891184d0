/**
 * The JavaScript string operations the two scripts rely on, as functions on
 * `string` (a `seq<char>`): `String.prototype.trim`, `Array.prototype.join`
 * and, as a reference for what the labels look like line by line,
 * `String.prototype.split` with a one-character separator.
 */
module Text {

  /** The characters `trim` strips: ECMAScript's WhiteSpace (tab, vertical tab,
      form feed, space, no-break space, byte order mark and every space
      separator) and LineTerminator (line feed, carriage return, line and
      paragraph separators). */
  predicate IsJsWhitespace(c: char) {
    c == '\t' || c == '\n' || c == '\U{000B}' || c == '\U{000C}' || c == '\r'
    || c == ' ' || c == '\U{00A0}' || c == '\U{1680}'
    || ('\U{2000}' <= c <= '\U{200A}')
    || c == '\U{2028}' || c == '\U{2029}' || c == '\U{202F}' || c == '\U{205F}'
    || c == '\U{3000}' || c == '\U{FEFF}'
  }

  predicate AllWhitespace(s: string) {
    forall i :: 0 <= i < |s| ==> IsJsWhitespace(s[i])
  }

  /** `r` is `s` with the whitespace run `s[..lo]` cut off the front and the
      whitespace run after `r` cut off the back. */
  ghost predicate Strips(s: string, lo: int, r: string) {
    0 <= lo && lo + |r| <= |s| && r == s[lo..lo + |r|]
    && AllWhitespace(s[..lo]) && AllWhitespace(s[lo + |r|..])
  }

  /** Drops leading whitespace. */
  function TrimStart(s: string): (r: string) {
    if s != [] && IsJsWhitespace(s[0]) then TrimStart(s[1..]) else s
  }

  /** What `TrimStart` drops is a whitespace prefix, and what it keeps is
      the rest, starting with a non-whitespace character. */
  lemma {:induction false} TrimStartDrops(s: string)
    ensures var r := TrimStart(s);
            |r| <= |s| && r == s[|s| - |r|..]
            && AllWhitespace(s[..|s| - |r|])
            && (r == [] || !IsJsWhitespace(r[0]))
  {
    if s != [] && IsJsWhitespace(s[0]) {
      TrimStartDrops(s[1..]);
      var r := TrimStart(s[1..]);
      assert s[..|s| - |r|] == [s[0]] + s[1..][..|s[1..]| - |r|];
    }
  }

  /** Drops trailing whitespace. */
  function TrimEnd(s: string): (r: string) {
    if s != [] && IsJsWhitespace(s[|s| - 1]) then TrimEnd(s[..|s| - 1]) else s
  }

  /** What `TrimEnd` drops is a whitespace suffix, and what it keeps is the
      rest, ending with a non-whitespace character. */
  lemma {:induction false} TrimEndDrops(s: string)
    ensures var r := TrimEnd(s);
            |r| <= |s| && r == s[..|r|]
            && AllWhitespace(s[|r|..])
            && (r == [] || !IsJsWhitespace(r[|r| - 1]))
  {
    if s != [] && IsJsWhitespace(s[|s| - 1]) {
      TrimEndDrops(s[..|s| - 1]);
      var r := TrimEnd(s[..|s| - 1]);
      assert s[|r|..] == s[..|s| - 1][|r|..] + [s[|s| - 1]];
    }
  }

  /** `s.trim()`. */
  function Trim(s: string): (r: string) {
    TrimEnd(TrimStart(s))
  }

  /** `trim` gives the empty string exactly when `s` is all whitespace;
      otherwise it gives the slice of `s` that starts and ends with a
      non-whitespace character, with only whitespace on either side. */
  lemma TrimStrips(s: string)
    ensures Trim(s) == [] <==> AllWhitespace(s)
    ensures Trim(s) != [] ==> !IsJsWhitespace(Trim(s)[0]) && !IsJsWhitespace(Trim(s)[|Trim(s)| - 1])
    ensures exists lo :: Strips(s, lo, Trim(s))
  {
    var t := TrimStart(s);
    var r := TrimEnd(t);
    TrimStartDrops(s);
    TrimEndDrops(t);
    var lo := |s| - |t|;
    SuffixSlices(s, lo, |r|);
    assert Strips(s, lo, r);
    assert r == [] ==> s == s[..lo] + t[|r|..];
  }

  lemma SuffixSlices(s: string, lo: nat, n: nat)
    requires lo + n <= |s|
    ensures s[lo..][..n] == s[lo..lo + n]
    ensures s[lo..][n..] == s[lo + n..]
  {
  }

  /** `parts.join(sep)`. */
  function Join(parts: seq<string>, sep: string): (r: string) {
    if |parts| == 0 then ""
    else if |parts| == 1 then parts[0]
    else parts[0] + sep + Join(parts[1..], sep)
  }

  /** `s.split(c)` for a one-character separator `c`: the pieces between
      separators, so `""` gives `[""]` and `"a\n"` gives `["a", ""]`. */
  function Split(s: string, c: char): (r: seq<string>)
    ensures |r| >= 1
  {
    if s == [] then [[]]
    else
      var rest := Split(s[1..], c);
      if s[0] == c then [[]] + rest else [[s[0]] + rest[0]] + rest[1..]
  }

  lemma {:induction false} SplitWithoutSeparator(s: string, c: char)
    requires c !in s
    ensures Split(s, c) == [s]
  {
    if s != [] {
      SplitWithoutSeparator(s[1..], c);
      assert [s[0]] + s[1..] == s;
    }
  }

  /** Splitting at a separator distributes over a concatenation around one
      occurrence of it. */
  lemma {:induction false} SplitConcat(a: string, b: string, c: char)
    ensures Split(a + [c] + b, c) == Split(a, c) + Split(b, c)
  {
    if a == [] {
      assert (a + [c] + b)[1..] == b;
    } else {
      assert (a + [c] + b)[1..] == a[1..] + [c] + b;
      SplitConcat(a[1..], b, c);
    }
  }

  /** The piece after the last separator is what follows it. */
  lemma LastPieceAfterSeparator(a: string, b: string, c: char)
    requires c !in b
    ensures var pieces := Split(a + [c] + b, c);
            pieces[|pieces| - 1] == b
  {
    SplitConcat(a, b, c);
    SplitWithoutSeparator(b, c);
  }

  lemma {:induction false} JoinSnoc(parts: seq<string>, p: string, sep: string)
    requires |parts| >= 1
    ensures Join(parts + [p], sep) == Join(parts, sep) + sep + p
  {
    if |parts| > 1 {
      assert (parts + [p])[1..] == parts[1..] + [p];
      JoinSnoc(parts[1..], p, sep);
    }
  }

  /** Splitting a joined list at its separator gives the list back, provided
      no piece contains the separator. */
  lemma {:induction false} SplitJoin(lines: seq<string>, c: char)
    requires |lines| >= 1
    requires forall i :: 0 <= i < |lines| ==> c !in lines[i]
    ensures Split(Join(lines, [c]), c) == lines
  {
    if |lines| == 1 {
      SplitWithoutSeparator(lines[0], c);
    } else {
      SplitJoin(lines[1..], c);
      SplitConcat(lines[0], Join(lines[1..], [c]), c);
      SplitWithoutSeparator(lines[0], c);
      assert [lines[0]] + lines[1..] == lines;
    }
  }

  /** Joining two pieces with a separator that occurs in neither first piece
      is injective: the key `a + sep + b` determines `a` and `b`. */
  lemma SeparatedInjective(a: string, b: string, a': string, b': string, sep: char)
    requires sep !in a && sep !in a'
    ensures a + [sep] + b == a' + [sep] + b' ==> a == a' && b == b'
  {
    if a + [sep] + b == a' + [sep] + b' {
      var k := a + [sep] + b;
      assert k == a' + [sep] + b';
      assert k[|a|] == sep && k[|a'|] == sep;
      assert forall i :: 0 <= i < |a| ==> k[i] == a[i];
      assert forall i :: 0 <= i < |a'| ==> k[i] == a'[i];
      assert |a| == |a'|;
      assert a == k[..|a|] == a';
      assert b == k[|a| + 1..] == b';
    }
  }
}
