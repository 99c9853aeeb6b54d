/** The JavaScript string operations the models rely on. */
module JsText {

  /** White space and line terminators as `String.prototype.trim` sees them. */
  predicate IsSpace(c: char) {
    || '\t' <= c <= '\r'
    || c == ' '
    || c == '\U{00a0}' || c == '\U{1680}'
    || '\U{2000}' <= c <= '\U{200a}'
    || c == '\U{2028}' || c == '\U{2029}' || c == '\U{202f}' || c == '\U{205f}' || c == '\U{3000}' || c == '\U{feff}'
  }

  function TrimStart(s: string): (r: string)
    ensures r == [] || !IsSpace(r[0])
    ensures |r| <= |s|
  {
    if s != [] && IsSpace(s[0]) then TrimStart(s[1..]) else s
  }

  function TrimEnd(s: string): (r: string)
    ensures r == [] || !IsSpace(r[|r| - 1])
    ensures r <= s
  {
    if s != [] && IsSpace(s[|s| - 1]) then TrimEnd(s[..|s| - 1]) else s
  }

  function Trim(s: string): string { TrimEnd(TrimStart(s)) }

  /** The code points ECMA-262 lists as white space (section 12.2) and line terminators (section 12.3). */
  const SPACES := "\t\n\U{000b}\U{000c}\r \U{00a0}\U{1680}\U{2000}\U{2001}\U{2002}\U{2003}\U{2004}\U{2005}\U{2006}" +
                  "\U{2007}\U{2008}\U{2009}\U{200a}\U{2028}\U{2029}\U{202f}\U{205f}\U{3000}\U{feff}"

  lemma SpacesListed(c: char)
    ensures IsSpace(c) <==> c in SPACES
  {
  }

  predicate AllSpace(s: string) { forall i :: 0 <= i < |s| ==> IsSpace(s[i]) }

  /** Trimming cuts white space off both ends, and all of it. */
  lemma TrimCuts(s: string) returns (front: string, back: string)
    ensures s == front + Trim(s) + back && AllSpace(front) && AllSpace(back)
    ensures Trim(s) == "" || (!IsSpace(Trim(s)[0]) && !IsSpace(Trim(s)[|Trim(s)| - 1]))
  {
    front := TrimStartCuts(s);
    back := TrimEndCuts(TrimStart(s));
  }

  lemma {:induction false} TrimStartCuts(s: string) returns (front: string)
    ensures s == front + TrimStart(s) && AllSpace(front)
  {
    front := [];
    if s != [] && IsSpace(s[0]) {
      front := TrimStartCuts(s[1..]);
      front := [s[0]] + front;
    }
  }

  lemma {:induction false} TrimEndCuts(s: string) returns (back: string)
    ensures s == TrimEnd(s) + back && AllSpace(back)
  {
    back := [];
    if s != [] && IsSpace(s[|s| - 1]) {
      back := TrimEndCuts(s[..|s| - 1]);
      back := back + [s[|s| - 1]];
    }
  }

  /** A trimmed string is left alone by a second trim. */
  lemma TrimIdempotent(s: string)
    ensures Trim(Trim(s)) == Trim(s)
  {
    var a := TrimStart(s);
    var t := TrimEnd(a);
    if t != [] {
      assert t[0] == a[0];
      assert TrimStart(t) == t;
    }
  }

  /** `Array.prototype.join`. */
  function Join(parts: seq<string>, separator: char): string {
    if |parts| == 0 then ""
    else if |parts| == 1 then parts[0]
    else parts[0] + [separator] + Join(parts[1..], separator)
  }

  lemma JoinFront(a: string, rest: seq<string>, separator: char)
    requires |rest| > 0
    ensures Join([a] + rest, separator) == a + [separator] + Join(rest, separator)
  {
    assert ([a] + rest)[1..] == rest;
  }

  lemma JoinTwo(a: string, b: string, separator: char)
    ensures Join([a, b], separator) == a + [separator] + b
  {
    JoinFront(a, [b], separator);
    assert [a] + [b] == [a, b];
  }

  lemma JoinThree(a: string, b: string, c: string, separator: char)
    ensures Join([a, b, c], separator) == a + [separator] + b + [separator] + c
  {
    JoinTwo(b, c, separator);
    JoinFront(a, [b, c], separator);
    assert [a] + [b, c] == [a, b, c];
  }

  lemma JoinFour(a: string, b: string, c: string, d: string, separator: char)
    ensures Join([a, b, c, d], separator) == (a + [separator]) + b + [separator] + c + [separator] + d
  {
    JoinThree(b, c, d, separator);
    JoinFront(a, [b, c, d], separator);
    assert [a] + [b, c, d] == [a, b, c, d];
  }

  /** Equally many parts without the separator are determined by the joined text. */
  lemma {:induction false} JoinTellsParts(a: seq<string>, b: seq<string>, separator: char)
    requires |a| == |b| && forall x :: x in a + b ==> separator !in x
    ensures Join(a, separator) == Join(b, separator) <==> a == b
  {
    if |a| > 1 && Join(a, separator) == Join(b, separator) {
      assert a[0] in a + b && b[0] in a + b;
      FirstSeparator(separator, a[0], Join(a[1..], separator), b[0], Join(b[1..], separator));
      assert forall x :: x in a[1..] + b[1..] ==> x in a + b;
      JoinTellsParts(a[1..], b[1..], separator);
      assert a == [a[0]] + a[1..] && b == [b[0]] + b[1..];
    }
  }

  /** A text up to its first separator is determined by the whole. */
  lemma FirstSeparator(separator: char, a: string, x: string, b: string, y: string)
    requires separator !in a && separator !in b
    requires a + [separator] + x == b + [separator] + y
    ensures a == b && x == y
  {
    var (s, t) := (a + [separator] + x, b + [separator] + y);
    assert forall i :: 0 <= i < |a| ==> s[i] == a[i] && s[i] != separator;
    assert forall i :: 0 <= i < |b| ==> t[i] == b[i] && t[i] != separator;
    assert s[|a|] == separator && t[|b|] == separator;
    assert s[..|a|] == a && t[..|b|] == b;
    assert s[|a| + 1..] == x && t[|b| + 1..] == y;
  }

  predicate Colonless(s: string) { ':' !in s }

  /** A text up to its first colon is determined by the whole. */
  lemma FirstColon(a: string, x: string, b: string, y: string)
    requires Colonless(a) && Colonless(b)
    requires a + ":" + x == b + ":" + y
    ensures a == b && x == y
  {
    FirstSeparator(':', a, x, b, y);
  }
}
