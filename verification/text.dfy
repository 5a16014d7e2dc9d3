/**
 String operations of Python that the grading pipeline relies on: substring
 containment (`needle in hay`), `str.split` on one separator character and
 its inverse `str.join`, the blank-line test `line.strip()`, and the decimal
 rendering of a natural number (`f"{n}"`).
 */
module Text {

  /** Python's `needle in hay` for two strings. */
  predicate Contains(hay: string, needle: string)
    decreases |hay|
  {
    needle <= hay || (|hay| > 0 && Contains(hay[1..], needle))
  }

  /** A string that occurs inside another uses only characters of that other string. */
  lemma {:induction false} ContainsOnlyCharsOf(hay: string, needle: string, c: char)
    requires Contains(hay, needle)
    requires c in needle
    ensures c in hay
    decreases |hay|
  {
    if needle <= hay {
      var k :| 0 <= k < |needle| && needle[k] == c;
      assert hay[k] == c;
    } else {
      ContainsOnlyCharsOf(hay[1..], needle, c);
      var k :| 0 <= k < |hay[1..]| && hay[1..][k] == c;
      assert hay[k + 1] == c;
    }
  }

  /** So a string holding a character the other string lacks is not inside it. */
  lemma NotContainedByWitness(hay: string, needle: string, c: char)
    requires c in needle && c !in hay
    ensures !Contains(hay, needle)
  {
    if Contains(hay, needle) {
      ContainsOnlyCharsOf(hay, needle, c);
    }
  }

  /** A string that occurs inside another is no longer than it. */
  lemma {:induction false} ContainsLength(hay: string, needle: string)
    requires Contains(hay, needle)
    ensures |needle| <= |hay|
    decreases |hay|
  {
    if !(needle <= hay) {
      ContainsLength(hay[1..], needle);
    }
  }

  /** So a string longer than another is not inside it. */
  lemma LongerNotContained(hay: string, needle: string)
    requires |needle| > |hay|
    ensures !Contains(hay, needle)
  {
    if Contains(hay, needle) {
      ContainsLength(hay, needle);
    }
  }

  /** Containment survives putting text on either side of the haystack. */
  lemma {:induction false} ContainsInContext(pre: string, hay: string, post: string, needle: string)
    requires Contains(hay, needle)
    ensures Contains(pre + hay + post, needle)
    decreases |pre| + |hay|
  {
    if |pre| > 0 {
      assert (pre + hay + post)[1..] == pre[1..] + hay + post;
      ContainsInContext(pre[1..], hay, post, needle);
    } else if needle <= hay {
      assert pre + hay + post == hay + post;
      assert (hay + post)[..|needle|] == hay[..|needle|];
    } else {
      assert pre + hay + post == hay + post;
      assert (hay + post)[1..] == hay[1..] + post;
      ContainsInContext([], hay[1..], post, needle);
      assert [] + hay[1..] + post == hay[1..] + post;
    }
  }

  /** Characters for which Python's `str.isspace()` holds; `str.strip()` removes exactly these. */
  predicate IsSpace(c: char) {
    || c == '\t' || c == '\n' || c == '\U{000B}' || c == '\U{000C}' || c == '\r'
    || ('\U{001C}' <= c <= '\U{001F}') || c == ' '
    || c == '\U{0085}' || c == '\U{00A0}' || c == '\U{1680}'
    || ('\U{2000}' <= c <= '\U{200A}')
    || c == '\U{2028}' || c == '\U{2029}' || c == '\U{202F}' || c == '\U{205F}' || c == '\U{3000}'
  }

  /** Python's `s.strip() != ""`: the string holds some non-whitespace character. */
  predicate HasNonSpace(s: string) {
    exists i :: 0 <= i < |s| && !IsSpace(s[i])
  }

  /** Python's `sep.join(parts)` for a one-character separator. */
  function Join(parts: seq<string>, sep: char): string
    requires |parts| > 0
    decreases |parts|
  {
    if |parts| == 1 then parts[0] else parts[0] + [sep] + Join(parts[1..], sep)
  }

  /** Python's `s.split(sep)` for a one-character separator: the pieces between separators. */
  function Split(s: string, sep: char): (parts: seq<string>)
    ensures |parts| > 0
    decreases |s|
  {
    if |s| == 0 then
      [""]
    else
      var rest := Split(s[1..], sep);
      if s[0] == sep then [""] + rest else [[s[0]] + rest[0]] + rest[1..]
  }

  /** No piece of a split holds the separator, and joining the pieces gives the string back. */
  lemma {:induction false} SplitShape(s: string, sep: char)
    ensures forall i :: 0 <= i < |Split(s, sep)| ==> sep !in Split(s, sep)[i]
    ensures Join(Split(s, sep), sep) == s
    decreases |s|
  {
    if |s| > 0 {
      var rest := Split(s[1..], sep);
      SplitShape(s[1..], sep);
      var parts := Split(s, sep);
      if s[0] == sep {
        assert parts == [""] + rest;
        assert parts[1..] == rest;
        assert forall i :: 1 <= i < |parts| ==> parts[i] == rest[i - 1];
        assert Join(parts, sep) == [] + [sep] + Join(rest, sep);
        assert [s[0]] + s[1..] == s;
      } else {
        assert parts == [[s[0]] + rest[0]] + rest[1..];
        assert parts[1..] == rest[1..];
        assert forall i :: 1 <= i < |parts| ==> parts[i] == rest[i];
        assert Join(parts, sep) == [s[0]] + Join(rest, sep);
        assert [s[0]] + s[1..] == s;
      }
    }
  }

  /** Moving the first character of the first piece out of a join. */
  lemma JoinFirstChar(parts: seq<string>, sep: char)
    requires |parts| > 0 && |parts[0]| > 0
    ensures Join(parts, sep) == [parts[0][0]] + Join([parts[0][1..]] + parts[1..], sep)
  {
    var shorter := [parts[0][1..]] + parts[1..];
    assert shorter[1..] == parts[1..];
    assert parts[0] == [parts[0][0]] + parts[0][1..];
  }

  /** Splitting a join of separator-free pieces gives the pieces back. */
  lemma {:induction false} SplitJoin(parts: seq<string>, sep: char)
    requires |parts| > 0
    requires forall i :: 0 <= i < |parts| ==> sep !in parts[i]
    ensures Split(Join(parts, sep), sep) == parts
    decreases |parts|, |parts[0]|
  {
    var p := parts[0];
    if |p| > 0 {
      var shorter := [p[1..]] + parts[1..];
      JoinFirstChar(parts, sep);
      var s := Join(parts, sep);
      assert s[1..] == Join(shorter, sep);
      assert p[1..] == shorter[0];
      assert forall i :: 0 <= i < |shorter| ==> sep !in shorter[i] by {
        forall i | 0 <= i < |shorter| ensures sep !in shorter[i] {
          if i > 0 {
            assert shorter[i] == parts[i];
          }
        }
      }
      SplitJoin(shorter, sep);
      assert s[0] == p[0] != sep;
      assert [p[0]] + p[1..] == p;
      assert shorter[1..] == parts[1..];
      assert [[p[0]] + p[1..]] + parts[1..] == parts;
    } else if |parts| > 1 {
      var s := Join(parts, sep);
      assert s == [sep] + Join(parts[1..], sep);
      assert s[1..] == Join(parts[1..], sep);
      assert forall i :: 0 <= i < |parts[1..]| ==> sep !in parts[1..][i];
      SplitJoin(parts[1..], sep);
      assert [""] + parts[1..] == parts;
    }
  }

  /** `a` occurs in `b` in order, possibly with other elements in between. */
  predicate IsSubsequence<T(==)>(a: seq<T>, b: seq<T>)
    decreases |b|
  {
    |a| == 0 || (|b| > 0 && (if a[0] == b[0] then IsSubsequence(a[1..], b[1..]) else IsSubsequence(a, b[1..])))
  }

  /** The lines for which `line.strip()` is non-empty, in their original order. */
  function NonBlank(lines: seq<string>): (kept: seq<string>)
    ensures |kept| <= |lines|
    decreases |lines|
  {
    if |lines| == 0 then []
    else if HasNonSpace(lines[0]) then [lines[0]] + NonBlank(lines[1..])
    else NonBlank(lines[1..])
  }

  /**
   A non-blank line is kept as many times as it occurs in the input, and a
   blank one not at all.
   */
  lemma {:induction false} NonBlankCounts(lines: seq<string>)
    ensures forall x :: multiset(NonBlank(lines))[x] == if HasNonSpace(x) then multiset(lines)[x] else 0
    decreases |lines|
  {
    if |lines| > 0 {
      NonBlankCounts(lines[1..]);
      assert lines == [lines[0]] + lines[1..];
      assert multiset(lines) == multiset([lines[0]]) + multiset(lines[1..]);
      if HasNonSpace(lines[0]) {
        assert multiset(NonBlank(lines)) == multiset([lines[0]]) + multiset(NonBlank(lines[1..]));
      }
    }
  }

  /**
   The kept lines are non-blank, every non-blank line is kept as often as it
   occurs, and the kept lines appear in the order of the input.
   */
  lemma {:induction false} NonBlankShape(lines: seq<string>)
    ensures forall i :: 0 <= i < |NonBlank(lines)| ==> HasNonSpace(NonBlank(lines)[i])
    ensures forall x :: x in NonBlank(lines) <==> x in lines && HasNonSpace(x)
    ensures forall x :: multiset(NonBlank(lines))[x] == if HasNonSpace(x) then multiset(lines)[x] else 0
    ensures IsSubsequence(NonBlank(lines), lines)
    decreases |lines|
  {
    if |lines| > 0 {
      var rest := NonBlank(lines[1..]);
      NonBlankShape(lines[1..]);
      assert lines == [lines[0]] + lines[1..];
      if HasNonSpace(lines[0]) {
        var kept := [lines[0]] + rest;
        assert kept[1..] == rest;
        assert forall i :: 1 <= i < |kept| ==> kept[i] == rest[i - 1];
      }
    }
    NonBlankCounts(lines);
  }

  /** A decimal digit character. */
  function Digit(d: nat): (c: char)
    requires d < 10
    ensures '0' <= c <= '9'
  {
    ('0' as int + d) as char
  }

  predicate IsDigits(s: string) {
    forall i :: 0 <= i < |s| ==> '0' <= s[i] <= '9'
  }

  /** Python's `str(n)` for a natural number: digits without leading zeros. */
  function NatToDecimal(n: nat): (s: string)
    ensures |s| > 0 && IsDigits(s)
    ensures |s| > 1 ==> s[0] != '0'
    decreases n
  {
    if n < 10 then [Digit(n)] else NatToDecimal(n / 10) + [Digit(n % 10)]
  }

  /** The number a string of decimal digits denotes; the partner of `NatToDecimal`. */
  function DecimalValue(s: string): nat
    requires IsDigits(s)
    decreases |s|
  {
    if |s| == 0 then 0 else 10 * DecimalValue(s[..|s| - 1]) + (s[|s| - 1] as int - '0' as int)
  }

  /** Reading back the rendering of `n` gives `n`. */
  lemma {:induction false} DecimalRoundTrip(n: nat)
    ensures DecimalValue(NatToDecimal(n)) == n
    decreases n
  {
    if n >= 10 {
      var s := NatToDecimal(n);
      assert s[..|s| - 1] == NatToDecimal(n / 10);
      DecimalRoundTrip(n / 10);
    }
  }

  /** Hence different numbers render differently. */
  lemma DecimalInjective(m: nat, n: nat)
    requires NatToDecimal(m) == NatToDecimal(n)
    ensures m == n
  {
    DecimalRoundTrip(m);
    DecimalRoundTrip(n);
  }
}
