/** The string operations of Python that the triage code relies on:
    `lower`, `upper`, `strip`, `in` (substring), `startswith`/`endswith`,
    `split()`/`split(",")` and `", ".join`. Case mapping covers ASCII and
    the Latin-1 letters (enough for the Spanish vocabulary of the knowledge
    base); whitespace is Python's ASCII and Latin-1 whitespace. */
module Text {

  // ---------------------------------------------------------------------
  // Case mapping

  predicate IsUpperChar(c: char) {
    ('A' <= c <= 'Z') || ('\U{00C0}' <= c <= '\U{00DE}' && c != '\U{00D7}')
  }

  predicate IsLowerChar(c: char) {
    ('a' <= c <= 'z') || ('\U{00E0}' <= c <= '\U{00FE}' && c != '\U{00F7}')
  }

  function LowerChar(c: char): (r: char)
    ensures !IsUpperChar(r)
    ensures IsUpperChar(c) ==> IsLowerChar(r) && UpperChar(r) == c
    ensures !IsUpperChar(c) ==> r == c
  {
    if IsUpperChar(c) then (c as int + 32) as char else c
  }

  function UpperChar(c: char): (r: char)
    ensures !IsLowerChar(r)
    ensures IsLowerChar(c) ==> IsUpperChar(r)
    ensures !IsLowerChar(c) ==> r == c
  {
    if IsLowerChar(c) then (c as int - 32) as char else c
  }

  /** `s.lower()` */
  function Lower(s: string): (r: string)
    ensures |r| == |s|
    ensures forall i :: 0 <= i < |s| ==> r[i] == LowerChar(s[i])
  {
    seq(|s|, i requires 0 <= i < |s| => LowerChar(s[i]))
  }

  /** `s.upper()` */
  function Upper(s: string): (r: string)
    ensures |r| == |s|
    ensures forall i :: 0 <= i < |s| ==> r[i] == UpperChar(s[i])
  {
    seq(|s|, i requires 0 <= i < |s| => UpperChar(s[i]))
  }

  /** A string with no upper-case letter is its own lower-case form. */
  predicate IsLowerCase(s: string) {
    forall i :: 0 <= i < |s| ==> !IsUpperChar(s[i])
  }

  /** `lower()` leaves no upper-case letter, is idempotent, and loses
      nothing that `upper()` would see. */
  lemma {:induction false} LowerMeaning(s: string)
    ensures IsLowerCase(Lower(s))
    ensures Lower(Lower(s)) == Lower(s)
    ensures Upper(Lower(s)) == Upper(s)
  {
    forall i | 0 <= i < |s|
      ensures UpperChar(LowerChar(s[i])) == UpperChar(s[i])
    {
    }
  }

  /** `upper()` leaves no lower-case letter, is idempotent, and loses
      nothing that `lower()` would see. */
  lemma {:induction false} UpperMeaning(s: string)
    ensures forall i :: 0 <= i < |s| ==> !IsLowerChar(Upper(s)[i])
    ensures Upper(Upper(s)) == Upper(s)
    ensures Lower(Upper(s)) == Lower(s)
  {
    forall i | 0 <= i < |s|
      ensures LowerChar(UpperChar(s[i])) == LowerChar(s[i])
    {
    }
  }

  lemma {:induction false} LowerOfLowerCase(s: string)
    requires IsLowerCase(s)
    ensures Lower(s) == s
  {
  }

  lemma {:induction false} LowerAppend(a: string, b: string)
    ensures Lower(a + b) == Lower(a) + Lower(b)
  {
  }

  // ---------------------------------------------------------------------
  // Whitespace and strip()

  /** Python's `str.isspace` restricted to ASCII and Latin-1. */
  predicate IsSpace(c: char) {
    c == ' ' || ('\t' <= c <= '\r') || ('\U{001C}' <= c <= '\U{001F}')
    || c == '\U{0085}' || c == '\U{00A0}'
  }

  predicate AllSpace(s: string) {
    forall i :: 0 <= i < |s| ==> IsSpace(s[i])
  }

  function TrimLeft(s: string): (r: string)
    ensures |r| <= |s|
    ensures r == [] || !IsSpace(r[0])
    decreases |s|
  {
    if s != [] && IsSpace(s[0]) then TrimLeft(s[1..]) else s
  }

  /** What `TrimLeft` drops is whitespace. */
  lemma {:induction false} TrimLeftDropsSpaces(s: string)
    ensures forall i :: 0 <= i < |s| - |TrimLeft(s)| ==> IsSpace(s[i])
    decreases |s|
  {
    if s != [] && IsSpace(s[0]) {
      TrimLeftDropsSpaces(s[1..]);
    }
  }

  /** What `TrimLeft` keeps is the end of `s`, character by character. */
  lemma {:induction false} TrimLeftAt(s: string, i: nat)
    requires i < |TrimLeft(s)|
    ensures TrimLeft(s)[i] == s[|s| - |TrimLeft(s)| + i]
    decreases |s|
  {
    if s != [] && IsSpace(s[0]) {
      TrimLeftAt(s[1..], i);
    }
  }

  function TrimRight(s: string): (r: string)
    ensures |r| <= |s| && forall i :: 0 <= i < |r| ==> r[i] == s[i]
    ensures r == [] || !IsSpace(r[|r| - 1])
    ensures forall i :: |r| <= i < |s| ==> IsSpace(s[i])
    decreases |s|
  {
    if s != [] && IsSpace(s[|s| - 1]) then TrimRight(s[..|s| - 1]) else s
  }

  /** `s.strip()`: the longest slice of `s` that neither starts nor ends with whitespace. */
  function Strip(s: string): (r: string)
    ensures |r| <= |s|
    ensures r == [] || (!IsSpace(r[0]) && !IsSpace(r[|r| - 1]))
  {
    TrimRight(TrimLeft(s))
  }

  lemma {:induction false} TrimLeftSpaces(a: string, s: string)
    requires AllSpace(a)
    ensures TrimLeft(a + s) == TrimLeft(s)
    decreases |a|
  {
    if a != [] {
      assert IsSpace(a[0]);
      assert (a + s)[0] == a[0] && (a + s)[1..] == a[1..] + s;
      TrimLeftSpaces(a[1..], s);
      assert TrimLeft(a + s) == TrimLeft(a[1..] + s);
    } else {
      assert a + s == s;
    }
  }

  lemma {:induction false} TrimRightSpaces(s: string, b: string)
    requires AllSpace(b)
    ensures TrimRight(s + b) == TrimRight(s)
    decreases |b|
  {
    if b != [] {
      assert IsSpace(b[|b| - 1]);
      assert (s + b)[|s + b| - 1] == b[|b| - 1];
      assert (s + b)[..|s + b| - 1] == s + b[..|b| - 1];
      TrimRightSpaces(s, b[..|b| - 1]);
      assert TrimRight(s + b) == TrimRight(s + b[..|b| - 1]);
    } else {
      assert s + b == s;
    }
  }

  lemma {:induction false} TrimLeftKeepsTail(s: string, b: string)
    requires TrimLeft(s) != []
    ensures TrimLeft(s + b) == TrimLeft(s) + b
    decreases |s|
  {
    if IsSpace(s[0]) {
      assert (s + b)[0] == s[0] && (s + b)[1..] == s[1..] + b;
      TrimLeftKeepsTail(s[1..], b);
    } else {
      assert (s + b)[0] == s[0];
    }
  }

  lemma {:induction false} TrimLeftOfSpaces(b: string)
    requires AllSpace(b)
    ensures TrimLeft(b) == []
    decreases |b|
  {
    if b != [] {
      TrimLeftOfSpaces(b[1..]);
    }
  }

  /** Whitespace wrapped around a string never survives `strip()`. */
  lemma {:induction false} StripPadded(a: string, s: string, b: string)
    requires AllSpace(a) && AllSpace(b)
    ensures Strip(a + s + b) == Strip(s)
  {
    assert a + s + b == a + (s + b);
    TrimLeftSpaces(a, s + b);
    if TrimLeft(s) == [] {
      assert AllSpace(s) by {
        TrimLeftDropsSpaces(s);
      }
      assert AllSpace(s + b);
      TrimLeftOfSpaces(s + b);
    } else {
      TrimLeftKeepsTail(s, b);
      TrimRightSpaces(TrimLeft(s), b);
    }
  }

  /** A slice of a lower-case string is lower-case. */
  lemma {:induction false} SliceKeepsLowerCase(s: string, i: nat, j: nat)
    requires IsLowerCase(s) && i <= j <= |s|
    ensures IsLowerCase(s[i..j])
  {
    assert forall k :: 0 <= k < j - i ==> s[i..j][k] == s[i + k];
  }

  /** Stripping never brings in an upper-case letter. */
  lemma {:induction false} StripKeepsLowerCase(s: string)
    requires IsLowerCase(s)
    ensures IsLowerCase(Strip(s))
  {
    var t := TrimLeft(s);
    SliceKeepsLowerCase(s, |s| - |t|, |s|);
    forall k | 0 <= k < |t| ensures t[k] == s[|s| - |t|..|s|][k] {
      TrimLeftAt(s, k);
    }
    assert s[|s| - |t|..|s|] == t;
    SliceKeepsLowerCase(t, 0, |TrimRight(t)|);
    assert t[0..|TrimRight(t)|] == TrimRight(t);
  }

  /** A string that already has no surrounding whitespace is its own strip. */
  lemma {:induction false} StripNoOp(s: string)
    requires s == [] || (!IsSpace(s[0]) && !IsSpace(s[|s| - 1]))
    ensures Strip(s) == s
  {
  }

  /** `strip()` keeps characters of its argument only. */
  lemma {:induction false} StripKeepsChars(s: string)
    ensures forall k :: 0 <= k < |Strip(s)| ==> Strip(s)[k] in s
  {
    var t := TrimLeft(s);
    var r := TrimRight(t);
    forall k | 0 <= k < |r| ensures r[k] in s {
      TrimLeftAt(s, k);
      assert r[k] == s[|s| - |t| + k];
    }
  }

  // ---------------------------------------------------------------------
  // Substrings

  /** Python's `needle in hay` for strings. */
  predicate Contains(hay: string, needle: string)
    decreases |hay|
  {
    needle <= hay || (hay != [] && Contains(hay[1..], needle))
  }

  lemma {:induction false} ContainsAppendLeft(a: string, b: string, needle: string)
    requires Contains(b, needle)
    ensures Contains(a + b, needle)
    decreases |a|
  {
    if a != [] {
      assert (a + b)[1..] == a[1..] + b;
      ContainsAppendLeft(a[1..], b, needle);
      assert Contains((a + b)[1..], needle);
    } else {
      assert a + b == b;
    }
  }

  lemma {:induction false} ContainsAppendRight(a: string, b: string, needle: string)
    requires Contains(a, needle)
    ensures Contains(a + b, needle)
    decreases |a|
  {
    if !(needle <= a) {
      assert (a + b)[1..] == a[1..] + b;
      ContainsAppendRight(a[1..], b, needle);
    }
  }

  /** A string contains every prefix of every string it contains. */
  lemma {:induction false} ContainsPrefix(hay: string, needle: string, part: string)
    requires Contains(hay, needle) && part <= needle
    ensures Contains(hay, part)
    decreases |hay|
  {
    if !(needle <= hay) {
      ContainsPrefix(hay[1..], needle, part);
    }
  }

  /** Every character of a contained string occurs in the containing one. */
  lemma {:induction false} ContainsChars(hay: string, needle: string, c: char)
    requires Contains(hay, needle) && c in needle
    ensures c in hay
    decreases |hay|
  {
    if needle <= hay {
      var k :| 0 <= k < |needle| && needle[k] == c;
      assert hay[k] == c;
    } else {
      ContainsChars(hay[1..], needle, c);
    }
  }

  /** A string missing one of the characters of `needle` does not contain it. */
  lemma {:induction false} MissingCharNotContained(hay: string, needle: string, c: char)
    requires c in needle && c !in hay
    ensures !Contains(hay, needle)
  {
    if Contains(hay, needle) {
      ContainsChars(hay, needle, c);
    }
  }

  /** Some pattern of `patterns` occurs in `text`. */
  predicate AnyPatternIn(patterns: seq<string>, text: string)
    decreases |patterns|
  {
    patterns != [] && (Contains(text, patterns[0]) || AnyPatternIn(patterns[1..], text))
  }

  lemma {:induction false} AnyPatternMeaning(patterns: seq<string>, text: string)
    ensures AnyPatternIn(patterns, text) <==> exists p :: p in patterns && Contains(text, p)
    decreases |patterns|
  {
    if patterns != [] {
      AnyPatternMeaning(patterns[1..], text);
      if exists p :: p in patterns && Contains(text, p) {
        var p :| p in patterns && Contains(text, p);
        if p != patterns[0] {
          var k :| 0 <= k < |patterns| && patterns[k] == p;
          assert patterns[1..][k - 1] == p;
        }
      }
    }
  }

  predicate StartsWith(s: string, prefix: string) {
    prefix <= s
  }

  predicate EndsWith(s: string, suffix: string) {
    |suffix| <= |s| && s[|s| - |suffix|..] == suffix
  }

  // ---------------------------------------------------------------------
  // Splitting and joining

  /** `s.split(",")`: the pieces between commas, empty ones kept. */
  function SplitCommas(s: string): (r: seq<string>)
    ensures |r| >= 1
    ensures forall k :: 0 <= k < |r| ==> ',' !in r[k]
    decreases |s|
  {
    if s == [] then [[]]
    else
      var rest := SplitCommas(s[1..]);
      if s[0] == ',' then [[]] + rest
      else [[s[0]] + rest[0]] + rest[1..]
  }

  /** `sep.join(pieces)` */
  function Join(pieces: seq<string>, sep: string): string
    decreases |pieces|
  {
    if |pieces| == 0 then ""
    else if |pieces| == 1 then pieces[0]
    else pieces[0] + sep + Join(pieces[1..], sep)
  }

  /** Splitting at commas and joining with commas gives the string back. */
  lemma {:induction false} SplitCommasJoin(s: string)
    ensures Join(SplitCommas(s), ",") == s
    decreases |s|
  {
    if s != [] {
      SplitCommasJoin(s[1..]);
      var rest := SplitCommas(s[1..]);
      if s[0] == ',' {
        assert SplitCommas(s) == [[]] + rest;
        assert s == [','] + s[1..];
      } else {
        assert SplitCommas(s) == [[s[0]] + rest[0]] + rest[1..];
        if |rest| == 1 {
          assert s == [s[0]] + s[1..];
        } else {
          assert Join(rest, ",") == rest[0] + "," + Join(rest[1..], ",");
          assert s == [s[0]] + s[1..];
        }
      }
    }
  }

  /** A comma-free piece followed by a comma splits off as the first piece. */
  lemma {:induction false} SplitAtComma(a: string, rest: string)
    requires ',' !in a
    ensures SplitCommas(a + "," + rest) == [a] + SplitCommas(rest)
    decreases |a|
  {
    var s := a + "," + rest;
    if a == [] {
      assert s[0] == ',' && s[1..] == rest;
    } else {
      assert s[0] == a[0] && s[1..] == a[1..] + "," + rest;
      SplitAtComma(a[1..], rest);
      assert [a[0]] + a[1..] == a;
    }
  }

  /** A string without commas is a single piece. */
  lemma {:induction false} SplitWithoutComma(s: string)
    requires ',' !in s
    ensures SplitCommas(s) == [s]
    decreases |s|
  {
    if s != [] {
      SplitWithoutComma(s[1..]);
      assert [s[0]] + s[1..] == s;
    }
  }

  /** The pieces between runs of whitespace, empty ones kept. */
  function SplitSpaces(s: string): (r: seq<string>)
    ensures |r| >= 1
    ensures forall k, i :: 0 <= k < |r| && 0 <= i < |r[k]| ==> !IsSpace(r[k][i])
    decreases |s|
  {
    if s == [] then [[]]
    else
      var rest := SplitSpaces(s[1..]);
      if IsSpace(s[0]) then [[]] + rest
      else [[s[0]] + rest[0]] + rest[1..]
  }

  /** Splitting at whitespace and joining with single spaces gives the
      string back with each whitespace character turned into a space. */
  lemma {:induction false} SplitSpacesJoin(s: string)
    ensures Join(SplitSpaces(s), " ") == Blanked(s)
    decreases |s|
  {
    if s != [] {
      SplitSpacesJoin(s[1..]);
      var rest := SplitSpaces(s[1..]);
      if IsSpace(s[0]) {
        assert SplitSpaces(s) == [[]] + rest;
      } else {
        assert SplitSpaces(s) == [[s[0]] + rest[0]] + rest[1..];
        if |rest| > 1 {
          assert Join(rest, " ") == rest[0] + " " + Join(rest[1..], " ");
        }
      }
    }
  }

  /** The string with each whitespace character replaced by a space. */
  function Blanked(s: string): (r: string)
    ensures |r| == |s|
    decreases |s|
  {
    if s == [] then [] else [if IsSpace(s[0]) then ' ' else s[0]] + Blanked(s[1..])
  }

  /** The non-empty pieces of a list of strings, in order. */
  function NonEmpty(pieces: seq<string>): (r: seq<string>)
    ensures forall k :: 0 <= k < |r| ==> r[k] != [] && r[k] in pieces
    decreases |pieces|
  {
    if pieces == [] then []
    else if pieces[0] == [] then NonEmpty(pieces[1..])
    else [pieces[0]] + NonEmpty(pieces[1..])
  }

  lemma {:induction false} NonEmptyShorter(pieces: seq<string>)
    ensures |NonEmpty(pieces)| <= |pieces|
    decreases |pieces|
  {
    if pieces != [] {
      NonEmptyShorter(pieces[1..]);
    }
  }

  /** Filtering keeps a non-empty piece, drops an empty one, and works
      piece by piece over a concatenation, so it keeps every non-empty
      piece in its order. */
  lemma {:induction false} NonEmptyAppend(a: seq<string>, b: seq<string>)
    ensures NonEmpty([]) == []
    ensures forall x :: NonEmpty([x]) == if x == [] then [] else [x]
    ensures NonEmpty(a + b) == NonEmpty(a) + NonEmpty(b)
    decreases |a|
  {
    forall x
      ensures NonEmpty([x]) == if x == [] then [] else [x]
    {
      assert [x][1..] == [];
    }
    if a == [] {
      assert a + b == b;
    } else {
      assert (a + b)[0] == a[0] && (a + b)[1..] == a[1..] + b;
      NonEmptyAppend(a[1..], b);
      if a[0] != [] {
        assert NonEmpty(a + b) == [a[0]] + (NonEmpty(a[1..]) + NonEmpty(b));
      }
    }
  }

  /** `s.split()` with no argument: the maximal runs of non-whitespace. */
  function Words(s: string): (r: seq<string>)
    ensures forall k, i :: 0 <= k < |r| && 0 <= i < |r[k]| ==> !IsSpace(r[k][i])
    ensures forall k :: 0 <= k < |r| ==> r[k] != []
  {
    NonEmpty(SplitSpaces(s))
  }

  // ---------------------------------------------------------------------
  // Decimal rendering of integers (Python's `str(n)`)

  function DigitChar(d: nat): char
    requires d < 10
  {
    "0123456789"[d]
  }

  function NatToString(n: nat): (r: string)
    ensures r != []
    decreases n
  {
    if n < 10 then [DigitChar(n)] else NatToString(n / 10) + [DigitChar(n % 10)]
  }

  function IntToString(n: int): (r: string)
    ensures r != []
  {
    if n < 0 then "-" + NatToString(-n) else NatToString(n)
  }

  /** Only zero is written "0". */
  lemma {:induction false} IntToStringZero(n: int)
    ensures IntToString(n) == "0" <==> n == 0
  {
    if n < 0 {
      assert IntToString(n)[0] == '-';
    } else if n >= 10 {
      assert |IntToString(n)| == |NatToString(n / 10)| + 1 >= 2;
    } else if n > 0 {
      assert IntToString(n) == [DigitChar(n)];
      assert DigitChar(n) != '0';
    }
  }
}
