/**
 * The Python `str` operations the backend relies on: `isspace`, `strip`,
 * `split()` (on runs of whitespace), `split(sep)`, `sep.join(parts)` and
 * `lower` (ASCII letters only).
 */
module Strings {
  import opened Sequences

  /** Python's `str.isspace()` for one character (Unicode whitespace). */
  predicate IsSpace(c: char) {
    var n := c as int;
    || 9 <= n <= 13 || 28 <= n <= 32 || n == 0x85 || n == 0xA0 || n == 0x1680
    || 0x2000 <= n <= 0x200A || n == 0x2028 || n == 0x2029 || n == 0x202F
    || n == 0x205F || n == 0x3000
  }

  predicate AllSpace(s: string) {
    forall i :: 0 <= i < |s| ==> IsSpace(s[i])
  }

  predicate NoSpace(s: string) {
    forall i :: 0 <= i < |s| ==> !IsSpace(s[i])
  }

  /** A word of `str.split()`: a non-empty run without whitespace. */
  predicate IsWord(w: string) {
    w != [] && NoSpace(w)
  }

  /** No whitespace at either end. */
  predicate Trimmed(s: string) {
    s == [] || (!IsSpace(s[0]) && !IsSpace(s[|s| - 1]))
  }

  /**
   * Every whitespace character is a plain space standing between two
   * non-whitespace characters: no leading or trailing whitespace, and no run
   * of whitespace longer than one.
   */
  predicate SingleSpaced(s: string) {
    forall i :: 0 <= i < |s| && IsSpace(s[i]) ==>
      s[i] == ' ' && 0 < i < |s| - 1 && !IsSpace(s[i - 1]) && !IsSpace(s[i + 1])
  }

  /** Python's `str.lstrip()`. */
  function TrimStart(s: string): (r: string)
    ensures |r| <= |s|
    ensures r == [] || !IsSpace(r[0])
  {
    if s != [] && IsSpace(s[0]) then TrimStart(s[1..]) else s
  }

  /** `str.lstrip()` keeps a suffix and what it removes is whitespace. */
  lemma {:induction false} TrimStartRemovesSpace(s: string)
    ensures TrimStart(s) == s[|s| - |TrimStart(s)|..]
    ensures AllSpace(s[..|s| - |TrimStart(s)|])
  {
    if s != [] && IsSpace(s[0]) {
      var r := TrimStart(s[1..]);
      TrimStartRemovesSpace(s[1..]);
      assert s[1..][|s| - 1 - |r|..] == s[|s| - |r|..];
      assert forall i :: 0 < i < |s| - |r| ==> s[i] == s[1..][i - 1];
    }
  }

  /** Python's `str.rstrip()`. */
  function TrimEnd(s: string): (r: string)
    ensures |r| <= |s|
    ensures r == [] || !IsSpace(r[|r| - 1])
  {
    if s != [] && IsSpace(s[|s| - 1]) then TrimEnd(s[..|s| - 1]) else s
  }

  /** `str.rstrip()` keeps a prefix and what it removes is whitespace. */
  lemma {:induction false} TrimEndRemovesSpace(s: string)
    ensures TrimEnd(s) == s[..|TrimEnd(s)|]
    ensures AllSpace(s[|TrimEnd(s)|..])
  {
    if s != [] && IsSpace(s[|s| - 1]) {
      var r := TrimEnd(s[..|s| - 1]);
      TrimEndRemovesSpace(s[..|s| - 1]);
      assert forall i :: |r| <= i < |s| - 1 ==> s[i] == s[..|s| - 1][i];
    }
  }

  /** Python's `str.strip()`. */
  function Strip(s: string): (r: string)
    ensures Trimmed(r)
  {
    var t := TrimStart(s);
    var r := TrimEnd(t);
    TrimEndRemovesSpace(t);
    assert r != [] ==> r[0] == t[0];
    r
  }

  /** `str.strip()` gives a piece of its input between two runs of whitespace. */
  lemma StripSlice(s: string) returns (i: nat, j: nat)
    ensures i <= j <= |s| && Strip(s) == s[i..j]
    ensures AllSpace(s[..i]) && AllSpace(s[j..])
  {
    var t := TrimStart(s);
    var r := TrimEnd(t);
    TrimStartRemovesSpace(s);
    TrimEndRemovesSpace(t);
    i := |s| - |t|;
    j := i + |r|;
    assert t[|r|..] == s[j..];
  }

  lemma StripKeepsChars(s: string, c: char)
    requires c in Strip(s)
    ensures c in s
  {
    var i, j := StripSlice(s);
    SliceMember(s, i, j, c);
  }

  lemma StripEmpty(s: string)
    ensures Strip(s) == [] <==> AllSpace(s)
  {
    var i, j := StripSlice(s);
    if Strip(s) == [] {
      assert i == j;
      forall k | 0 <= k < |s| ensures IsSpace(s[k]) {
        if k < i { assert s[k] == s[..i][k]; } else { assert s[k] == s[j..][k - j]; }
      }
    } else {
      assert s[i] == Strip(s)[0];
    }
  }

  lemma StripTrimmed(s: string)
    requires Trimmed(s)
    ensures Strip(s) == s
  {
  }

  /** Python's `sep.join(parts)`. */
  function Join(sep: string, parts: seq<string>): string {
    if parts == [] then ""
    else if |parts| == 1 then parts[0]
    else parts[0] + sep + Join(sep, parts[1..])
  }

  /** Joining non-empty pieces with no whitespace at their ends gives a string with none at its ends. */
  lemma {:induction false} JoinTrimmed(sep: string, parts: seq<string>)
    requires parts != []
    requires forall k :: 0 <= k < |parts| ==> parts[k] != [] && Trimmed(parts[k])
    ensures Join(sep, parts) != [] && Trimmed(Join(sep, parts))
  {
    if |parts| > 1 {
      JoinTrimmed(sep, parts[1..]);
      var rest := Join(sep, parts[1..]);
      var j := parts[0] + sep + rest;
      assert j[0] == parts[0][0];
      assert j[|j| - 1] == rest[|rest| - 1];
    }
  }

  /** Length of the run of non-whitespace characters that starts `s`. */
  function WordLength(s: string): (n: nat)
    ensures n <= |s| && NoSpace(s[..n]) && (n < |s| ==> IsSpace(s[n]))
  {
    if s == [] || IsSpace(s[0]) then 0 else 1 + WordLength(s[1..])
  }

  /** Python's `str.split()` with no separator: the maximal runs of non-whitespace, in order. */
  function Split(s: string): (words: seq<string>)
    ensures forall k :: 0 <= k < |words| ==> IsWord(words[k])
    decreases |s|
  {
    var t := TrimStart(s);
    if t == [] then []
    else
      var n := WordLength(t);
      var rest := Split(t[n..]);
      WordsCons(t[..n], rest);
      [t[..n]] + rest
  }

  lemma WordsCons(w: string, words: seq<string>)
    requires IsWord(w)
    requires forall k :: 0 <= k < |words| ==> IsWord(words[k])
    ensures forall k :: 0 <= k < |[w] + words| ==> IsWord(([w] + words)[k])
  {
  }

  lemma SplitEmpty(s: string)
    ensures Split(s) == [] <==> AllSpace(s)
  {
    var t := TrimStart(s);
    TrimStartRemovesSpace(s);
    if t != [] {
      assert s[|s| - |t|] == t[0];
    } else {
      assert s[..|s|] == s;
    }
  }

  /** The non-whitespace characters of `s`, in their original order. */
  function NonSpaceChars(s: string): string {
    if s == [] then []
    else (if IsSpace(s[0]) then [] else [s[0]]) + NonSpaceChars(s[1..])
  }

  function Concat(parts: seq<string>): string {
    if parts == [] then [] else parts[0] + Concat(parts[1..])
  }

  lemma {:induction false} NonSpaceCharsAppend(a: string, b: string)
    ensures NonSpaceChars(a + b) == NonSpaceChars(a) + NonSpaceChars(b)
  {
    if a != [] {
      TailOfAppend(a, b);
      NonSpaceCharsAppend(a[1..], b);
      var h := if IsSpace(a[0]) then [] else [a[0]];
      AppendAssoc(h, NonSpaceChars(a[1..]), NonSpaceChars(b));
    } else {
      EmptyAppend(b);
    }
  }

  lemma {:induction false} NonSpaceCharsEmpty(s: string)
    ensures NonSpaceChars(s) == [] <==> AllSpace(s)
  {
    if s != [] {
      NonSpaceCharsEmpty(s[1..]);
      assert AllSpace(s) <==> IsSpace(s[0]) && AllSpace(s[1..]) by {
        if IsSpace(s[0]) && AllSpace(s[1..]) {
          forall i | 0 <= i < |s| ensures IsSpace(s[i]) {
            if i > 0 { assert s[i] == s[1..][i - 1]; }
          }
        }
      }
    }
  }

  lemma {:induction false} NonSpaceCharsOfWord(w: string)
    requires NoSpace(w)
    ensures NonSpaceChars(w) == w
  {
    if w != [] {
      NonSpaceCharsOfWord(w[1..]);
    }
  }

  /** Whitespace around a piece adds no non-whitespace characters. */
  lemma NonSpaceCharsBetweenSpaces(a: string, m: string, b: string)
    requires AllSpace(a) && AllSpace(b)
    ensures NonSpaceChars(a + (m + b)) == NonSpaceChars(m)
  {
    NonSpaceCharsAppend(a, m + b);
    NonSpaceCharsAppend(m, b);
    NonSpaceCharsEmpty(a);
    NonSpaceCharsEmpty(b);
  }

  /** `str.strip()` removes whitespace only. */
  lemma NonSpaceCharsStrip(s: string)
    ensures NonSpaceChars(Strip(s)) == NonSpaceChars(s)
  {
    var i, j := StripSlice(s);
    ThreeSlices(s, i, j);
    NonSpaceCharsBetweenSpaces(s[..i], s[i..j], s[j..]);
  }

  /** `str.split()` keeps exactly the non-whitespace characters, in order. */
  lemma {:induction false} ConcatSplit(s: string)
    ensures Concat(Split(s)) == NonSpaceChars(s)
    decreases |s|
  {
    var t := TrimStart(s);
    var k := |s| - |t|;
    TakeDrop(s, k);
    TrimStartRemovesSpace(s);
    NonSpaceCharsAppend(s[..k], t);
    NonSpaceCharsEmpty(s[..k]);
    if t != [] {
      var n := WordLength(t);
      var w, rest := t[..n], t[n..];
      TakeDrop(t, n);
      NonSpaceCharsAppend(w, rest);
      NonSpaceCharsOfWord(w);
      ConcatSplit(rest);
      var words := Split(s);
      assert words == [w] + Split(rest);
      assert words[1..] == Split(rest);
    }
  }

  /** Joining words with single spaces keeps exactly the characters of the words. */
  lemma {:induction false} NonSpaceCharsJoin(words: seq<string>)
    requires forall k :: 0 <= k < |words| ==> IsWord(words[k])
    ensures NonSpaceChars(Join(" ", words)) == Concat(words)
  {
    if words == [] {
    } else if |words| == 1 {
      NonSpaceCharsOfWord(words[0]);
      assert Concat(words[1..]) == [];
    } else {
      NonSpaceCharsJoin(words[1..]);
      NonSpaceCharsOfWord(words[0]);
      NonSpaceCharsAppend(words[0] + " ", Join(" ", words[1..]));
      NonSpaceCharsAppend(words[0], " ");
      assert IsSpace(' ');
    }
  }

  /** The words joined by single spaces form a single-spaced, non-empty text. */
  lemma {:induction false} JoinWordsSingleSpaced(words: seq<string>)
    requires words != []
    requires forall k :: 0 <= k < |words| ==> IsWord(words[k])
    ensures var j := Join(" ", words); j != [] && SingleSpaced(j) && !IsSpace(j[0]) && !IsSpace(j[|j| - 1])
  {
    var w := words[0];
    if |words| == 1 {
      assert Join(" ", words) == w;
    } else {
      var rest := Join(" ", words[1..]);
      JoinWordsSingleSpaced(words[1..]);
      var j := w + " " + rest;
      assert Join(" ", words) == j;
      assert j[0] == w[0];
      assert j[|j| - 1] == rest[|rest| - 1];
      forall i | 0 <= i < |j| && IsSpace(j[i])
        ensures j[i] == ' ' && 0 < i < |j| - 1 && !IsSpace(j[i - 1]) && !IsSpace(j[i + 1])
      {
        if i < |w| {
          assert false;
        } else if i == |w| {
          assert j[i + 1] == rest[0];
          assert j[i - 1] == w[|w| - 1];
        } else {
          var m := i - |w| - 1;
          assert j[i] == rest[m];
          assert 0 < m < |rest| - 1;
          assert j[i - 1] == rest[m - 1];
          assert j[i + 1] == rest[m + 1];
        }
      }
    }
  }

  lemma {:induction false} WordLengthOfWord(w: string, rest: string)
    requires NoSpace(w)
    requires rest == [] || IsSpace(rest[0])
    ensures WordLength(w + rest) == |w|
  {
    if w != [] {
      assert (w + rest)[1..] == w[1..] + rest;
      WordLengthOfWord(w[1..], rest);
    } else {
      assert w + rest == rest;
    }
  }

  lemma SplitSkipsSpace(c: char, s: string)
    requires IsSpace(c)
    ensures Split([c] + s) == Split(s)
  {
    assert ([c] + s)[1..] == s;
    assert TrimStart([c] + s) == TrimStart(s);
  }

  /** A word followed by whitespace (or nothing) splits off as the first word. */
  lemma SplitWordFirst(w: string, rest: string)
    requires IsWord(w)
    requires rest == [] || IsSpace(rest[0])
    ensures Split(w + rest) == [w] + Split(rest)
  {
    var s := w + rest;
    assert s[0] == w[0];
    assert TrimStart(s) == s;
    WordLengthOfWord(w, rest);
    assert s[..|w|] == w;
    assert s[|w|..] == rest;
  }

  lemma JoinCons(sep: string, parts: seq<string>)
    requires |parts| > 1
    ensures Join(sep, parts) == parts[0] + (sep + Join(sep, parts[1..]))
  {
  }

  /** A word, a space and more text split into the word and the split of the rest. */
  lemma SplitWordSpace(w: string, rest: string)
    requires IsWord(w)
    ensures Split(w + (" " + rest)) == [w] + Split(rest)
  {
    assert IsSpace(' ');
    SplitWordFirst(w, " " + rest);
    SplitSkipsSpace(' ', rest);
  }

  /** The base case of `SplitJoin`: a single word splits to itself. */
  lemma SplitJoinOne(words: seq<string>)
    requires |words| == 1 && IsWord(words[0])
    ensures Split(Join(" ", words)) == words
  {
    SplitWord(words[0]);
    assert words == [words[0]];
  }

  /** A single word splits to itself. */
  lemma SplitWord(w: string)
    requires IsWord(w)
    ensures Split(w) == [w]
  {
    SplitWordFirst(w, []);
    AppendEmpty(w);
    AppendEmpty([w]);
    assert Split([]) == [];
  }

  /** One step of `SplitJoin`: the first word splits off, the rest is the induction hypothesis. */
  lemma SplitJoinStep(words: seq<string>)
    requires |words| > 1 && IsWord(words[0])
    requires Split(Join(" ", words[1..])) == words[1..]
    ensures Split(Join(" ", words)) == words
  {
    JoinCons(" ", words);
    SplitWordSpace(words[0], Join(" ", words[1..]));
    HeadTail(words, 0);
  }

  /** Splitting undoes joining single-spaced words: `" ".join(ws).split() == ws`. */
  lemma {:induction false} SplitJoin(words: seq<string>)
    requires forall k :: 0 <= k < |words| ==> IsWord(words[k])
    ensures Split(Join(" ", words)) == words
  {
    if |words| == 1 {
      SplitJoinOne(words);
    } else if |words| > 1 {
      SplitJoin(words[1..]);
      SplitJoinStep(words);
    }
  }

  /** ASCII lower-casing of one character. */
  function LowerChar(c: char): char {
    if 'A' <= c <= 'Z' then (c as int + 32) as char else c
  }

  /** Python's `str.lower()`, restricted to ASCII letters. */
  function Lower(s: string): (r: string)
    ensures |r| == |s|
  {
    if s == [] then [] else [LowerChar(s[0])] + Lower(s[1..])
  }

  /** Lower-casing works character by character. */
  lemma {:induction false} LowerAt(s: string)
    ensures forall i :: 0 <= i < |s| ==> Lower(s)[i] == LowerChar(s[i])
  {
    if s != [] {
      LowerAt(s[1..]);
    }
  }

  /** Lower-casing twice is lower-casing once. */
  lemma {:induction false} LowerIdempotent(s: string)
    ensures Lower(Lower(s)) == Lower(s)
  {
    if s != [] {
      var l := Lower(s);
      LowerIdempotent(s[1..]);
      assert l[1..] == Lower(s[1..]);
    }
  }

  /** `t` is the lower-casing of `s` when it agrees with it character by character. */
  lemma LowerIs(s: string, t: string)
    requires |s| == |t|
    requires forall i :: 0 <= i < |s| ==> LowerChar(s[i]) == t[i]
    ensures Lower(s) == t
  {
    LowerAt(s);
  }

  /** Python's `s.split(sep)` for a one-character separator: never empty, pieces free of `sep`. */
  function SplitOn(s: string, sep: char): (pieces: seq<string>)
    ensures |pieces| >= 1
    ensures forall k :: 0 <= k < |pieces| ==> sep !in pieces[k]
  {
    if s == [] then [""]
    else
      var rest := SplitOn(s[1..], sep);
      if s[0] == sep then [""] + rest else [[s[0]] + rest[0]] + rest[1..]
  }

  /** Joining the pieces with the separator gives back the original text. */
  lemma {:induction false} JoinSplitOn(s: string, sep: char)
    ensures Join([sep], SplitOn(s, sep)) == s
  {
    if s != [] {
      var rest := SplitOn(s[1..], sep);
      JoinSplitOn(s[1..], sep);
      if s[0] == sep {
        assert SplitOn(s, sep) == [""] + rest;
        assert ([""] + rest)[1..] == rest;
      } else {
        var p := SplitOn(s, sep);
        assert p == [[s[0]] + rest[0]] + rest[1..];
        if |rest| == 1 {
          assert Join([sep], rest) == rest[0];
        } else {
          assert Join([sep], rest) == rest[0] + [sep] + Join([sep], rest[1..]);
          assert p[1..] == rest[1..];
        }
      }
    }
  }

  lemma {:induction false} SplitOnNoSeparator(p: string, sep: char)
    requires sep !in p
    ensures SplitOn(p, sep) == [p]
  {
    if p != [] {
      SplitOnNoSeparator(p[1..], sep);
      assert [p[0]] + p[1..] == p;
    }
  }

  lemma {:induction false} SplitOnFirstPiece(p: string, rest: string, sep: char)
    requires sep !in p
    ensures SplitOn(p + [sep] + rest, sep) == [p] + SplitOn(rest, sep)
  {
    if p == [] {
      assert p + [sep] + rest == [sep] + rest;
      assert ([sep] + rest)[1..] == rest;
    } else {
      assert (p + [sep] + rest)[1..] == p[1..] + [sep] + rest;
      SplitOnFirstPiece(p[1..], rest, sep);
      assert [p[0]] + p[1..] == p;
    }
  }

  /** Splitting undoes joining separator-free pieces: `sep.join(ps).split(sep) == ps`. */
  lemma {:induction false} SplitOnJoin(parts: seq<string>, sep: char)
    requires parts != []
    requires forall k :: 0 <= k < |parts| ==> sep !in parts[k]
    ensures SplitOn(Join([sep], parts), sep) == parts
  {
    if |parts| == 1 {
      SplitOnNoSeparator(parts[0], sep);
    } else {
      SplitOnJoin(parts[1..], sep);
      SplitOnFirstPiece(parts[0], Join([sep], parts[1..]), sep);
      assert [parts[0]] + parts[1..] == parts;
    }
  }
}
