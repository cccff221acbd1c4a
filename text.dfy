/** The Kotlin string operations the core relies on, over ASCII: case mapping,
    `trim`, `contains`, `String.compareTo`, `replace`, `split` and `joinToString`. */
module AsciiText {

  predicate IsUpper(c: char) { 'A' <= c <= 'Z' }
  predicate IsLower(c: char) { 'a' <= c <= 'z' }

  /** `Char.lowercaseChar()` on ASCII. */
  function ToLower(c: char): (r: char)
    ensures IsUpper(c) ==> IsLower(r) && r as int == c as int + 32
    ensures !IsUpper(c) ==> r == c
  {
    if IsUpper(c) then (c as int + 32) as char else c
  }

  /** `Char.uppercaseChar()`, and also `Char.titlecase()`, on ASCII. */
  function ToUpper(c: char): (r: char)
    ensures IsLower(c) ==> IsUpper(r) && r as int == c as int - 32
    ensures !IsLower(c) ==> r == c
  {
    if IsLower(c) then (c as int - 32) as char else c
  }

  lemma UpperOfLower(c: char)
    requires IsUpper(c)
    ensures ToUpper(ToLower(c)) == c
  {
  }

  /** `String.lowercase()`: every character is mapped, none added or dropped. */
  function Lowercase(s: string): (r: string)
    ensures |r| == |s|
    ensures forall i :: 0 <= i < |s| ==> r[i] == ToLower(s[i])
  {
    if s == [] then [] else [ToLower(s[0])] + Lowercase(s[1..])
  }

  /** `String.uppercase()`. */
  function Uppercase(s: string): (r: string)
    ensures |r| == |s|
    ensures forall i :: 0 <= i < |s| ==> r[i] == ToUpper(s[i])
  {
    if s == [] then [] else [ToUpper(s[0])] + Uppercase(s[1..])
  }

  /** `String.replace(from, to)` for one-character `from` and `to`. */
  function ReplaceChar(s: string, from: char, to: char): (r: string)
    ensures |r| == |s|
    ensures forall i :: 0 <= i < |s| ==> r[i] == (if s[i] == from then to else s[i])
  {
    if s == [] then [] else [if s[0] == from then to else s[0]] + ReplaceChar(s[1..], from, to)
  }

  /** `Char.isWhitespace()` restricted to ASCII: tab, line feed, vertical tab, form feed,
      carriage return, the four information separators and space. */
  predicate IsWhitespace(c: char) {
    ('\U{9}' <= c <= '\U{D}') || ('\U{1C}' <= c <= ' ')
  }

  predicate AllWhitespace(s: string) {
    forall i :: 0 <= i < |s| ==> IsWhitespace(s[i])
  }

  /** Number of leading whitespace characters. */
  function LeadingWhitespace(s: string): (k: nat)
    ensures k <= |s|
    ensures AllWhitespace(s[..k])
    ensures k < |s| ==> !IsWhitespace(s[k])
  {
    if s == [] || !IsWhitespace(s[0]) then 0 else 1 + LeadingWhitespace(s[1..])
  }

  /** Index just after the last non-whitespace character (0 if there is none). */
  function TrailingCut(s: string): (k: nat)
    ensures k <= |s|
    ensures AllWhitespace(s[k..])
    ensures k > 0 ==> !IsWhitespace(s[k - 1])
  {
    if s == [] || !IsWhitespace(s[|s| - 1]) then |s|
    else
      var k := TrailingCut(s[..|s| - 1]);
      assert s[k..] == s[..|s| - 1][k..] + [s[|s| - 1]];
      k
  }

  /** `String.trim()`: drops whitespace at both ends and keeps the middle untouched. */
  function Trim(s: string): (r: string)
    ensures r == [] <==> AllWhitespace(s)
    ensures r != [] ==> !IsWhitespace(r[0]) && !IsWhitespace(r[|r| - 1])
    ensures r != [] ==> r == s[LeadingWhitespace(s)..TrailingCut(s)]
    ensures r != [] ==> AllWhitespace(s[..LeadingWhitespace(s)]) && AllWhitespace(s[TrailingCut(s)..])
  {
    var a, b := LeadingWhitespace(s), TrailingCut(s);
    if a < b then s[a..b]
    else
      assert a == |s|;
      assert s[..a] == s;
      []
  }

  predicate StartsWith(s: string, q: string) {
    |q| <= |s| && s[..|q|] == q
  }

  /** `CharSequence.contains(other)`: `q` occurs in `s` as a contiguous block. */
  predicate Contains(s: string, q: string)
    ensures q == [] ==> Contains(s, q)
    ensures Contains(s, q) ==> |q| <= |s|
    decreases |s|
  {
    StartsWith(s, q) || (s != [] && Contains(s[1..], q))
  }

  predicate OccursAt(s: string, q: string, i: int) {
    0 <= i <= |s| - |q| && s[i..i + |q|] == q
  }

  /** `Contains` holds exactly when `q` occurs at some position of `s`. */
  lemma {:induction false} ContainsAt(s: string, q: string)
    ensures Contains(s, q) <==> exists i :: OccursAt(s, q, i)
  {
    if StartsWith(s, q) {
      assert s[0..|q|] == s[..|q|];
      assert OccursAt(s, q, 0);
    }
    if s == [] {
      if i :| OccursAt(s, q, i) { assert s[..|q|] == s[i..i + |q|]; }
    } else {
      ContainsAt(s[1..], q);
      if Contains(s[1..], q) {
        var i :| OccursAt(s[1..], q, i);
        assert s[i + 1..i + 1 + |q|] == s[1..][i..i + |q|];
        assert OccursAt(s, q, i + 1);
      }
      if i :| OccursAt(s, q, i) {
        if i == 0 {
          assert s[..|q|] == s[i..i + |q|];
        } else {
          assert s[1..][i - 1..i - 1 + |q|] == s[i..i + |q|];
          assert OccursAt(s[1..], q, i - 1);
        }
      }
    }
  }

  /** Kotlin's `String.compareTo(other) <= 0`: lexicographic by character, a proper
      prefix before the longer string. */
  predicate LexLe(a: string, b: string)
  {
    a == [] || (b != [] && (a[0] < b[0] || (a[0] == b[0] && LexLe(a[1..], b[1..]))))
  }

  predicate LexLt(a: string, b: string)
    ensures LexLt(a, b) <==> !LexLe(b, a)
  {
    LexLeTotal(a, b);
    if LexLe(a, b) && LexLe(b, a) then
      LexLeAntisymmetric(a, b);
      LexLe(a, b) && a != b
    else LexLe(a, b) && a != b
  }

  lemma {:induction false} LexLeReflexive(a: string)
    ensures LexLe(a, a)
  {
    if a != [] { LexLeReflexive(a[1..]); }
  }

  lemma {:induction false} LexLeTotal(a: string, b: string)
    ensures LexLe(a, b) || LexLe(b, a)
  {
    if a != [] && b != [] && a[0] == b[0] { LexLeTotal(a[1..], b[1..]); }
  }

  lemma {:induction false} LexLeAntisymmetric(a: string, b: string)
    requires LexLe(a, b) && LexLe(b, a)
    ensures a == b
  {
    if a != [] && b != [] {
      LexLeAntisymmetric(a[1..], b[1..]);
      assert a == [a[0]] + a[1..] && b == [b[0]] + b[1..];
    }
  }

  lemma {:induction false} LexLeTransitive(a: string, b: string, c: string)
    requires LexLe(a, b) && LexLe(b, c)
    ensures LexLe(a, c)
  {
    if a != [] && b != [] && c != [] && a[0] == b[0] == c[0] {
      LexLeTransitive(a[1..], b[1..], c[1..]);
    }
  }

  /** `String.split(sep)`: the pieces between separators, empty ones included. */
  function Split(s: string, sep: char): (pieces: seq<string>)
    ensures |pieces| >= 1
    ensures forall p :: p in pieces ==> sep !in p
  {
    if s == [] then [[]]
    else
      var rest := Split(s[1..], sep);
      if s[0] == sep then [[]] + rest
      else
        assert forall p :: p in rest[1..] ==> p in rest;
        [[s[0]] + rest[0]] + rest[1..]
  }

  /** `joinToString(sep)`. */
  function Join(pieces: seq<string>, sep: char): string {
    if pieces == [] then []
    else if |pieces| == 1 then pieces[0]
    else pieces[0] + [sep] + Join(pieces[1..], sep)
  }

  lemma {:induction false} JoinConsFirst(c: char, p: string, rest: seq<string>, sep: char)
    ensures Join([[c] + p] + rest, sep) == [c] + Join([p] + rest, sep)
  {
    assert ([[c] + p] + rest)[1..] == rest == ([p] + rest)[1..];
  }

  /** Joining the pieces of a split with the same separator gives back the string. */
  lemma {:induction false} JoinSplit(s: string, sep: char)
    ensures Join(Split(s, sep), sep) == s
  {
    if s != [] {
      var rest := Split(s[1..], sep);
      JoinSplit(s[1..], sep);
      if s[0] == sep {
        assert ([[]] + rest)[1..] == rest;
        assert s == [sep] + s[1..];
      } else {
        JoinConsFirst(s[0], rest[0], rest[1..], sep);
        assert [rest[0]] + rest[1..] == rest;
        assert s == [s[0]] + s[1..];
      }
    }
  }

  /** `replaceFirstChar { it.titlecase() }`. */
  function CapitalizeFirst(w: string): string {
    if w == [] then [] else [ToUpper(w[0])] + w[1..]
  }

  function CapitalizeAll(words: seq<string>): (r: seq<string>)
    ensures |r| == |words|
  {
    if words == [] then [] else [CapitalizeFirst(words[0])] + CapitalizeAll(words[1..])
  }

  /** `split(sep).joinToString(sep) { it.replaceFirstChar { c -> c.titlecase() } }`. */
  function CapitalizeWords(t: string, sep: char): (r: string)
    ensures ToUpper(sep) == sep ==> r == CapitalizeAfter(t, sep, true)
  {
    var pieces := Split(t, sep);
    if ToUpper(sep) == sep then
      CapitalizeWordsFrom(t, sep, true);
      assert CapitalizeAll(pieces) == [CapitalizeFirst(pieces[0])] + CapitalizeAll(pieces[1..]);
      Join(CapitalizeAll(pieces), sep)
    else Join(CapitalizeAll(pieces), sep)
  }

  /** Reference definition of capitalising words: a character is upper-cased exactly
      when it opens the string or follows a separator. */
  function CapitalizeAfter(t: string, sep: char, atStart: bool): (r: string)
    ensures |r| == |t|
    ensures forall i :: 0 <= i < |t| ==>
      r[i] == (if (i == 0 && atStart) || (i > 0 && t[i - 1] == sep) then ToUpper(t[i]) else t[i])
  {
    if t == [] then []
    else [if atStart then ToUpper(t[0]) else t[0]] + CapitalizeAfter(t[1..], sep, t[0] == sep)
  }

  lemma {:induction false} CapitalizeWordsFrom(t: string, sep: char, atStart: bool)
    requires ToUpper(sep) == sep
    ensures var r := Split(t, sep);
      Join([if atStart then CapitalizeFirst(r[0]) else r[0]] + CapitalizeAll(r[1..]), sep)
        == CapitalizeAfter(t, sep, atStart)
  {
    if t != [] {
      var rest := Split(t[1..], sep);
      if t[0] == sep {
        CapitalizeWordsFrom(t[1..], sep, true);
        assert ([[]] + rest)[1..] == rest;
        assert CapitalizeAll(rest) == [CapitalizeFirst(rest[0])] + CapitalizeAll(rest[1..]);
        var tail := CapitalizeAll(rest);
        assert ([[]] + tail)[1..] == tail;
      } else {
        CapitalizeWordsFrom(t[1..], sep, false);
        var c := if atStart then ToUpper(t[0]) else t[0];
        assert (if atStart then CapitalizeFirst([t[0]] + rest[0]) else [t[0]] + rest[0]) == [c] + rest[0];
        JoinConsFirst(c, rest[0], CapitalizeAll(rest[1..]), sep);
      }
    }
  }

  /** Capitalising the words of a string changes only the first letter of each word. */
  lemma CapitalizeWordsAt(t: string, sep: char)
    requires ToUpper(sep) == sep
    ensures |CapitalizeWords(t, sep)| == |t|
    ensures forall i :: 0 <= i < |t| ==>
      CapitalizeWords(t, sep)[i] == (if i == 0 || t[i - 1] == sep then ToUpper(t[i]) else t[i])
  {
    var r := Split(t, sep);
    CapitalizeWordsFrom(t, sep, true);
    assert CapitalizeAll(r) == [CapitalizeFirst(r[0])] + CapitalizeAll(r[1..]);
  }
}
