/**
 * The handful of Python `str` operations the modelled code relies on: substring search,
 * case mapping, `strip`, `split`, `replace`, `title`, slicing with a possibly negative bound,
 * decimal formatting, UTF-8 length and the `\b` word boundary of the `re` module.
 * Case mapping and the regex word class are the ASCII ones.
 */
module PyText {

  /** `s.startswith(prefix)`. */
  predicate StartsWith(s: string, prefix: string) {
    prefix <= s
  }

  /** True when `needle` occurs in `hay` at offset `i`. */
  ghost predicate OccursAt(hay: string, needle: string, i: int) {
    0 <= i && i + |needle| <= |hay| && hay[i..i + |needle|] == needle
  }

  /** `needle in hay` for two strings, scanning offsets from the left. */
  function Contains(hay: string, needle: string): (r: bool)
    ensures r <==> exists i :: OccursAt(hay, needle, i)
    decreases |hay|
  {
    if |needle| > |hay| then
      false
    else if needle <= hay then
      assert OccursAt(hay, needle, 0);
      true
    else
      var r := Contains(hay[1..], needle);
      ShiftOccurrence(hay, needle);
      r
  }

  /** Occurrences in `hay[1..]` are the occurrences in `hay` past offset 0. */
  lemma ShiftOccurrence(hay: string, needle: string)
    requires |hay| >= |needle| && !(needle <= hay)
    ensures (exists i :: OccursAt(hay[1..], needle, i)) <==> (exists i :: OccursAt(hay, needle, i))
  {
    if i :| OccursAt(hay[1..], needle, i) {
      assert hay[1..][i..i + |needle|] == hay[i + 1..i + 1 + |needle|];
      assert OccursAt(hay, needle, i + 1);
    }
    assert hay[0..|needle|] != needle;
    if i :| OccursAt(hay, needle, i) {
      assert hay[1..][i - 1..i - 1 + |needle|] == hay[i..i + |needle|];
      assert OccursAt(hay[1..], needle, i - 1);
    }
  }

  predicate IsAsciiUpper(c: char) { 'A' <= c <= 'Z' }
  predicate IsAsciiLower(c: char) { 'a' <= c <= 'z' }
  predicate IsAsciiLetter(c: char) { IsAsciiUpper(c) || IsAsciiLower(c) }
  predicate IsAsciiDigit(c: char) { '0' <= c <= '9' }

  function LowerChar(c: char): char {
    if IsAsciiUpper(c) then (c as int + 32) as char else c
  }

  function UpperChar(c: char): char {
    if IsAsciiLower(c) then (c as int - 32) as char else c
  }

  /** `s.lower()`. */
  function Lower(s: string): (r: string)
    ensures |r| == |s|
  {
    seq(|s|, i requires 0 <= i < |s| => LowerChar(s[i]))
  }

  /** `s.title()`: a letter is upper-cased when the character before it is not a letter. */
  function Title(s: string): string {
    TitleAfter(s, false)
  }

  function TitleAfter(s: string, prevCased: bool): string
    decreases |s|
  {
    if s == [] then []
    else if IsAsciiLetter(s[0]) then
      [if prevCased then LowerChar(s[0]) else UpperChar(s[0])] + TitleAfter(s[1..], true)
    else
      [s[0]] + TitleAfter(s[1..], false)
  }

  /** The characters for which Python's `str.isspace()` holds. */
  predicate IsSpace(c: char) {
    c == ' ' || '\t' <= c <= '\r' || '\U{1C}' <= c <= '\U{1F}' || c == '\U{85}' || c == '\U{A0}'
    || c == '\U{1680}' || '\U{2000}' <= c <= '\U{200A}' || c == '\U{2028}' || c == '\U{2029}'
    || c == '\U{202F}' || c == '\U{205F}' || c == '\U{3000}'
  }

  function StripLeft(s: string): string
    decreases |s|
  {
    if s != [] && IsSpace(s[0]) then StripLeft(s[1..]) else s
  }

  function StripRight(s: string): string
    decreases |s|
  {
    if s != [] && IsSpace(s[|s| - 1]) then StripRight(s[..|s| - 1]) else s
  }

  /** `s.strip()` with no argument. */
  function Strip(s: string): string {
    StripRight(StripLeft(s))
  }

  /** `s.replace(a, b)` for two one-character strings. */
  function ReplaceChar(s: string, a: char, b: char): (r: string)
    ensures |r| == |s|
    ensures forall i :: 0 <= i < |s| ==> r[i] != a || a == b
  {
    seq(|s|, i requires 0 <= i < |s| => if s[i] == a then b else s[i])
  }

  /** Index of the first `c` in `s`, or `|s|` when there is none. */
  function IndexOf(s: string, c: char): (k: nat)
    ensures k <= |s|
    ensures k < |s| ==> s[k] == c
    decreases |s|
  {
    if s == [] then 0 else if s[0] == c then 0 else 1 + IndexOf(s[1..], c)
  }

  /** No `c` comes before `IndexOf(s, c)`. */
  lemma {:induction false} IndexOfFirst(s: string, c: char)
    ensures forall j :: 0 <= j < IndexOf(s, c) ==> s[j] != c
    decreases |s|
  {
    if s != [] && s[0] != c {
      IndexOfFirst(s[1..], c);
      forall j | 0 < j < IndexOf(s, c) ensures s[j] != c {
        assert s[j] == s[1..][j - 1];
      }
    }
  }

  /** `s.split(sep)` for a one-character separator: always at least one piece. */
  function Split(s: string, sep: char): (r: seq<string>)
    ensures |r| >= 1
    decreases |s|
  {
    var k := IndexOf(s, sep);
    if k == |s| then [s] else [s[..k]] + Split(s[k + 1..], sep)
  }

  /** `s[i..j]` is one of the pieces `s.split(sep)` cuts out. */
  ghost predicate PieceAt(s: string, sep: char, i: int, j: int) {
    0 <= i <= j <= |s|
    && (i == 0 || s[i - 1] == sep)
    && (j == |s| || s[j] == sep)
    && sep !in s[i..j]
  }

  /** The pieces of `s.split(sep)` are exactly the maximal separator-free stretches of `s`. */
  lemma SplitPieces(s: string, sep: char, w: string)
    ensures w in Split(s, sep) <==> exists i, j :: PieceAt(s, sep, i, j) && s[i..j] == w
  {
    if w in Split(s, sep) {
      var n :| 0 <= n < |Split(s, sep)| && Split(s, sep)[n] == w;
      assert s[0..] == s;
      var i, j := SplitPieceFound(s, sep, 0, n);
    }
    if i, j :| PieceAt(s, sep, i, j) && s[i..j] == w {
      SplitPieceListed(s, sep, i, j);
    }
  }

  /** The `n`-th piece of what follows position `o` is a piece of `s`, when `o` starts a piece. */
  lemma {:induction false} SplitPieceFound(s: string, sep: char, o: nat, n: nat) returns (i: int, j: int)
    requires o <= |s| && (o == 0 || s[o - 1] == sep) && n < |Split(s[o..], sep)|
    ensures PieceAt(s, sep, i, j) && s[i..j] == Split(s[o..], sep)[n]
    decreases |s| - o
  {
    if n == 0 {
      i, j := PieceFrom(s, sep, o);
    } else {
      var o' := NextPiece(s, sep, o, n);
      i, j := SplitPieceFound(s, sep, o', n - 1);
      Same(s[i..j], Split(s[o'..], sep)[n - 1], Split(s[o..], sep)[n]);
    }
  }

  lemma Same(a: string, b: string, c: string)
    requires a == b && c == b
    ensures a == c
  {
  }

  /** Past the first separator after `o`, the pieces are those after `o` less the first one. */
  lemma NextPiece(s: string, sep: char, o: nat, n: nat) returns (o': nat)
    requires o <= |s| && 0 < n < |Split(s[o..], sep)|
    ensures o < o' <= |s| && s[o' - 1] == sep && n - 1 < |Split(s[o'..], sep)|
    ensures Split(s[o..], sep)[n] == Split(s[o'..], sep)[n - 1]
  {
    var u := s[o..];
    var k := IndexOf(u, sep);
    LaterPiece(u, sep, n);
    o' := o + k + 1;
    assert s[o'..] == u[k + 1..];
    assert s[o' - 1] == u[k];
  }

  /** The first piece after position `o` runs up to the next separator. */
  lemma PieceFrom(s: string, sep: char, o: nat) returns (i: int, j: int)
    requires o <= |s| && (o == 0 || s[o - 1] == sep)
    ensures i == o && PieceAt(s, sep, i, j) && s[i..j] == Split(s[o..], sep)[0]
  {
    var u := s[o..];
    var k := IndexOf(u, sep);
    i, j := o, o + k;
    SplitFirst(u, sep);
    assert s[o..o + k] == u[..k];
    if o + k < |s| {
      assert s[o + k] == u[k];
    }
  }

  /** The `n`-th piece for `n > 0` is the `n - 1`-th piece after the first separator. */
  lemma LaterPiece(s: string, sep: char, n: nat)
    requires 0 < n < |Split(s, sep)|
    ensures IndexOf(s, sep) < |s| && n - 1 < |Split(s[IndexOf(s, sep) + 1..], sep)|
    ensures Split(s, sep)[n] == Split(s[IndexOf(s, sep) + 1..], sep)[n - 1]
  {
    SplitFirst(s, sep);
  }

  /** A separator-free stretch of `s` is one of the pieces of `s.split(sep)`. */
  lemma SplitPieceListed(s: string, sep: char, i: int, j: int)
    requires PieceAt(s, sep, i, j)
    ensures s[i..j] in Split(s, sep)
  {
    PieceListedFrom(s, sep, 0, i, j);
    assert s[0..] == s;
  }

  /** A piece of `s` at or after `o`, where `o` starts a piece, is a piece of what follows `o`. */
  lemma {:induction false} PieceListedFrom(s: string, sep: char, o: nat, i: int, j: int)
    requires PieceAt(s, sep, i, j) && o <= i && (o == 0 || s[o - 1] == sep)
    ensures s[i..j] in Split(s[o..], sep)
    decreases |s| - o
  {
    if i == o {
      var i', j' := PieceFrom(s, sep, o);
      SameEnd(s, sep, i, j, j');
    } else {
      var o' := SkipPiece(s, sep, o, i);
      PieceListedFrom(s, sep, o', i, j);
    }
  }

  /** Two pieces starting at the same place end at the same place. */
  lemma SameEnd(s: string, sep: char, i: int, j: int, j': int)
    requires PieceAt(s, sep, i, j) && PieceAt(s, sep, i, j')
    ensures j == j'
  {
  }

  /** Past the first separator after `o`, which comes before `i`, the pieces are among those after `o`. */
  lemma SkipPiece(s: string, sep: char, o: nat, i: int) returns (o': nat)
    requires o < i <= |s| && s[i - 1] == sep
    ensures o < o' <= i && s[o' - 1] == sep
    ensures forall w :: w in Split(s[o'..], sep) ==> w in Split(s[o..], sep)
  {
    var u := s[o..];
    var k := IndexOf(u, sep);
    IndexOfFirst(u, sep);
    assert u[i - 1 - o] == sep;
    SplitFirst(u, sep);
    o' := o + k + 1;
    assert s[o'..] == u[k + 1..];
    assert s[o' - 1] == u[k];
  }

  /** The first piece runs up to the first separator, and the rest are the pieces after it. */
  lemma SplitFirst(s: string, sep: char)
    ensures var k := IndexOf(s, sep);
      PieceAt(s, sep, 0, k) && s[0..k] == s[..k] &&
      Split(s, sep) == if k == |s| then [s[..k]] else [s[..k]] + Split(s[k + 1..], sep)
  {
    IndexOfFirst(s, sep);
    assert s[..|s|] == s;
  }

  /** `sep.join(parts)`. */
  function Join(sep: string, parts: seq<string>): string
    decreases |parts|
  {
    if parts == [] then []
    else if |parts| == 1 then parts[0]
    else parts[0] + sep + Join(sep, parts[1..])
  }

  /** `s[:n]` for a Python integer `n`, which counts from the end when negative. */
  function PyTake<T>(s: seq<T>, n: int): (r: seq<T>)
    ensures r <= s
    ensures n >= 0 ==> |r| == if n <= |s| then n else |s|
    ensures n < 0 ==> |r| == if -n <= |s| then |s| + n else 0
  {
    if n >= 0 then
      (if n <= |s| then s[..n] else s)
    else
      (if -n <= |s| then s[..|s| + n] else [])
  }

  function DigitChar(d: nat): char
    requires d < 10
  {
    "0123456789"[d]
  }

  /** `str(n)` for a non-negative integer. */
  function NatToString(n: nat): (r: string)
    ensures |r| >= 1
    ensures forall i :: 0 <= i < |r| ==> IsAsciiDigit(r[i])
    decreases n
  {
    if n < 10 then [DigitChar(n)] else NatToString(n / 10) + [DigitChar(n % 10)]
  }

  /** `str(n)` for any integer. */
  function IntToString(n: int): string {
    if n < 0 then "-" + NatToString(-n) else NatToString(n)
  }

  /**
   * Number of bytes of `c` in UTF-8. Dafny characters are Unicode scalar values, so no
   * character here is a lone surrogate, which `encode("utf-8", errors="ignore")` would drop.
   */
  function Utf8Width(c: char): nat {
    if c as int < 0x80 then 1
    else if c as int < 0x800 then 2
    else if c as int < 0x10000 then 3
    else 4
  }

  /** `len(s.encode("utf-8", errors="ignore"))`. */
  function Utf8Length(s: string): (n: nat)
    ensures |s| <= n <= 4 * |s|
    decreases |s|
  {
    if s == [] then 0 else Utf8Width(s[0]) + Utf8Length(s[1..])
  }

  /** Characters of the regex class `\w` (ASCII letters, digits and underscore). */
  predicate IsWordChar(c: char) {
    IsAsciiLetter(c) || IsAsciiDigit(c) || c == '_'
  }

  predicate WordAt(s: string, i: int) {
    0 <= i < |s| && IsWordChar(s[i])
  }

  /** The regex assertion `\b` at position `i` of `s` (0 <= i <= |s|). */
  predicate BoundaryAt(s: string, i: int) {
    WordAt(s, i - 1) != WordAt(s, i)
  }

  /** `re.search(r"\b" + re.escape(w) + r"\b", s)` succeeds at offset `i`. */
  ghost predicate WordOccursAt(s: string, w: string, i: int) {
    OccursAt(s, w, i) && BoundaryAt(s, i) && BoundaryAt(s, i + |w|)
  }

  /** Whether `w` occurs in `s` delimited by regex word boundaries, scanning from offset `from`. */
  function HasWordFrom(s: string, w: string, from: nat): (r: bool)
    ensures r <==> exists i :: from <= i && WordOccursAt(s, w, i)
    decreases |s| - from
  {
    if from + |w| > |s| then
      assert forall i :: from <= i ==> !OccursAt(s, w, i);
      false
    else if s[from..from + |w|] == w && BoundaryAt(s, from) && BoundaryAt(s, from + |w|) then
      assert WordOccursAt(s, w, from);
      true
    else
      HasWordFrom(s, w, from + 1)
  }

  /** Whether `w` occurs in `s` as a regex-delimited word. */
  function HasWord(s: string, w: string): bool {
    HasWordFrom(s, w, 0)
  }

  /** Python string order `a < b`: code-point lexicographic. */
  predicate Below(a: string, b: string)
    decreases |a|
  {
    if a == [] then b != []
    else if b == [] then false
    else if a[0] != b[0] then a[0] < b[0]
    else Below(a[1..], b[1..])
  }

  lemma {:induction false} BelowIrreflexive(a: string)
    ensures !Below(a, a)
    decreases |a|
  {
    if a != [] { BelowIrreflexive(a[1..]); }
  }

  lemma {:induction false} BelowTransitive(a: string, b: string, c: string)
    requires Below(a, b) && Below(b, c)
    ensures Below(a, c)
    decreases |a|
  {
    if a != [] && b != [] && c != [] && a[0] == b[0] && b[0] == c[0] {
      BelowTransitive(a[1..], b[1..], c[1..]);
    }
  }

  lemma {:induction false} BelowTotal(a: string, b: string)
    requires a != b
    ensures Below(a, b) || Below(b, a)
    decreases |a|
  {
    if a != [] && b != [] && a[0] == b[0] {
      assert a == [a[0]] + a[1..] && b == [b[0]] + b[1..];
      BelowTotal(a[1..], b[1..]);
    }
  }

  /** Strictly increasing in string order, hence also free of duplicates. */
  ghost predicate StrictlySorted(s: seq<string>) {
    forall i, j :: 0 <= i < j < |s| ==> Below(s[i], s[j])
  }

  /** Adds `w` to the sorted list `s` unless it is already there. */
  function InsertSorted(s: seq<string>, w: string): seq<string>
    decreases |s|
  {
    if s == [] then [w]
    else if w == s[0] then s
    else if Below(w, s[0]) then [w] + s
    else [s[0]] + InsertSorted(s[1..], w)
  }

  /** `sorted(set(ws))`. */
  function SortedSet(ws: seq<string>): seq<string>
    decreases |ws|
  {
    if ws == [] then [] else InsertSorted(SortedSet(ws[..|ws| - 1]), ws[|ws| - 1])
  }

  lemma {:induction false} InsertSortedCorrect(s: seq<string>, w: string)
    requires StrictlySorted(s)
    ensures StrictlySorted(InsertSorted(s, w))
    ensures forall x :: x in InsertSorted(s, w) <==> x in s || x == w
    decreases |s|
  {
    if s != [] && w != s[0] {
      if Below(w, s[0]) {
        var r := [w] + s;
        forall i, j | 0 <= i < j < |r| ensures Below(r[i], r[j]) {
          if i == 0 {
            if j > 1 { BelowTransitive(w, s[0], s[j - 1]); }
          } else {
            assert r[i] == s[i - 1] && r[j] == s[j - 1];
          }
        }
      } else {
        BelowTotal(w, s[0]);
        var rest := InsertSorted(s[1..], w);
        InsertSortedCorrect(s[1..], w);
        assert s == [s[0]] + s[1..];
        var r := [s[0]] + rest;
        forall i, j | 0 <= i < j < |r| ensures Below(r[i], r[j]) {
          assert r[j] == rest[j - 1] && r[j] in rest;
          if i > 0 {
            assert r[i] == rest[i - 1];
          } else if r[j] != w {
            var m :| 0 <= m < |s[1..]| && s[1..][m] == r[j];
            assert s[m + 1] == r[j];
          }
        }
      }
    }
  }

  /** `sorted(set(ws))` is strictly increasing and holds exactly the strings of `ws`. */
  lemma {:induction false} SortedSetCorrect(ws: seq<string>)
    ensures StrictlySorted(SortedSet(ws))
    ensures forall x :: x in SortedSet(ws) <==> x in ws
    decreases |ws|
  {
    if ws != [] {
      var init := ws[..|ws| - 1];
      SortedSetCorrect(init);
      InsertSortedCorrect(SortedSet(init), ws[|ws| - 1]);
      assert ws == init + [ws[|ws| - 1]];
    }
  }

  lemma {:induction false} BelowAsymmetric(a: string, b: string)
    requires Below(a, b)
    ensures !Below(b, a)
  {
    if Below(b, a) {
      BelowTransitive(a, b, a);
      BelowIrreflexive(a);
    }
  }
}
