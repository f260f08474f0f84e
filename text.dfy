/** The JavaScript string operations the pages rely on, on `seq<char>`:
    regex replacements that delete or substitute characters, `trim`,
    `split`/`join` on one separator, `startsWith`/`includes`/`replace` with a
    string pattern, ASCII case mapping, the `<` order on strings, and decimal
    digits for `parseInt` and number-to-string conversion. */
module Text {
  import opened Wrappers
  import opened Seqs

  // ---------------------------------------------------------------- characters

  predicate IsDigit(c: char) { '0' <= c <= '9' }

  function DigitValue(c: char): (d: nat)
    requires IsDigit(c)
    ensures d < 10
  {
    c as int - '0' as int
  }

  function DigitChar(d: nat): (c: char)
    requires d < 10
    ensures IsDigit(c) && DigitValue(c) == d
  {
    ('0' as int + d) as char
  }

  /** The characters `String.prototype.trim` removes (ASCII white space, the
      line terminators, no-break space and the byte-order mark). */
  predicate IsWhitespace(c: char) {
    c == ' ' || c == '\t' || c == '\n' || c == '\r' || c == '\U{000B}' || c == '\U{000C}'
    || c == '\U{00A0}' || c == '\U{FEFF}' || c == '\U{2028}' || c == '\U{2029}'
  }

  predicate AllWhitespace(s: string) {
    forall i :: 0 <= i < |s| ==> IsWhitespace(s[i])
  }

  // ------------------------------------------------- regex-based replacements

  /** `s.replace(/\D/g, "")`: the digits of `s`, in their original order. */
  function DigitsOnly(s: string): (r: string)
    ensures forall i :: 0 <= i < |r| ==> IsDigit(r[i])
    ensures IsSubsequence(r, s)
  {
    FilterIsSubsequence(IsDigit, s);
    Filter(IsDigit, s)
  }

  /** `DigitsOnly` keeps every occurrence of every digit. */
  lemma DigitsOnlyCount(s: string, c: char)
    requires IsDigit(c)
    ensures multiset(DigitsOnly(s))[c] == multiset(s)[c]
  {
    FilterCount(IsDigit, s, c);
  }

  /** `s.replace(/x/g, "")` for a single character `x`: every `x` deleted, every
      other character kept, in order. */
  function RemoveChar(s: string, x: char): (r: string)
    ensures x !in r
    ensures IsSubsequence(r, s)
    ensures x !in s ==> r == s
  {
    var keep := (c: char) => c != x;
    FilterIsSubsequence(keep, s);
    assert x !in s ==> Filter(keep, s) == s by {
      if x !in s { FilterAllPass(keep, s); }
    }
    Filter(keep, s)
  }

  /** `RemoveChar` keeps every occurrence of every other character. */
  lemma RemoveCharCount(s: string, x: char, c: char)
    requires c != x
    ensures multiset(RemoveChar(s, x))[c] == multiset(s)[c]
  {
    FilterCount((c: char) => c != x, s, c);
  }

  /** Removing `x` leaves nothing exactly when `s` is made of `x` alone. */
  lemma RemoveCharEmpty(s: string, x: char)
    ensures RemoveChar(s, x) == "" <==> forall i | 0 <= i < |s| :: s[i] == x
  {
    var r := RemoveChar(s, x);
    if r == "" {
      forall i | 0 <= i < |s| ensures s[i] == x {
        if s[i] != x {
          assert s[i] in multiset(s);
          RemoveCharCount(s, x, s[i]);
        }
      }
    } else {
      var c := r[0];
      assert c in multiset(r);
      RemoveCharCount(s, x, c);
      assert c in multiset(s);
    }
  }

  /** `RemoveChar` one character at a time. */
  lemma RemoveCharCons(s: string, x: char)
    requires s != []
    ensures RemoveChar(s, x) == (if s[0] == x then [] else [s[0]]) + RemoveChar(s[1..], x)
  {
  }

  /** `s.replace(/x/g, y)` for single characters `x` and `y`. */
  function ReplaceChar(s: string, x: char, y: char): (r: string)
    ensures |r| == |s|
    ensures forall i :: 0 <= i < |s| ==> r[i] == (if s[i] == x then y else s[i])
  {
    seq(|s|, i requires 0 <= i < |s| => if s[i] == x then y else s[i])
  }

  /** After replacing every `x` by a different character no `x` is left, and no
      character other than `x` and `y` is touched. */
  lemma ReplaceCharRemoves(s: string, x: char, y: char)
    requires x != y
    ensures x !in ReplaceChar(s, x, y)
    ensures forall c :: c != x && c != y ==> multiset(ReplaceChar(s, x, y))[c] == multiset(s)[c]
  {
    var r := ReplaceChar(s, x, y);
    forall c | c != x && c != y ensures multiset(r)[c] == multiset(s)[c] {
      ReplaceCharCount(s, x, y, c);
    }
  }

  lemma {:induction false} ReplaceCharCount(s: string, x: char, y: char, c: char)
    requires c != x && c != y
    ensures multiset(ReplaceChar(s, x, y))[c] == multiset(s)[c]
  {
    if s != [] {
      ReplaceCharCount(s[1..], x, y, c);
      var r := ReplaceChar(s, x, y);
      assert r == [r[0]] + ReplaceChar(s[1..], x, y);
      assert s == [s[0]] + s[1..];
    }
  }

  // ------------------------------------------------------ prefix and search

  /** `s.startsWith(p)`. */
  predicate StartsWith(s: string, p: string) {
    |p| <= |s| && s[..|p|] == p
  }

  predicate OccursAt(s: string, pat: string, j: int) {
    0 <= j && j + |pat| <= |s| && s[j..j + |pat|] == pat
  }

  /** `s.indexOf(pat)`, with `None` for -1. */
  function IndexOf(s: string, pat: string): (r: Option<nat>)
    ensures r.Some? ==> OccursAt(s, pat, r.value)
    ensures r.Some? ==> forall j :: 0 <= j < r.value ==> !OccursAt(s, pat, j)
    ensures r.None? ==> forall j :: !OccursAt(s, pat, j)
    decreases |s|
  {
    if |pat| > |s| then None
    else if s[..|pat|] == pat then Some(0)
    else
      var rest := IndexOf(s[1..], pat);
      ShiftOccurs(s, pat);
      match rest
      case None => None
      case Some(i) => Some(i + 1)
  }

  lemma ShiftOccurs(s: string, pat: string)
    requires s != []
    ensures forall j :: 1 <= j ==> (OccursAt(s, pat, j) <==> OccursAt(s[1..], pat, j - 1))
  {
    forall j | 1 <= j ensures OccursAt(s, pat, j) <==> OccursAt(s[1..], pat, j - 1) {
      if j + |pat| <= |s| {
        assert s[1..][j - 1..j - 1 + |pat|] == s[j..j + |pat|];
      }
    }
  }

  /** `s.includes(pat)`. */
  predicate Includes(s: string, pat: string) {
    IndexOf(s, pat).Some?
  }

  /** `includes` holds exactly when the pattern occurs somewhere. */
  lemma IncludesOccurs(s: string, pat: string)
    ensures Includes(s, pat) <==> exists j :: OccursAt(s, pat, j)
  {
    if Includes(s, pat) {
      assert OccursAt(s, pat, IndexOf(s, pat).value);
    }
  }

  /** `startsWith` holds exactly when `indexOf` finds the prefix at 0. */
  lemma StartsWithIndexOf(s: string, p: string)
    ensures StartsWith(s, p) <==> IndexOf(s, p) == Some(0)
  {
    if StartsWith(s, p) {
      assert OccursAt(s, p, 0);
    }
  }

  /** `s.replace(pat, rep)` with a string pattern: only the first occurrence. */
  function ReplaceFirst(s: string, pat: string, rep: string): (r: string)
    ensures !Includes(s, pat) ==> r == s
    ensures Includes(s, pat) ==> |r| == |s| - |pat| + |rep|
    ensures forall c :: c in r ==> c in s || c in rep
  {
    match IndexOf(s, pat)
    case None => s
    case Some(i) =>
      var r := s[..i] + rep + s[i + |pat|..];
      assert forall c :: c in s[..i] ==> c in s;
      assert forall c :: c in s[i + |pat|..] ==> c in s;
      r
  }

  // -------------------------------------------------------------- case maps

  function LowerChar(c: char): char {
    if 'A' <= c <= 'Z' then (c as int + 32) as char else c
  }

  function UpperChar(c: char): char {
    if 'a' <= c <= 'z' then (c as int - 32) as char else c
  }

  /** `s.toLowerCase()`, on the ASCII letters. */
  function ToLower(s: string): (r: string)
    ensures |r| == |s|
    ensures forall i :: 0 <= i < |s| && 'A' <= s[i] <= 'Z' ==> 'a' <= r[i] <= 'z' && UpperChar(r[i]) == s[i]
    ensures forall i :: 0 <= i < |s| && !('A' <= s[i] <= 'Z') ==> r[i] == s[i]
  {
    seq(|s|, i requires 0 <= i < |s| => LowerChar(s[i]))
  }

  /** `s.toUpperCase()`, on the ASCII letters. */
  function ToUpper(s: string): (r: string)
    ensures |r| == |s|
    ensures forall i :: 0 <= i < |s| ==> !('a' <= r[i] <= 'z')
    ensures forall i :: 0 <= i < |s| && 'a' <= s[i] <= 'z' ==> 'A' <= r[i] <= 'Z' && LowerChar(r[i]) == s[i]
    ensures forall i :: 0 <= i < |s| && !('a' <= s[i] <= 'z') ==> r[i] == s[i]
  {
    seq(|s|, i requires 0 <= i < |s| => UpperChar(s[i]))
  }

  /** Lower-casing leaves no upper-case letter, so doing it twice changes nothing. */
  lemma ToLowerIdempotent(s: string)
    ensures forall i :: 0 <= i < |s| ==> !('A' <= ToLower(s)[i] <= 'Z')
    ensures ToLower(ToLower(s)) == ToLower(s)
  {
  }

  /** Lower-casing ignores the case a string was typed in. */
  lemma ToLowerOfUpper(s: string)
    ensures ToLower(ToUpper(s)) == ToLower(s)
  {
  }

  // ------------------------------------------------------------------- trim

  /** The number of white-space characters `s` starts with. */
  function LeadingBlanks(s: string): (n: nat)
    ensures n <= |s|
    ensures forall k :: 0 <= k < n ==> IsWhitespace(s[k])
    ensures n < |s| ==> !IsWhitespace(s[n])
  {
    if s != [] && IsWhitespace(s[0]) then
      var m := LeadingBlanks(s[1..]);
      assert forall k :: 0 <= k < m ==> s[1..][k] == s[k + 1];
      1 + m
    else 0
  }

  /** `s.trimStart()`. */
  function TrimStart(s: string): string {
    s[LeadingBlanks(s)..]
  }

  /** The number of white-space characters `s` ends with. */
  function TrailingBlanks(s: string): (n: nat)
    ensures n <= |s|
    ensures forall k :: |s| - n <= k < |s| ==> IsWhitespace(s[k])
    ensures n < |s| ==> !IsWhitespace(s[|s| - 1 - n])
  {
    if s != [] && IsWhitespace(s[|s| - 1]) then
      var m := TrailingBlanks(s[..|s| - 1]);
      assert forall k :: |s| - 1 - m <= k < |s| - 1 ==> s[..|s| - 1][k] == s[k];
      1 + m
    else 0
  }

  /** `r` is `s` with the white space in front of position `i` and after
      position `i + |r|` cut off. */
  predicate TrimmedAt(s: string, r: string, i: int) {
    0 <= i && i + |r| <= |s| && s[i..i + |r|] == r
    && AllWhitespace(s[..i]) && AllWhitespace(s[i + |r|..])
  }

  /** `s.trim()`. */
  function Trim(s: string): (r: string)
    ensures exists i :: TrimmedAt(s, r, i)
    ensures r == [] || (!IsWhitespace(r[0]) && !IsWhitespace(r[|r| - 1]))
  {
    var i := LeadingBlanks(s);
    var j := |s| - TrailingBlanks(s);
    if i == |s| then
      assert TrimmedAt(s, [], |s|) by {
        assert s[..|s|] == s;
      }
      []
    else
      assert i < j;
      var r := s[i..j];
      assert TrimmedAt(s, r, i) by {
        assert forall k :: 0 <= k < i ==> s[..i][k] == s[k];
        assert forall k :: 0 <= k < |s| - j ==> s[j..][k] == s[j + k];
      }
      r
  }

  /** A string with one non-white character is not all white space. */
  lemma NotAllWhitespace(t: string, k: int)
    requires 0 <= k < |t| && !IsWhitespace(t[k])
    ensures !AllWhitespace(t)
  {
  }

  /** Trimming is determined by its result: white space around a core that
      neither starts nor ends with white space trims to that core. */
  lemma TrimAround(pre: string, core: string, post: string)
    requires AllWhitespace(pre) && AllWhitespace(post)
    requires core == [] || (!IsWhitespace(core[0]) && !IsWhitespace(core[|core| - 1]))
    ensures Trim(pre + core + post) == core
  {
    var s := pre + core + post;
    var r := Trim(s);
    var i :| TrimmedAt(s, r, i);
    if core == [] {
      TrimOfBlank(s, r, i);
    } else {
      TrimOfCore(pre, core, post, r, i);
    }
  }

  lemma TrimOfBlank(s: string, r: string, i: int)
    requires AllWhitespace(s) && TrimmedAt(s, r, i)
    requires r == [] || !IsWhitespace(r[0])
    ensures r == []
  {
  }

  lemma TrimOfCore(pre: string, core: string, post: string, r: string, i: int)
    requires AllWhitespace(pre) && AllWhitespace(post)
    requires core != [] && !IsWhitespace(core[0]) && !IsWhitespace(core[|core| - 1])
    requires TrimmedAt(pre + core + post, r, i)
    requires r == [] || (!IsWhitespace(r[0]) && !IsWhitespace(r[|r| - 1]))
    ensures r == core
  {
    var s := pre + core + post;
    var a, b := |pre|, |pre| + |core|;
    assert s[a] == core[0] && s[b - 1] == core[|core| - 1];
    assert a >= i by {
      if a < i { NotAllWhitespace(s[..i], a); }
    }
    assert b <= i + |r|;
    assert r != [];
    assert i >= a;
    assert i + |r| <= b;
    assert r == s[a..b];
    assert s[a..b] == core;
  }

  // ------------------------------------------------------------ split, join

  /** `s.split(sep)` for a one-character separator. */
  function Split(s: string, sep: char): (parts: seq<string>)
    ensures |parts| >= 1
    ensures forall i :: 0 <= i < |parts| ==> sep !in parts[i]
  {
    if s == [] then [""]
    else
      var rest := Split(s[1..], sep);
      if s[0] == sep then [""] + rest
      else [[s[0]] + rest[0]] + rest[1..]
  }

  /** `parts.join(sep)` for a one-character separator. */
  function Join(parts: seq<string>, sep: char): string {
    if |parts| == 0 then ""
    else if |parts| == 1 then parts[0]
    else parts[0] + [sep] + Join(parts[1..], sep)
  }

  lemma JoinCons(p: string, rest: seq<string>, sep: char)
    requires |rest| >= 1
    ensures Join([p] + rest, sep) == p + [sep] + Join(rest, sep)
  {
    assert ([p] + rest)[1..] == rest;
  }

  /** Joining the pieces of a split with the same separator gives the string back. */
  lemma {:induction false} JoinSplit(s: string, sep: char)
    ensures Join(Split(s, sep), sep) == s
  {
    if s != [] {
      JoinSplit(s[1..], sep);
      var rest := Split(s[1..], sep);
      if s[0] == sep {
        JoinCons("", rest, sep);
        assert s == [sep] + s[1..];
      } else if |rest| == 1 {
        assert Split(s, sep) == [[s[0]] + rest[0]];
        assert s == [s[0]] + s[1..];
      } else {
        JoinCons(rest[0], rest[1..], sep);
        assert [rest[0]] + rest[1..] == rest;
        JoinCons([s[0]] + rest[0], rest[1..], sep);
        assert s == [s[0]] + s[1..];
      }
    }
  }

  /** A split has more than one piece exactly when the separator occurs. */
  lemma {:induction false} SplitCount(s: string, sep: char)
    ensures |Split(s, sep)| >= 2 <==> sep in s
  {
    if s != [] {
      SplitCount(s[1..], sep);
      assert s == [s[0]] + s[1..];
    }
  }

  /** The first piece of `s.split(sep)` and `pieces.slice(1).join(sep)`: the
      text before the first separator and the text after it. */
  lemma SplitAtFirst(s: string, sep: char)
    ensures var parts := Split(s, sep);
            sep !in parts[0] &&
            (sep in s ==> s == parts[0] + [sep] + Join(parts[1..], sep)) &&
            (sep !in s ==> parts[0] == s && Join(parts[1..], sep) == "")
  {
    var parts := Split(s, sep);
    JoinSplit(s, sep);
    SplitCount(s, sep);
    if sep in s {
      JoinCons(parts[0], parts[1..], sep);
      assert [parts[0]] + parts[1..] == parts;
    }
  }

  /** The first piece of a split is the text before the first separator. */
  lemma {:induction false} SplitFirstPiece(p: string, sep: char, rest: string)
    requires sep !in p
    ensures Split(p + [sep] + rest, sep)[0] == p
  {
    if p != [] {
      SplitFirstPiece(p[1..], sep, rest);
      assert (p + [sep] + rest)[1..] == p[1..] + [sep] + rest;
      assert p == [p[0]] + p[1..];
    }
  }

  /** Splitting what `join` glued back together, from pieces free of the
      separator, gives the pieces back. */
  lemma {:induction false} SplitJoin(parts: seq<string>, sep: char)
    requires |parts| >= 1
    requires forall i :: 0 <= i < |parts| ==> sep !in parts[i]
    ensures Split(Join(parts, sep), sep) == parts
  {
    if |parts| == 1 {
      SplitWithoutSep(parts[0], sep);
    } else {
      SplitJoin(parts[1..], sep);
      SplitAfterPiece(parts[0], sep, Join(parts[1..], sep));
      assert [parts[0]] + parts[1..] == parts;
    }
  }

  lemma {:induction false} SplitWithoutSep(p: string, sep: char)
    requires sep !in p
    ensures Split(p, sep) == [p]
  {
    if p != [] {
      SplitWithoutSep(p[1..], sep);
      assert p == [p[0]] + p[1..];
    }
  }

  lemma {:induction false} SplitAfterPiece(p: string, sep: char, rest: string)
    requires sep !in p
    ensures Split(p + [sep] + rest, sep) == [p] + Split(rest, sep)
  {
    var s := p + [sep] + rest;
    if p == [] {
      assert s == [sep] + rest;
      assert s[1..] == rest;
    } else {
      SplitAfterPiece(p[1..], sep, rest);
      assert s[1..] == p[1..] + [sep] + rest;
      assert p == [p[0]] + p[1..];
    }
  }

  // --------------------------------------------------------- string order

  /** `a < b` on JavaScript strings: the first differing character decides,
      and a proper prefix comes first. */
  predicate LexLess(a: string, b: string) {
    if b == [] then false
    else if a == [] then true
    else if a[0] != b[0] then a[0] < b[0]
    else LexLess(a[1..], b[1..])
  }

  /** `a` and `b` agree before position `k`, where `a` holds the smaller character. */
  predicate SmallerAt(a: string, b: string, k: int) {
    0 <= k < |a| && k < |b| && a[..k] == b[..k] && a[k] < b[k]
  }

  /** `a` is a proper prefix of `b`, or at the first position where they
      differ `a` holds the smaller character. */
  predicate PrefixOrSmallerAt(a: string, b: string) {
    (|a| < |b| && a == b[..|a|]) || (exists k | 0 <= k < |a| :: SmallerAt(a, b, k))
  }

  /** The recursive order is the textbook one of `PrefixOrSmallerAt`. */
  lemma {:induction false} LexLessByFirstDifference(a: string, b: string)
    ensures LexLess(a, b) <==> PrefixOrSmallerAt(a, b)
  {
    if b == [] {
    } else if a == [] {
      assert a == b[..0];
    } else if a[0] != b[0] {
      FirstCharsDiffer(a, b);
    } else {
      LexLessByFirstDifference(a[1..], b[1..]);
      FirstCharsAgree(a, b);
    }
  }

  lemma FirstCharsDiffer(a: string, b: string)
    requires a != [] && b != [] && a[0] != b[0]
    ensures PrefixOrSmallerAt(a, b) <==> a[0] < b[0]
  {
    if |a| < |b| { assert b[..|a|][0] == b[0]; }
    forall k | 0 < k < |a| && k < |b|
      ensures a[..k] != b[..k]
    {
      assert a[..k][0] != b[..k][0];
    }
    assert a[..0] == b[..0];
    if a[0] < b[0] { assert SmallerAt(a, b, 0); }
  }

  lemma FirstCharsAgree(a: string, b: string)
    requires a != [] && b != [] && a[0] == b[0]
    ensures PrefixOrSmallerAt(a, b) <==> PrefixOrSmallerAt(a[1..], b[1..])
  {
    var a', b' := a[1..], b[1..];
    assert a == [a[0]] + a' && b == [b[0]] + b';
    if |a| < |b| {
      assert b[..|a|] == [b[0]] + b'[..|a'|];
    }
    forall k | SmallerAt(a, b, k)
      ensures SmallerAt(a', b', k - 1)
    {
      SmallerAtShift(a, b, k - 1);
    }
    forall k | SmallerAt(a', b', k)
      ensures SmallerAt(a, b, k + 1)
    {
      SmallerAtShift(a, b, k);
    }
  }

  lemma SmallerAtShift(a: string, b: string, k: int)
    requires a != [] && b != [] && a[0] == b[0]
    ensures SmallerAt(a, b, k + 1) <==> SmallerAt(a[1..], b[1..], k)
  {
    if 0 <= k < |a| - 1 && k < |b| - 1 {
      assert a[..k + 1] == [a[0]] + a[1..][..k];
      assert b[..k + 1] == [b[0]] + b[1..][..k];
    }
    if k == -1 {
      assert a[..0] == b[..0];
    }
  }

  lemma {:induction false} LexLessIrreflexive(a: string)
    ensures !LexLess(a, a)
  {
    if a != [] { LexLessIrreflexive(a[1..]); }
  }

  lemma {:induction false} LexLessTotal(a: string, b: string)
    ensures a == b || LexLess(a, b) || LexLess(b, a)
  {
    if a != [] && b != [] && a[0] == b[0] {
      LexLessTotal(a[1..], b[1..]);
      if a[1..] == b[1..] {
        assert a == [a[0]] + a[1..] && b == [b[0]] + b[1..];
      }
    }
  }

  lemma {:induction false} LexLessTransitive(a: string, b: string, c: string)
    requires LexLess(a, b) && LexLess(b, c)
    ensures LexLess(a, c)
  {
    if a != [] && a[0] == b[0] && b[0] == c[0] {
      LexLessTransitive(a[1..], b[1..], c[1..]);
    }
  }

  lemma {:induction false} LexLessAsymmetric(a: string, b: string)
    ensures LexLess(a, b) ==> !LexLess(b, a)
  {
    if a != [] && b != [] && a[0] == b[0] {
      LexLessAsymmetric(a[1..], b[1..]);
    }
  }

  /** A common prefix does not affect the order of two strings. */
  lemma {:induction false} LexLessCommonPrefix(p: string, a: string, b: string)
    ensures LexLess(p + a, p + b) <==> LexLess(a, b)
  {
    if p != [] {
      LexLessCommonPrefix(p[1..], a, b);
      assert (p + a)[0] == (p + b)[0];
      assert (p + a)[1..] == p[1..] + a;
      assert (p + b)[1..] == p[1..] + b;
      assert LexLess(p + a, p + b) == LexLess(p[1..] + a, p[1..] + b);
    } else {
      assert p + a == a && p + b == b;
    }
  }

  // --------------------------------------------------------------- numbers

  /** The value of a string of decimal digits. */
  function DigitsValue(s: string): nat
    requires forall i :: 0 <= i < |s| ==> IsDigit(s[i])
  {
    if s == [] then 0
    else 10 * DigitsValue(s[..|s| - 1]) + DigitValue(s[|s| - 1])
  }

  /** `String(n)` for a natural number: its decimal digits, no leading zero. */
  function DecimalString(n: nat): (s: string)
    ensures s != []
    ensures forall i :: 0 <= i < |s| ==> IsDigit(s[i])
    ensures |s| > 1 ==> s[0] != '0'
  {
    if n < 10 then [DigitChar(n)]
    else DecimalString(n / 10) + [DigitChar(n % 10)]
  }

  /** `String(n)` or a template literal's rendering of any integer: a minus
      sign before the digits of a negative one. */
  function IntString(n: int): string {
    if n < 0 then "-" + DecimalString(-n) else DecimalString(n)
  }

  /** Reading the decimal digits of `n` back yields `n`. */
  lemma {:induction false} DecimalStringRoundTrip(n: nat)
    ensures DigitsValue(DecimalString(n)) == n
  {
    if n >= 10 {
      DecimalStringRoundTrip(n / 10);
      var s := DecimalString(n);
      assert s[..|s| - 1] == DecimalString(n / 10);
    }
  }

  /** A number below 10^4 has at most four digits. */
  lemma {:induction false} DecimalStringLength(n: nat, k: nat)
    requires n < Pow10(k) && k >= 1
    ensures |DecimalString(n)| <= k
  {
    if n >= 10 {
      DecimalStringLength(n / 10, k - 1);
    }
  }

  function Pow10(k: nat): (r: nat)
    ensures r >= 1
  {
    if k == 0 then 1 else 10 * Pow10(k - 1)
  }

  /** The longest run of digits at the front of `s`. */
  function LeadingDigits(s: string): (r: string)
    ensures |r| <= |s| && r == s[..|r|]
    ensures forall i :: 0 <= i < |r| ==> IsDigit(r[i])
    ensures |r| < |s| ==> !IsDigit(s[|r|])
  {
    if s != [] && IsDigit(s[0]) then
      var r := [s[0]] + LeadingDigits(s[1..]);
      assert r == s[..|r|];
      r
    else []
  }

  /** A digit of base 16, in either case. */
  predicate IsHexDigit(c: char) {
    IsDigit(c) || 'a' <= c <= 'f' || 'A' <= c <= 'F'
  }

  function HexDigitValue(c: char): (v: nat)
    requires IsHexDigit(c)
    ensures v < 16
    ensures IsDigit(c) ==> v == DigitValue(c)
  {
    if IsDigit(c) then DigitValue(c)
    else if 'a' <= c <= 'f' then c as int - 'a' as int + 10
    else c as int - 'A' as int + 10
  }

  /** The value of a string of hexadecimal digits. */
  function HexValue(s: string): nat
    requires forall i :: 0 <= i < |s| ==> IsHexDigit(s[i])
  {
    if s == [] then 0
    else 16 * HexValue(s[..|s| - 1]) + HexDigitValue(s[|s| - 1])
  }

  /** The longest run of hexadecimal digits at the front of `s`. */
  function LeadingHexDigits(s: string): (r: string)
    ensures |r| <= |s| && r == s[..|r|]
    ensures forall i :: 0 <= i < |r| ==> IsHexDigit(r[i])
    ensures |r| < |s| ==> !IsHexDigit(s[|r|])
  {
    if s != [] && IsHexDigit(s[0]) then
      var r := [s[0]] + LeadingHexDigits(s[1..]);
      assert r == s[..|r|];
      r
    else []
  }

  /** A `0x` or `0X` in front: `parseInt` without a radix then reads base 16. */
  predicate HexPrefixed(u: string) {
    |u| >= 2 && u[0] == '0' && (u[1] == 'x' || u[1] == 'X')
  }

  /** `parseInt(s)` without a radix: leading white space and one optional sign
      are skipped; after a `0x` or `0X` the longest run of hexadecimal digits
      is read, otherwise the longest run of decimal digits; `None` stands for
      NaN, the result when no digit follows. */
  function ParseInt(s: string): (r: Option<int>)
    ensures var u := SignStripped(TrimStart(s));
            r.Some? <==> (if HexPrefixed(u) then LeadingHexDigits(u[2..]) != [] else LeadingDigits(u) != [])
  {
    var t := TrimStart(s);
    var negative := t != [] && t[0] == '-';
    var u := SignStripped(t);
    if HexPrefixed(u) then
      var digits := LeadingHexDigits(u[2..]);
      if digits == [] then None
      else
        var v: int := HexValue(digits);
        Some(if negative then -v else v)
    else
      var digits := LeadingDigits(u);
      if digits == [] then None
      else
        var v: int := DigitsValue(digits);
        Some(if negative then -v else v)
  }

  function SignStripped(t: string): string {
    if t != [] && (t[0] == '-' || t[0] == '+') then t[1..] else t
  }

  /** `parseInt` on a non-empty run of decimal digits followed by anything
      that is not a digit reads exactly those digits, unless the two make a
      `0x` prefix (see `ParseIntHex`). */
  lemma ParseIntDigits(d: string, tail: string)
    requires d != [] && forall i :: 0 <= i < |d| ==> IsDigit(d[i])
    requires tail == [] || !IsDigit(tail[0])
    requires !HexPrefixed(d + tail)
    ensures ParseInt(d + tail) == Some(DigitsValue(d))
  {
    var s := d + tail;
    assert s[0] == d[0];
    assert !IsWhitespace(s[0]);
    assert LeadingBlanks(s) == 0;
    assert TrimStart(s) == s;
    assert s[0] != '-' && s[0] != '+';
    assert SignStripped(s) == s;
    LeadingDigitsOf(d, tail);
    assert LeadingDigits(s) == d;
  }

  /** Leading white space does not change what `parseInt` reads. */
  lemma ParseIntAfterBlanks(ws: string, rest: string)
    requires AllWhitespace(ws)
    requires rest != [] && !IsWhitespace(rest[0])
    ensures ParseInt(ws + rest) == ParseInt(rest)
  {
    TrimStartBlanks(ws, rest);
    TrimStartBlanks([], rest);
    assert [] + rest == rest;
  }

  /** `parseInt` reads one sign: a `-` or `+` and a run of decimal digits
      ending before anything that is not a digit read as those digits,
      negated after a `-`, unless the digits and what follows make a `0x`
      prefix. With `ParseIntAfterBlanks`, the same holds after white space. */
  lemma ParseIntSigned(sign: char, d: string, tail: string)
    requires sign == '-' || sign == '+'
    requires d != [] && forall i :: 0 <= i < |d| ==> IsDigit(d[i])
    requires tail == [] || !IsDigit(tail[0])
    requires !HexPrefixed(d + tail)
    ensures var v: int := DigitsValue(d);
            ParseInt([sign] + (d + tail)) == Some(if sign == '-' then -v else v)
  {
    var s := [sign] + (d + tail);
    assert s[0] == sign && s[1..] == d + tail;
    LeadingDigitsOf(d, tail);
    assert LeadingDigits(s[1..]) == d;
    ParseIntSignedDecimal(s, sign, d);
  }

  /** `parseInt` of a sign and a decimal run, stated on the string itself. */
  lemma ParseIntSignedDecimal(s: string, sign: char, d: string)
    requires s != [] && s[0] == sign && (sign == '-' || sign == '+')
    requires d != [] && forall i :: 0 <= i < |d| ==> IsDigit(d[i])
    requires !HexPrefixed(s[1..]) && LeadingDigits(s[1..]) == d
    ensures var v: int := DigitsValue(d);
            ParseInt(s) == Some(if sign == '-' then -v else v)
  {
    assert LeadingBlanks(s) == 0;
    assert TrimStart(s) == s;
    assert SignStripped(s) == s[1..];
  }

  /** Leading white space before a character that is not white space is
      exactly what `trimStart` removes. */
  lemma {:induction false} TrimStartBlanks(ws: string, rest: string)
    requires AllWhitespace(ws)
    requires rest != [] && !IsWhitespace(rest[0])
    ensures TrimStart(ws + rest) == rest
    ensures LeadingBlanks(ws + rest) == |ws|
  {
    if ws != [] {
      TrimStartBlanks(ws[1..], rest);
      assert (ws + rest)[1..] == ws[1..] + rest;
    } else {
      assert ws + rest == rest;
    }
  }

  /** A digit string has no `0x` prefix. */
  lemma DigitsNotHexPrefixed(d: string)
    requires forall i :: 0 <= i < |d| ==> IsDigit(d[i])
    ensures !HexPrefixed(d)
  {
    if |d| >= 2 {
      assert IsDigit(d[1]);
    }
  }

  /** `parseInt` on `0x` or `0X`, a non-empty run of hexadecimal digits and
      anything that is not one reads those digits in base 16. */
  lemma ParseIntHex(x: char, h: string, tail: string)
    requires x == 'x' || x == 'X'
    requires h != [] && forall i :: 0 <= i < |h| ==> IsHexDigit(h[i])
    requires tail == [] || !IsHexDigit(tail[0])
    ensures ParseInt(['0', x] + (h + tail)) == Some(HexValue(h))
  {
    var s := ['0', x] + (h + tail);
    assert s[0] == '0' && s[1] == x;
    assert !IsWhitespace(s[0]);
    assert TrimStart(s) == s;
    assert SignStripped(s) == s;
    assert s[2..] == h + tail;
    LeadingHexDigitsOf(h, tail);
    assert LeadingHexDigits(s[2..]) == h;
  }

  /** A bare `0x` is NaN, not 0. */
  lemma ParseIntBareHexPrefix(x: char, tail: string)
    requires x == 'x' || x == 'X'
    requires tail == [] || !IsHexDigit(tail[0])
    ensures ParseInt(['0', x] + tail) == None
  {
    var s := ['0', x] + tail;
    assert s[0] == '0' && s[1] == x;
    assert !IsWhitespace(s[0]);
    assert TrimStart(s) == s;
    assert SignStripped(s) == s;
    assert s[2..] == tail;
  }

  lemma {:induction false} LeadingHexDigitsOf(h: string, tail: string)
    requires forall i :: 0 <= i < |h| ==> IsHexDigit(h[i])
    requires tail == [] || !IsHexDigit(tail[0])
    ensures LeadingHexDigits(h + tail) == h
  {
    if h != [] {
      LeadingHexDigitsOf(h[1..], tail);
      assert (h + tail)[1..] == h[1..] + tail;
    } else {
      assert h + tail == tail;
    }
  }

  lemma {:induction false} LeadingDigitsOf(d: string, tail: string)
    requires forall i :: 0 <= i < |d| ==> IsDigit(d[i])
    requires tail == [] || !IsDigit(tail[0])
    ensures LeadingDigits(d + tail) == d
  {
    if d != [] {
      LeadingDigitsOf(d[1..], tail);
      assert (d + tail)[1..] == d[1..] + tail;
    } else {
      assert d + tail == tail;
    }
  }
}
