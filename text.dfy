/** String helpers the model needs from Python and SQLite: `str.lower`, `str.strip`,
    `str.split`, `str.join`, slicing, string ordering and the `LIKE` operator.
    Strings are `seq<char>`; case folding is ASCII only. */
module Text {

  // ---------------------------------------------------------------- case

  predicate IsUpper(c: char) {
    'A' <= c <= 'Z'
  }

  /** ASCII `str.lower` on one character. */
  function LowerChar(c: char): char {
    if IsUpper(c) then (c as int + 32) as char else c
  }

  /** ASCII `str.lower`. */
  function Lower(s: string): string {
    seq(|s|, i requires 0 <= i < |s| => LowerChar(s[i]))
  }

  predicate HasNoUpper(s: string) {
    forall i :: 0 <= i < |s| ==> !IsUpper(s[i])
  }

  lemma LowerHasNoUpper(s: string)
    ensures |Lower(s)| == |s| && HasNoUpper(Lower(s))
  {
  }

  // ---------------------------------------------------------------- whitespace

  /** The characters `str.strip()` removes: those for which Python's `str.isspace`
      holds (tab through carriage return, the file, group, record and unit
      separators, space, next line, no-break space and the Unicode space separators). */
  predicate IsWhitespace(c: char) {
    || 0x09 <= c as int <= 0x0D
    || 0x1C <= c as int <= 0x20
    || c as int == 0x85
    || c as int == 0xA0
    || c as int == 0x1680
    || 0x2000 <= c as int <= 0x200A
    || c as int == 0x2028
    || c as int == 0x2029
    || c as int == 0x202F
    || c as int == 0x205F
    || c as int == 0x3000
  }

  /** Neither end of `s` is whitespace. */
  predicate IsStripped(s: string) {
    s == [] || (!IsWhitespace(s[0]) && !IsWhitespace(s[|s| - 1]))
  }

  /** No two adjacent characters of `s` are both the space character. */
  predicate NoDoubleSpace(s: string) {
    forall i :: 1 <= i < |s| ==> !(s[i - 1] == ' ' && s[i] == ' ')
  }

  /** `str.lstrip()`: the longest suffix of `s` that does not start with whitespace. */
  function TrimStart(s: string): (r: string)
    ensures |r| <= |s| && r == s[|s| - |r|..]
    ensures r == [] || !IsWhitespace(r[0])
    ensures forall i :: 0 <= i < |s| - |r| ==> IsWhitespace(s[i])
  {
    if s == [] || !IsWhitespace(s[0]) then s else TrimStart(s[1..])
  }

  /** `str.rstrip()`: the longest prefix of `s` that does not end with whitespace. */
  function TrimEnd(s: string): (r: string)
    ensures |r| <= |s| && r == s[..|r|]
    ensures r == [] || !IsWhitespace(r[|r| - 1])
    ensures forall i :: |r| <= i < |s| ==> IsWhitespace(s[i])
  {
    if s == [] || !IsWhitespace(s[|s| - 1]) then s else TrimEnd(s[..|s| - 1])
  }

  /** `str.strip()`: a contiguous piece of `s` with no whitespace at either end,
      empty exactly when `s` is all whitespace. */
  function Strip(s: string): (r: string)
    ensures IsStripped(r)
    ensures |r| <= |s|
    ensures NoDoubleSpace(s) ==> NoDoubleSpace(r)
    ensures r == [] <==> forall i :: 0 <= i < |s| ==> IsWhitespace(s[i])
  {
    var t := TrimStart(s);
    var r := TrimEnd(t);
    assert r == s[|s| - |t|..|s| - |t| + |r|];
    NoDoubleSpaceSlice(s, |s| - |t|, |s| - |t| + |r|);
    StripEmptyOnlyIfBlank(s);
    r
  }

  /** `str.strip()` keeps a contiguous piece of `s`: what it removes at either
      end is whitespace. */
  lemma StripIsSlice(s: string)
    ensures var r := Strip(s);
      exists k :: 0 <= k <= |s| - |r| && r == s[k..][..|r|]
        && (forall i :: 0 <= i < k ==> IsWhitespace(s[i]))
        && (forall i :: k + |r| <= i < |s| ==> IsWhitespace(s[i]))
  {
    var t := TrimStart(s);
    var r := TrimEnd(t);
    var k := |s| - |t|;
    assert t == s[k..] && r == t[..|r|];
    forall i | 0 <= i < k
      ensures IsWhitespace(s[i])
    {
    }
    forall i | k + |r| <= i < |s|
      ensures IsWhitespace(s[i])
    {
      assert s[i] == t[i - k];
    }
    assert Strip(s) == r;
  }

  lemma NoDoubleSpaceSlice(s: string, lo: nat, hi: nat)
    requires lo <= hi <= |s|
    ensures NoDoubleSpace(s) ==> NoDoubleSpace(s[lo..hi])
  {
    var piece := s[lo..hi];
    forall i | NoDoubleSpace(s) && 1 <= i < |piece| ensures !(piece[i - 1] == ' ' && piece[i] == ' ') {
      assert piece[i - 1] == s[lo + i - 1] && piece[i] == s[lo + i];
    }
  }

  lemma StripEmptyOnlyIfBlank(s: string)
    ensures TrimEnd(TrimStart(s)) == [] ==> forall i :: 0 <= i < |s| ==> IsWhitespace(s[i])
  {
    var t := TrimStart(s);
    if t != [] {
      assert !IsWhitespace(t[0]);
    }
  }

  // ---------------------------------------------------------------- split and join

  /** `sep.join(pieces)`. */
  function Join(pieces: seq<string>, sep: string): string {
    if |pieces| == 0 then []
    else if |pieces| == 1 then pieces[0]
    else pieces[0] + sep + Join(pieces[1..], sep)
  }

  lemma JoinConsHead(c: char, pieces: seq<string>, sep: string)
    requires |pieces| >= 1
    ensures Join([[c] + pieces[0]] + pieces[1..], sep) == [c] + Join(pieces, sep)
  {
    var ps := [[c] + pieces[0]] + pieces[1..];
    assert ps[1..] == pieces[1..];
  }

  /** `s.split(sep)` for a one-character separator: the pieces between the
      occurrences of `sep`, at least one piece. */
  function SplitOnChar(s: string, sep: char): (pieces: seq<string>)
    ensures |pieces| >= 1
    ensures forall p :: p in pieces ==> sep !in p
    ensures pieces[0] <= s
  {
    if s == [] then [[]]
    else if s[0] == sep then [[]] + SplitOnChar(s[1..], sep)
    else
      var rest := SplitOnChar(s[1..], sep);
      [[s[0]] + rest[0]] + rest[1..]
  }

  /** Splitting on a character and joining on it gives the text back. */
  lemma {:induction false} SplitOnCharJoin(s: string, sep: char)
    ensures Join(SplitOnChar(s, sep), [sep]) == s
  {
    if s == [] {
    } else if s[0] == sep {
      SplitOnCharJoin(s[1..], sep);
      var rest := SplitOnChar(s[1..], sep);
      assert ([[]] + rest)[1..] == rest;
    } else {
      SplitOnCharJoin(s[1..], sep);
      JoinConsHead(s[0], SplitOnChar(s[1..], sep), [sep]);
    }
  }

  /** Python's `s.split("  ")`: cut at each leftmost, non-overlapping pair of spaces. */
  function SplitOnDoubleSpace(s: string): (pieces: seq<string>)
    ensures |pieces| >= 1
    ensures forall p :: p in pieces ==> NoDoubleSpace(p)
    ensures pieces[0] <= s
  {
    if |s| < 2 then [s]
    else if s[0] == ' ' && s[1] == ' ' then [[]] + SplitOnDoubleSpace(s[2..])
    else
      var rest := SplitOnDoubleSpace(s[1..]);
      assert |rest[0]| > 0 ==> rest[0][0] == s[1];
      NoDoubleSpaceCons(s[0], rest[0]);
      assert forall p :: p in rest[1..] ==> p in rest;
      [[s[0]] + rest[0]] + rest[1..]
  }

  lemma NoDoubleSpaceCons(c: char, p: string)
    requires NoDoubleSpace(p) && (p == [] || !(c == ' ' && p[0] == ' '))
    ensures NoDoubleSpace([c] + p)
  {
    var q := [c] + p;
    forall i | 1 <= i < |q| ensures !(q[i - 1] == ' ' && q[i] == ' ') {
      if i > 1 {
        assert q[i - 1] == p[i - 2] && q[i] == p[i - 1];
      }
    }
  }

  /** Splitting on two spaces and joining on two spaces gives the text back. */
  lemma {:induction false} SplitOnDoubleSpaceJoin(s: string)
    ensures Join(SplitOnDoubleSpace(s), "  ") == s
  {
    if |s| < 2 {
    } else if s[0] == ' ' && s[1] == ' ' {
      SplitOnDoubleSpaceJoin(s[2..]);
      var rest := SplitOnDoubleSpace(s[2..]);
      assert ([[]] + rest)[1..] == rest;
      assert s == "  " + s[2..];
    } else {
      SplitOnDoubleSpaceJoin(s[1..]);
      JoinConsHead(s[0], SplitOnDoubleSpace(s[1..]), "  ");
    }
  }

  /** Joining non-empty stripped pieces without double spaces on single spaces
      yields a stripped text without double spaces. */
  lemma {:induction false} JoinSpaceClean(pieces: seq<string>)
    requires forall p :: p in pieces ==> p != [] && IsStripped(p) && NoDoubleSpace(p)
    ensures IsStripped(Join(pieces, " ")) && NoDoubleSpace(Join(pieces, " "))
    ensures |pieces| > 0 ==> Join(pieces, " ") != [] && Join(pieces, " ")[0] == pieces[0][0]
  {
    if |pieces| > 0 {
      assert pieces[0] in pieces;
    }
    if |pieces| > 1 {
      assert forall p :: p in pieces[1..] ==> p in pieces;
      JoinSpaceClean(pieces[1..]);
      var head, tail := pieces[0], Join(pieces[1..], " ");
      var j := head + " " + tail;
      assert pieces[1] in pieces;
      forall i | 1 <= i < |j| ensures !(j[i - 1] == ' ' && j[i] == ' ') {
        if i < |head| {
          assert j[i - 1] == head[i - 1] && j[i] == head[i];
        } else if i == |head| {
          assert j[i - 1] == head[|head| - 1];
        } else if i == |head| + 1 {
          assert j[i] == tail[0];
        } else {
          assert j[i - 1] == tail[i - 1 - |head| - 1] && j[i] == tail[i - |head| - 1];
        }
      }
      assert j[|j| - 1] == tail[|tail| - 1];
    }
  }

  // ---------------------------------------------------------------- slicing

  /** Python's `s[:n]`, where a negative `n` counts from the end. */
  function PyPrefix(s: string, n: int): (r: string)
    ensures r <= s
  {
    if n >= 0 then s[..if n < |s| then n else |s|]
    else s[..if |s| + n > 0 then |s| + n else 0]
  }

  /** `s[:limit] + "..." if len(s) > limit else s`. */
  function TruncateWithEllipsis(s: string, limit: int): (r: string)
    ensures |s| <= limit ==> r == s
    ensures 0 <= limit < |s| ==> |r| == limit + 3 && r == s[..limit] + "..."
    ensures 0 <= limit ==> |r| <= limit + 3
    ensures limit < 0 ==> |r| == (if |s| + limit > 0 then |s| + limit else 0) + 3 && r == s[..|r| - 3] + "..."
  {
    if |s| > limit then PyPrefix(s, limit) + "..." else s
  }

  // ---------------------------------------------------------------- ordering

  /** Python's `a <= b` on strings: lexicographic by code point. */
  predicate LexLe(a: string, b: string)
    decreases |a|
  {
    a == [] || (b != [] && (a[0] < b[0] || (a[0] == b[0] && LexLe(a[1..], b[1..]))))
  }

  lemma {:induction false} LexLeTotal(a: string, b: string)
    ensures LexLe(a, b) || LexLe(b, a)
    decreases |a|
  {
    if a != [] && b != [] && a[0] == b[0] {
      LexLeTotal(a[1..], b[1..]);
    }
  }

  lemma {:induction false} LexLeTransitive(a: string, b: string, c: string)
    requires LexLe(a, b) && LexLe(b, c)
    ensures LexLe(a, c)
    decreases |a|
  {
    if a != [] && a[0] == b[0] && b[0] == c[0] {
      LexLeTransitive(a[1..], b[1..], c[1..]);
    }
  }

  // ---------------------------------------------------------------- SQL LIKE

  /** SQLite's `s LIKE p` without an ESCAPE clause: `%` matches any run of characters,
      `_` any one character, and letters compare ASCII case-insensitively. */
  predicate LikeMatch(s: string, p: string)
    decreases |s| + |p|
  {
    if p == [] then s == []
    else if p[0] == '%' then LikeMatch(s, p[1..]) || (s != [] && LikeMatch(s[1..], p))
    else s != [] && (p[0] == '_' || LowerChar(p[0]) == LowerChar(s[0])) && LikeMatch(s[1..], p[1..])
  }

  /** `q` holds no `LIKE` wildcard, so it matches itself literally. */
  predicate IsLiteral(q: string) {
    '%' !in q && '_' !in q
  }

  /** `q` occurs in `s` at position `k`, ignoring ASCII case. */
  predicate OccursAt(q: string, s: string, k: int) {
    0 <= k && k + |q| <= |s| && Lower(s[k..k + |q|]) == Lower(q)
  }

  lemma {:induction false} LikePercentMatchesAll(s: string)
    ensures LikeMatch(s, "%")
    decreases |s|
  {
    assert "%"[1..] == [];
    if s != [] {
      LikePercentMatchesAll(s[1..]);
    }
  }

  lemma {:induction false} LikeLiteralPrefix(s: string, q: string)
    requires IsLiteral(q) && OccursAt(q, s, 0)
    ensures LikeMatch(s, q + "%")
    decreases |q|
  {
    if q == [] {
      assert q + "%" == "%";
      LikePercentMatchesAll(s);
    } else {
      assert LowerChar(s[0]) == Lower(s[0..|q|])[0];
      assert (q + "%")[1..] == q[1..] + "%";
      assert Lower(s[1..][0..|q[1..]|]) == Lower(q[1..]) by {
        assert Lower(s[1..][0..|q[1..]|]) == Lower(s[0..|q|])[1..];
      }
      LikeLiteralPrefix(s[1..], q[1..]);
    }
  }

  lemma {:induction false} LikeLiteralPrefixInverse(s: string, q: string)
    requires IsLiteral(q) && LikeMatch(s, q + "%")
    ensures OccursAt(q, s, 0)
    decreases |q|
  {
    if q != [] {
      assert (q + "%")[1..] == q[1..] + "%";
      LikeLiteralPrefixInverse(s[1..], q[1..]);
      assert Lower(s[0..|q|]) == [LowerChar(s[0])] + Lower(s[1..][0..|q| - 1]);
    }
  }

  lemma {:induction false} LikeSkip(s: string, r: string, k: nat)
    requires k <= |s| && LikeMatch(s[k..], r)
    ensures LikeMatch(s, "%" + r)
    decreases k
  {
    assert ("%" + r)[1..] == r;
    if k > 0 {
      LikeSkip(s[1..], r, k - 1);
      assert s[1..][k - 1..] == s[k..];
    }
  }

  lemma {:induction false} LikeSkipInverse(s: string, r: string) returns (k: nat)
    requires LikeMatch(s, "%" + r)
    ensures k <= |s| && LikeMatch(s[k..], r)
    decreases |s|
  {
    assert ("%" + r)[1..] == r;
    if LikeMatch(s, r) {
      k := 0;
    } else {
      var k' := LikeSkipInverse(s[1..], r);
      assert s[1..][k'..] == s[k' + 1..];
      k := k' + 1;
    }
  }

  /** With a wildcard-free query `q`, `s LIKE '%q%'` holds exactly when `q` occurs in
      `s` ignoring ASCII case. */
  lemma LikeContains(s: string, q: string)
    requires IsLiteral(q)
    ensures LikeMatch(s, "%" + q + "%") <==> exists k :: OccursAt(q, s, k)
  {
    assert "%" + q + "%" == "%" + (q + "%");
    if LikeMatch(s, "%" + q + "%") {
      var k := LikeSkipInverse(s, q + "%");
      LikeLiteralPrefixInverse(s[k..], q);
      assert s[k..][0..|q|] == s[k..k + |q|];
      assert OccursAt(q, s, k);
    }
    if exists k :: OccursAt(q, s, k) {
      var k :| OccursAt(q, s, k);
      assert s[k..][0..|q|] == s[k..k + |q|];
      LikeLiteralPrefix(s[k..], q);
      LikeSkip(s, q + "%", k);
    }
  }
}
