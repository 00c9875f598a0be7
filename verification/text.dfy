/** The few Python `str` operations the agents rely on: `isspace`, `strip()`,
    `split()` with no argument, `split(c)` and `sep.join(parts)`. */
module Text {

  /** Python's `str.isspace` for one character: the ASCII controls 9-13 and
      28-31, the space, and the other characters Unicode classes as
      whitespace. */
  predicate IsSpace(c: char) {
    var n := c as int;
    || (9 <= n <= 13) || (28 <= n <= 32) || n == 0x85 || n == 0xA0 || n == 0x1680
    || (0x2000 <= n <= 0x200A) || n == 0x2028 || n == 0x2029 || n == 0x202F
    || n == 0x205F || n == 0x3000
  }

  predicate AllSpace(s: string) {
    forall i :: 0 <= i < |s| ==> IsSpace(s[i])
  }

  predicate NoSpace(s: string) {
    forall i :: 0 <= i < |s| ==> !IsSpace(s[i])
  }

  // ---------------------------------------------------------------- strip()

  /** How many whitespace characters open `s`: `s.lstrip()` is `s[Lead(s)..]`. */
  function Lead(s: string): (n: nat)
    ensures n <= |s| && AllSpace(s[..n])
    ensures n == |s| || !IsSpace(s[n])
  {
    if |s| > 0 && IsSpace(s[0]) then
      var m := Lead(s[1..]);
      assert s[..1 + m] == [s[0]] + s[1..][..m];
      1 + m
    else 0
  }

  /** Where the trailing whitespace of `s` begins: `s.rstrip()` is `s[..End(s)]`. */
  function End(s: string): (n: nat)
    ensures n <= |s| && AllSpace(s[n..])
    ensures n == 0 || !IsSpace(s[n - 1])
  {
    if |s| > 0 && IsSpace(s[|s| - 1]) then
      var m := End(s[..|s| - 1]);
      assert s[m..] == s[..|s| - 1][m..] + [s[|s| - 1]];
      m
    else |s|
  }

  /** `s.strip()`: the text between the leading and the trailing whitespace;
      empty exactly when `s` is all whitespace. */
  function Strip(s: string): (r: string)
    ensures r == [] <==> AllSpace(s)
    ensures r != [] ==> Lead(s) < End(s) && r == s[Lead(s)..End(s)]
    ensures r == [] || (!IsSpace(r[0]) && !IsSpace(r[|r| - 1]))
  {
    var lead, end := Lead(s), End(s);
    assert lead == |s| ==> s[..lead] == s;
    if lead < end then s[lead..end] else []
  }

  // ---------------------------------------------------------------- split()

  /** Length of the longest whitespace-free prefix of `s`. */
  function WordLen(s: string): (n: nat)
    ensures n <= |s|
    ensures NoSpace(s[..n])
    ensures n == |s| || IsSpace(s[n])
  {
    if |s| == 0 || IsSpace(s[0]) then 0 else 1 + WordLen(s[1..])
  }

  /** `s.split()`: the maximal runs of non-whitespace, left to right. */
  function Words(s: string): (ws: seq<string>)
    ensures forall k :: 0 <= k < |ws| ==> |ws[k]| > 0 && NoSpace(ws[k])
    decreases |s|
  {
    if |s| == 0 then []
    else if IsSpace(s[0]) then Words(s[1..])
    else
      var n := WordLen(s);
      [s[..n]] + Words(s[n..])
  }

  // ---------------------------------------------------------------- join / split(c)

  /** `sep.join(parts)`. */
  function Join(sep: string, parts: seq<string>): (r: string)
    ensures |parts| == 0 ==> r == ""
    ensures |parts| > 0 ==> parts[0] <= r
  {
    if |parts| == 0 then ""
    else if |parts| == 1 then parts[0]
    else parts[0] + sep + Join(sep, parts[1..])
  }

  /** `s.split(c)` for a one-character separator: always at least one piece,
      and no piece contains the separator. */
  function SplitOn(s: string, c: char): (ps: seq<string>)
    ensures |ps| >= 1
    ensures forall k :: 0 <= k < |ps| ==> c !in ps[k]
  {
    if |s| == 0 then [""]
    else
      var rest := SplitOn(s[1..], c);
      if s[0] == c then [""] + rest
      else [[s[0]] + rest[0]] + rest[1..]
  }

  // ---------------------------------------------------------------- lemmas: split()

  /** A string has no words exactly when it is all whitespace. */
  lemma {:induction false} WordsEmptyIffAllSpace(s: string)
    ensures Words(s) == [] <==> AllSpace(s)
    decreases |s|
  {
    if |s| > 0 && IsSpace(s[0]) {
      WordsEmptyIffAllSpace(s[1..]);
      if AllSpace(s[1..]) {
        forall i | 0 <= i < |s| ensures IsSpace(s[i]) {
          if i > 0 { assert s[1..][i - 1] == s[i]; }
        }
      }
    }
  }

  /** WordLen is the one length whose prefix is whitespace-free and which
      stops at whitespace or at the end. */
  lemma {:induction false} WordLenUnique(s: string, k: nat)
    requires k <= |s| && NoSpace(s[..k]) && (k == |s| || IsSpace(s[k]))
    ensures WordLen(s) == k
    decreases k
  {
    if k > 0 {
      assert s[..k][0] == s[0];
      assert s[1..][..k - 1] == s[1..k];
      assert forall i :: 0 <= i < k - 1 ==> s[1..k][i] == s[..k][i + 1];
      WordLenUnique(s[1..], k - 1);
    }
  }

  /** Leading whitespace does not change `split()`. */
  lemma {:induction false} WordsSkipLeadingSpace(p: string, s: string)
    requires AllSpace(p)
    ensures Words(p + s) == Words(s)
    decreases |p|
  {
    if |p| > 0 {
      assert (p + s)[0] == p[0];
      assert (p + s)[1..] == p[1..] + s;
      assert AllSpace(p[1..]) by {
        forall i | 0 <= i < |p| - 1 ensures IsSpace(p[1..][i]) { assert p[1..][i] == p[i + 1]; }
      }
      WordsSkipLeadingSpace(p[1..], s);
      assert Words(p + s) == Words((p + s)[1..]);
    } else {
      assert p + s == s;
    }
  }

  /** Trailing whitespace does not change `split()`. */
  lemma {:induction false} WordsSkipTrailingSpace(s: string, t: string)
    requires AllSpace(t)
    ensures Words(s + t) == Words(s)
    decreases |s|
  {
    if |s| == 0 {
      assert s + t == t;
      WordsEmptyIffAllSpace(t);
    } else if IsSpace(s[0]) {
      assert (s + t)[1..] == s[1..] + t;
      WordsSkipTrailingSpace(s[1..], t);
    } else {
      var n := WordLen(s);
      assert (s + t)[..n] == s[..n];
      WordLenUnique(s + t, n);
      assert (s + t)[n..] == s[n..] + t;
      WordsSkipTrailingSpace(s[n..], t);
    }
  }

  /** Appending a word to a text that is empty or ends in whitespace adds
      exactly that word to `split()`. */
  lemma {:induction false} WordsAppendWord(p: string, w: string)
    requires p == [] || IsSpace(p[|p| - 1])
    requires |w| > 0 && NoSpace(w)
    ensures Words(p + w) == Words(p) + [w]
    decreases |p|, 1
  {
    if p == [] {
      assert p + w == w;
      SingleWord(w);
    } else if IsSpace(p[0]) {
      assert (p + w)[0] == p[0];
      assert (p + w)[1..] == p[1..] + w;
      WordsAppendWord(p[1..], w);
    } else {
      WordsAppendAfterFirst(p, w);
    }
  }

  /** A non-empty whitespace-free text is its own one word. */
  lemma {:induction false} SingleWord(w: string)
    requires |w| > 0 && NoSpace(w)
    ensures Words(w) == [w]
  {
    WordLenUnique(w, |w|);
    assert w[..|w|] == w && w[|w|..] == [];
  }

  lemma {:induction false} WordsAppendAfterFirst(p: string, w: string)
    requires |p| > 0 && !IsSpace(p[0]) && IsSpace(p[|p| - 1])
    requires |w| > 0 && NoSpace(w)
    ensures Words(p + w) == Words(p) + [w]
    decreases |p|, 0
  {
    var n := WordLen(p);
    assert n < |p|;
    assert (p + w)[..n] == p[..n] && (p + w)[n] == p[n];
    WordLenUnique(p + w, n);
    assert (p + w)[n..] == p[n..] + w;
    assert p[n..][|p[n..]| - 1] == p[|p| - 1];
    WordsAppendWord(p[n..], w);
    assert Words(p) == [p[..n]] + Words(p[n..]);
    assert Words(p + w) == [p[..n]] + Words(p[n..] + w);
  }

  /** `s.strip().split() == s.split()`. */
  lemma {:induction false} StripKeepsWords(s: string)
    ensures Words(Strip(s)) == Words(s)
  {
    var r := Strip(s);
    if r == [] {
      WordsEmptyIffAllSpace(s);
    } else {
      var lead, trail := s[..Lead(s)], s[End(s)..];
      assert s == lead + (r + trail);
      WordsSkipLeadingSpace(lead, r + trail);
      WordsSkipTrailingSpace(r, trail);
    }
  }

  /** What `s.strip().split()` gives: the words of `s`, none exactly for a
      blank text, the last one placed as `LastWordFacts` says. */
  lemma {:induction false} StripSplitFacts(s: string)
    ensures var ws := Words(Strip(s));
            && ws == Words(s)
            && (ws == [] <==> AllSpace(s))
            && (ws != [] ==> var w := ws[|ws| - 1];
                  |w| > 0 && NoSpace(w) && LastRunAt(s, w, LastWordStart(s)))
  {
    StripKeepsWords(s);
    WordsEmptyIffAllSpace(s);
    if Words(s) != [] {
      LastWordFacts(s);
    }
  }

  /** `w` occurs in `s` at `i`, starts `s` or follows whitespace, and only
      whitespace comes after it. */
  predicate LastRunAt(s: string, w: string, i: int) {
    && 0 <= i <= |s| - |w| && s[i..i + |w|] == w
    && AllSpace(s[i + |w|..]) && (i == 0 || IsSpace(s[i - 1]))
  }

  /** Where the last word of `s.split()` starts in `s`. */
  function LastWordStart(s: string): nat
    requires Words(s) != []
    decreases |s|
  {
    if IsSpace(s[0]) then 1 + LastWordStart(s[1..])
    else
      var n := WordLen(s);
      if Words(s[n..]) == [] then 0 else n + LastWordStart(s[n..])
  }

  /** The last word of `split()` is a non-empty whitespace-free run placed
      as `LastWordPlacement` says. */
  lemma {:induction false} LastWordFacts(s: string)
    requires Words(s) != []
    ensures var w := Words(s)[|Words(s)| - 1];
            |w| > 0 && NoSpace(w) && LastRunAt(s, w, LastWordStart(s))
    decreases |s|, 2
  {
    LastWordPlacement(s);
  }

  /** The last word of `s.split()` is a whitespace-free run of `s` that
      starts at the beginning or after whitespace and is followed only by
      whitespace. */
  lemma {:induction false} LastWordPlacement(s: string)
    requires Words(s) != []
    ensures LastRunAt(s, Words(s)[|Words(s)| - 1], LastWordStart(s))
    decreases |s|, 1
  {
    if IsSpace(s[0]) {
      LastWordAfterSpace(s);
    } else if Words(s[WordLen(s)..]) == [] {
      OnlyWordPlacement(s);
    } else {
      LastWordAfterFirst(s);
    }
  }

  lemma {:induction false} LastWordAfterSpace(s: string)
    requires Words(s) != [] && IsSpace(s[0])
    ensures LastRunAt(s, Words(s)[|Words(s)| - 1], LastWordStart(s))
    decreases |s|, 0
  {
    var w := Words(s)[|Words(s)| - 1];
    assert Words(s) == Words(s[1..]);
    LastWordPlacement(s[1..]);
    LastRunShift(s, 1, w, LastWordStart(s[1..]));
  }

  lemma {:induction false} LastWordAfterFirst(s: string)
    requires Words(s) != [] && !IsSpace(s[0]) && Words(s[WordLen(s)..]) != []
    ensures LastRunAt(s, Words(s)[|Words(s)| - 1], LastWordStart(s))
    decreases |s|, 0
  {
    var n := WordLen(s);
    var t := s[n..];
    var rest := Words(t);
    var w, j := rest[|rest| - 1], LastWordStart(t);
    FirstWordUnfold(s);
    LastWordFacts(t);
    assert n < |s| && IsSpace(s[n]);
    LastRunAfterWord(s, n, w, j);
  }

  /** A last run of the text after a whitespace character is a last run of
      the whole text. */
  lemma {:induction false} LastRunAfterWord(s: string, n: nat, w: string, j: int)
    requires 0 < n < |s| && IsSpace(s[n]) && LastRunAt(s[n..], w, j) && |w| > 0 && NoSpace(w)
    ensures LastRunAt(s, w, n + j)
  {
    RunStartNotSpace(s[n..], w, j);
    assert s[n..][0] == s[n];
    LastRunShift(s, n, w, j);
  }

  /** After a first word, the last word and where it starts come from the
      rest of the text. */
  lemma {:induction false} FirstWordUnfold(s: string)
    requires |s| > 0 && !IsSpace(s[0]) && Words(s[WordLen(s)..]) != []
    ensures var n, rest := WordLen(s), Words(s[WordLen(s)..]);
            && Words(s) != [] && Words(s)[|Words(s)| - 1] == rest[|rest| - 1]
            && LastWordStart(s) == n + LastWordStart(s[n..])
  {
    var n := WordLen(s);
    var rest := Words(s[n..]);
    var ws := Words(s);
    assert ws == [s[..n]] + rest;
    assert ws[|ws| - 1] == ([s[..n]] + rest)[|rest|];
  }

  /** A run of a word that opens with non-whitespace starts on non-whitespace. */
  lemma {:induction false} RunStartNotSpace(t: string, w: string, j: int)
    requires LastRunAt(t, w, j) && |w| > 0 && NoSpace(w)
    ensures j < |t| && !IsSpace(t[j])
  {
    assert t[j..j + |w|][0] == t[j];
  }

  /** A word with only whitespace after it is the last run, at the start. */
  lemma {:induction false} OnlyWordPlacement(s: string)
    requires |s| > 0 && !IsSpace(s[0]) && Words(s[WordLen(s)..]) == []
    ensures LastRunAt(s, s[..WordLen(s)], 0)
  {
    WordsEmptyIffAllSpace(s[WordLen(s)..]);
    assert s[0..WordLen(s)] == s[..WordLen(s)];
  }

  /** A last run found in a suffix `s[k..]` is a last run of `s`. */
  lemma {:induction false} LastRunShift(s: string, k: nat, w: string, j: nat)
    requires 0 < k <= |s| && LastRunAt(s[k..], w, j) && (j > 0 || IsSpace(s[k - 1]))
    ensures LastRunAt(s, w, k + j)
  {
    assert s[k + j..k + j + |w|] == s[k..][j..j + |w|];
    assert s[k + j + |w|..] == s[k..][j + |w|..];
    if j > 0 { assert s[k + j - 1] == s[k..][j - 1]; }
  }

  // ---------------------------------------------------------------- lemmas: join / split(c)

  lemma {:induction false} JoinCons(sep: string, p: string, ps: seq<string>)
    requires |ps| > 0
    ensures Join(sep, [p] + ps) == p + sep + Join(sep, ps)
  {
    assert ([p] + ps)[1..] == ps;
  }

  /** `c.join(s.split(c)) == s`. */
  lemma {:induction false} JoinOfSplit(s: string, c: char)
    ensures Join([c], SplitOn(s, c)) == s
    decreases |s|
  {
    if |s| > 0 {
      var rest := SplitOn(s[1..], c);
      JoinOfSplit(s[1..], c);
      if s[0] == c {
        JoinCons([c], "", rest);
        assert s == [c] + s[1..];
      } else if |rest| == 1 {
        assert SplitOn(s, c) == [[s[0]] + rest[0]];
        assert rest[0] == s[1..];
        assert s == [s[0]] + s[1..];
      } else {
        var first, tail := rest[0], Join([c], rest[1..]);
        assert rest == [first] + rest[1..];
        JoinCons([c], first, rest[1..]);
        assert first + [c] + tail == s[1..];
        assert SplitOn(s, c) == [[s[0]] + first] + rest[1..];
        JoinCons([c], [s[0]] + first, rest[1..]);
        assert ([s[0]] + first) + [c] + tail == [s[0]] + (first + [c] + tail);
        assert s == [s[0]] + s[1..];
      }
    }
  }

  /** Splitting a text that begins with a separator-free piece `p`. */
  lemma {:induction false} SplitOnPrefix(p: string, rest: string, c: char)
    requires c !in p
    ensures var tail := SplitOn(rest, c);
            SplitOn(p + rest, c) == [p + tail[0]] + tail[1..]
    decreases |p|
  {
    if |p| > 0 {
      var tail := SplitOn(rest, c);
      assert (p + rest)[0] == p[0] && p[0] != c;
      assert (p + rest)[1..] == p[1..] + rest;
      SplitOnPrefix(p[1..], rest, c);
      var r := SplitOn(p[1..] + rest, c);
      assert r[0] == p[1..] + tail[0] && r[1..] == tail[1..];
      assert [p[0]] + r[0] == p + tail[0];
    } else {
      var tail := SplitOn(rest, c);
      assert p + rest == rest;
      assert tail == [tail[0]] + tail[1..];
      assert p + tail[0] == tail[0];
    }
  }

  /** `sep.join(parts).split(sep) == parts` when no part holds the separator. */
  lemma {:induction false} SplitOfJoin(parts: seq<string>, c: char)
    requires |parts| > 0
    requires forall k :: 0 <= k < |parts| ==> c !in parts[k]
    ensures SplitOn(Join([c], parts), c) == parts
    decreases |parts|
  {
    if |parts| == 1 {
      SplitOnPrefix(parts[0], "", c);
      assert SplitOn("", c) == [""];
      assert parts[0] + "" == parts[0];
    } else {
      var j := Join([c], parts[1..]);
      JoinCons([c], parts[0], parts[1..]);
      assert Join([c], parts) == parts[0] + ([c] + j);
      SplitOfJoin(parts[1..], c);
      SplitOnPrefix(parts[0], [c] + j, c);
      var t := SplitOn([c] + j, c);
      assert ([c] + j)[0] == c && ([c] + j)[1..] == j;
      assert t == [""] + parts[1..];
      assert parts[0] + t[0] == parts[0];
      assert parts == [parts[0]] + parts[1..];
    }
  }
}
