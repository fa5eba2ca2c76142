/**
 * The string operations the chaining policy applies to the user's query:
 * Python's `str.lower()`, `sub in s`, `str.split()` and `list.index`.
 */
module Text {
  import opened Json

  /** The characters Python's `str.isspace()` accepts, which `str.split()` splits on. */
  predicate IsSpace(c: char)
  {
    c == ' ' || ('\t' <= c <= '\r') || ('\U{1c}' <= c <= '\U{1f}') ||
    c == '\U{85}' || c == '\U{a0}' || c == '\U{1680}' || ('\U{2000}' <= c <= '\U{200a}') ||
    c == '\U{2028}' || c == '\U{2029}' || c == '\U{202f}' || c == '\U{205f}' || c == '\U{3000}'
  }

  predicate IsUpper(c: char)
  {
    'A' <= c <= 'Z'
  }

  function LowerChar(c: char): char
  {
    if IsUpper(c) then (c as int - 'A' as int + 'a' as int) as char else c
  }

  /**
   * `s.lower()`, restricted to the ASCII letters: same length, no upper-case
   * letter left, every other character kept.
   */
  function Lower(s: string): (r: string)
    ensures |r| == |s|
    ensures forall i :: 0 <= i < |s| ==> !IsUpper(r[i])
    ensures forall i :: 0 <= i < |s| && IsUpper(s[i]) ==> r[i] as int == s[i] as int + ('a' as int - 'A' as int)
    ensures forall i :: 0 <= i < |s| && !IsUpper(s[i]) ==> r[i] == s[i]
  {
    seq(|s|, i requires 0 <= i < |s| => LowerChar(s[i]))
  }

  lemma LowerOfLower(s: string)
    requires forall i :: 0 <= i < |s| ==> !IsUpper(s[i])
    ensures Lower(s) == s
  {
  }

  /** Lower-casing twice is lower-casing once. */
  lemma LowerIdempotent(s: string)
    ensures Lower(Lower(s)) == Lower(s)
  {
    LowerOfLower(Lower(s));
  }

  /** Lower-casing works character by character, so it distributes over concatenation. */
  lemma LowerConcat(a: string, b: string)
    ensures Lower(a + b) == Lower(a) + Lower(b)
  {
    assert forall i :: 0 <= i < |a + b| ==> Lower(a + b)[i] == (Lower(a) + Lower(b))[i];
  }

  /** `sub in s` for two Python strings. */
  predicate Contains(s: string, sub: string)
  {
    exists i | 0 <= i <= |s| :: OccursAt(s, sub, i)
  }

  predicate OccursAt(s: string, sub: string, i: int)
  {
    0 <= i && i + |sub| <= |s| && s[i..i + |sub|] == sub
  }

  /** The length of the longest prefix of `s` that holds no whitespace. */
  function WordLength(s: string): (n: nat)
    ensures n <= |s|
    ensures forall i :: 0 <= i < n ==> !IsSpace(s[i])
    ensures n < |s| ==> IsSpace(s[n])
  {
    if s == [] || IsSpace(s[0]) then 0 else 1 + WordLength(s[1..])
  }

  predicate IsWord(w: string)
  {
    w != [] && forall i :: 0 <= i < |w| ==> !IsSpace(w[i])
  }

  /**
   * `s.split()` with no separator: the maximal runs of non-whitespace
   * characters, in order; no token is empty and none holds whitespace.
   * Whitespace is dropped one character at a time; a token is cut at the
   * first whitespace character after it.
   */
  function Words(s: string): (ws: seq<string>)
    ensures forall k :: 0 <= k < |ws| ==> IsWord(ws[k])
    decreases |s|
  {
    if s == [] then []
    else if IsSpace(s[0]) then Words(s[1..])
    else
      var n := WordLength(s);
      [s[..n]] + Words(s[n..])
  }

  lemma OccursShifted(s: string, t: string, d: nat, w: string, j: int)
    requires d <= |s| && t == s[d..] && OccursAt(t, w, j)
    ensures OccursAt(s, w, d + j)
  {
    assert t[j..j + |w|] == s[d + j..d + j + |w|];
  }

  /** Where the `k`-th token of `s.split()` starts in `s`. */
  lemma {:induction false} WordStart(s: string, k: nat) returns (i: nat)
    requires k < |Words(s)|
    ensures OccursAt(s, Words(s)[k], i)
    decreases |s|
  {
    if IsSpace(s[0]) {
      var j := WordStart(s[1..], k);
      OccursShifted(s, s[1..], 1, Words(s[1..])[k], j);
      i := 1 + j;
    } else {
      var n := WordLength(s);
      if k == 0 {
        assert s[..n] == s[0..0 + n];
        i := 0;
      } else {
        var j := WordStart(s[n..], k - 1);
        OccursShifted(s, s[n..], n, Words(s[n..])[k - 1], j);
        i := n + j;
      }
    }
  }

  /** Every token `s.split()` yields occurs in `s`. */
  lemma WordsOccur(s: string, k: nat)
    requires k < |Words(s)|
    ensures Contains(s, Words(s)[k])
  {
    var i := WordStart(s, k);
    assert OccursAt(s, Words(s)[k], i);
  }

  /** `" ".join(ws)`: the reference that `Words` inverts. */
  function Unwords(ws: seq<string>): string
  {
    if ws == [] then ""
    else if |ws| == 1 then ws[0]
    else ws[0] + " " + Unwords(ws[1..])
  }

  /** Joining two non-empty token lists puts one space between their joins. */
  lemma {:induction false} UnwordsAppend(xs: seq<string>, ys: seq<string>)
    requires xs != [] && ys != []
    ensures Unwords(xs + ys) == Unwords(xs) + " " + Unwords(ys)
    decreases |xs|
  {
    if |xs| == 1 {
      assert xs + ys == [xs[0]] + ys;
    } else {
      assert (xs + ys)[1..] == xs[1..] + ys;
      UnwordsAppend(xs[1..], ys);
    }
  }

  lemma {:induction false} WordLengthOfWord(w: string, rest: string)
    requires IsWord(w)
    requires rest == [] || IsSpace(rest[0])
    ensures WordLength(w + rest) == |w|
    decreases |w|
  {
    if |w| > 1 {
      assert (w + rest)[1..] == w[1..] + rest;
      WordLengthOfWord(w[1..], rest);
    } else {
      assert (w + rest)[1..] == rest;
    }
  }

  /** Splitting text that was joined with single spaces gives the tokens back. */
  lemma {:induction false} WordsOfUnwords(ws: seq<string>)
    requires forall k :: 0 <= k < |ws| ==> IsWord(ws[k])
    ensures Words(Unwords(ws)) == ws
    decreases |ws|
  {
    if ws == [] {
    } else if |ws| == 1 {
      var w := ws[0];
      WordLengthOfWord(w, []);
      assert w + [] == w;
      assert w[|w|..] == [];
    } else {
      var w, rest := ws[0], Unwords(ws[1..]);
      var s := w + " " + rest;
      assert s == w + (" " + rest);
      WordLengthOfWord(w, " " + rest);
      assert s[..|w|] == w && s[|w|..] == " " + rest;
      assert Words(s) == [w] + Words(" " + rest);
      assert (" " + rest)[1..] == rest;
      WordsOfUnwords(ws[1..]);
    }
  }

  predicate AllSpace(sp: string)
  {
    forall i :: 0 <= i < |sp| ==> IsSpace(sp[i])
  }

  /**
   * `seps[0] + ws[0] + seps[1] + ... + ws[n-1] + seps[n]`: tokens with a run of
   * whitespace around and between them.
   */
  function Join(ws: seq<string>, seps: seq<string>): string
    requires |seps| == |ws| + 1
    decreases |ws|
  {
    if ws == [] then seps[0] else seps[0] + ws[0] + Join(ws[1..], seps[1..])
  }

  /** Whitespace in front of a string does not change its split. */
  lemma {:induction false} WordsOfSpace(sp: string, rest: string)
    requires AllSpace(sp)
    ensures Words(sp + rest) == Words(rest)
    decreases |sp|
  {
    if sp == [] {
      assert sp + rest == rest;
    } else {
      assert (sp + rest)[1..] == sp[1..] + rest;
      WordsOfSpace(sp[1..], rest);
    }
  }

  /**
   * Splitting tokens separated by non-empty whitespace runs, with optional
   * whitespace before the first and after the last, gives the tokens back.
   */
  lemma {:induction false} WordsOfJoin(ws: seq<string>, seps: seq<string>)
    requires |seps| == |ws| + 1
    requires forall k :: 0 <= k < |ws| ==> IsWord(ws[k])
    requires forall k :: 0 <= k < |seps| ==> AllSpace(seps[k])
    requires forall k :: 0 < k < |ws| ==> seps[k] != []
    ensures Words(Join(ws, seps)) == ws
    decreases |ws|
  {
    if ws == [] {
      WordsOfSpace(seps[0], []);
      assert seps[0] + [] == seps[0];
    } else {
      var w, r := ws[0], Join(ws[1..], seps[1..]);
      var t := w + r;
      assert Join(ws, seps) == seps[0] + t;
      WordsOfSpace(seps[0], t);
      if |ws| == 1 {
        assert r == seps[1];
      } else {
        assert r == seps[1] + ws[1] + Join(ws[2..], seps[2..]);
      }
      WordLengthOfWord(w, r);
      assert t[..|w|] == w && t[|w|..] == r;
      assert Words(t) == [w] + Words(r);
      WordsOfJoin(ws[1..], seps[1..]);
    }
  }

  /** Putting `p` in front of the leading whitespace run puts it in front of the join. */
  lemma JoinPrefix(p: string, ws: seq<string>, seps: seq<string>)
    requires |seps| == |ws| + 1
    ensures Join(ws, [p + seps[0]] + seps[1..]) == p + Join(ws, seps)
  {
    var seps' := [p + seps[0]] + seps[1..];
    if ws != [] {
      assert seps'[1..] == seps[1..];
    }
  }

  /** A token with no whitespace before it opens the join. */
  lemma JoinWordFront(w: string, ws: seq<string>, seps: seq<string>)
    requires |seps| == |ws| + 1
    ensures Join([w] + ws, [[]] + seps) == w + Join(ws, seps)
  {
    assert ([w] + ws)[1..] == ws && ([[]] + seps)[1..] == seps;
    assert [] + w == w;
  }

  /**
   * `s` is its split interleaved with `seps`: whitespace runs that meet the
   * conditions of WordsOfJoin, the first one empty when `s` opens with a token.
   */
  predicate RunsOf(s: string, seps: seq<string>)
  {
    |seps| == |Words(s)| + 1 &&
    (forall k :: 0 <= k < |seps| ==> AllSpace(seps[k])) &&
    (forall k :: 0 < k < |Words(s)| ==> seps[k] != []) &&
    (s != [] && !IsSpace(s[0]) ==> seps[0] == []) &&
    Join(Words(s), seps) == s
  }

  /** A join that opens with whitespace before its first token has a non-empty first run. */
  lemma JoinFirstRun(ws: seq<string>, seps: seq<string>)
    requires |seps| == |ws| + 1 && ws != [] && IsWord(ws[0])
    requires Join(ws, seps) != [] && IsSpace(Join(ws, seps)[0])
    ensures seps[0] != []
  {
  }

  lemma RunsAfterSpace(s: string, rest: seq<string>)
    requires s != [] && IsSpace(s[0]) && RunsOf(s[1..], rest)
    ensures RunsOf(s, [[s[0]] + rest[0]] + rest[1..])
  {
    var seps := [[s[0]] + rest[0]] + rest[1..];
    JoinPrefix([s[0]], Words(s), rest);
    assert [s[0]] + s[1..] == s;
    assert forall k :: 0 < k < |seps| ==> seps[k] == rest[k];
  }

  lemma RunsAfterWord(s: string, rest: seq<string>)
    requires s != [] && !IsSpace(s[0]) && RunsOf(s[WordLength(s)..], rest)
    ensures RunsOf(s, [[]] + rest)
  {
    var n := WordLength(s);
    var tail := Words(s[n..]);
    var ws, seps := Words(s), [[]] + rest;
    assert ws == [s[..n]] + tail;
    assert forall k :: 0 < k < |seps| ==> seps[k] == rest[k - 1];
    assert forall k :: 0 <= k < |seps| ==> AllSpace(seps[k]);
    if tail != [] {
      JoinFirstRun(tail, rest);
    }
    assert forall k :: 0 < k < |ws| ==> seps[k] != [];
    JoinWordFront(s[..n], tail, rest);
    assert s[..n] + s[n..] == s;
    assert Join(ws, seps) == s;
  }

  /**
   * Every string is its own split, joined by the whitespace runs it had: the
   * converse of WordsOfJoin, so the two determine `Words` on every string.
   */
  lemma {:induction false} SplitRuns(s: string) returns (seps: seq<string>)
    ensures RunsOf(s, seps)
    decreases |s|
  {
    if s == [] {
      seps := [[]];
    } else if IsSpace(s[0]) {
      var rest := SplitRuns(s[1..]);
      RunsAfterSpace(s, rest);
      seps := [[s[0]] + rest[0]] + rest[1..];
    } else {
      var rest := SplitRuns(s[WordLength(s)..]);
      RunsAfterWord(s, rest);
      seps := [[]] + rest;
    }
  }

  /** Python's `ws.index(x)` when `x in ws`, and `None` when it is not. */
  function IndexOf(ws: seq<string>, x: string): (r: Option<nat>)
    ensures r.Some? ==> r.value < |ws| && ws[r.value] == x
    ensures r.Some? ==> forall j :: 0 <= j < r.value ==> ws[j] != x
    ensures r.None? <==> x !in ws
  {
    if ws == [] then None
    else if ws[0] == x then Some(0)
    else match IndexOf(ws[1..], x)
      case Some(i) => Some(i + 1)
      case None => None
  }
}
