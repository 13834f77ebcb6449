/**
 * The Python string operations the modelled code relies on, written out
 * with Python's semantics: decimal formatting of integers (`f"{n}"`),
 * substring search (`p in s`), `str.replace`, `str.split`, `str.join`
 * and `str.strip()`.
 */
module PyStrings {
  import opened Wrappers

  // ---------------------------------------------------------------------
  // Decimal formatting of natural numbers, and its inverse
  // ---------------------------------------------------------------------

  predicate IsDigit(c: char) {
    '0' <= c <= '9'
  }

  function DigitChar(d: nat): (c: char)
    requires d < 10
    ensures IsDigit(c) && c as int - '0' as int == d
  {
    ('0' as int + d) as char
  }

  /** `str(n)` / `f"{n}"` for a natural number: its decimal digits, most significant first. */
  function NatStr(n: nat): (s: string)
    ensures |s| >= 1
    ensures forall k :: 0 <= k < |s| ==> IsDigit(s[k])
    decreases n
  {
    if n < 10 then [DigitChar(n)] else NatStr(n / 10) + [DigitChar(n % 10)]
  }

  /** The value of a string of decimal digits (`int(s)` on digit strings). */
  function ParseNat(s: string): nat
    requires forall k :: 0 <= k < |s| ==> IsDigit(s[k])
  {
    if s == [] then 0
    else
      assert IsDigit(s[|s| - 1]);
      ParseNat(s[..|s| - 1]) * 10 + (s[|s| - 1] as int - '0' as int)
  }

  /** Reading back the decimal form of `n` gives `n`. */
  lemma {:induction false} ParseNatStr(n: nat)
    ensures ParseNat(NatStr(n)) == n
    decreases n
  {
    var s := NatStr(n);
    if n >= 10 {
      ParseNatStr(n / 10);
      assert s[..|s| - 1] == NatStr(n / 10);
    }
  }

  /** Distinct numbers have distinct decimal forms. */
  lemma NatStrInjective(m: nat, n: nat)
    requires NatStr(m) == NatStr(n)
    ensures m == n
  {
    ParseNatStr(m);
    ParseNatStr(n);
  }

  /** `str(i)` for any integer, with a leading `-` for negative values. */
  function IntStr(i: int): (s: string)
    ensures |s| >= 1
  {
    if i < 0 then "-" + NatStr(-i) else NatStr(i)
  }

  // ---------------------------------------------------------------------
  // Substring search: Python's `p in s`
  // ---------------------------------------------------------------------

  /** `p` occurs in `s` starting at index `i`. */
  predicate OccursAt(s: string, p: string, i: int) {
    0 <= i && i + |p| <= |s| && s[i..i + |p|] == p
  }

  /** Python's `p in s`. The empty string occurs in every string (at index 0). */
  predicate Contains(s: string, p: string) {
    exists i | 0 <= i <= |s| - |p| :: OccursAt(s, p, i)
  }

  /** The leftmost index at or after `from` where `p` occurs, if there is one. */
  function FindFrom(s: string, p: string, from: nat): (r: Option<nat>)
    ensures r.Some? ==> from <= r.value && OccursAt(s, p, r.value)
    decreases |s| - from
  {
    if from + |p| > |s| then None
    else if s[from..from + |p|] == p then Some(from)
    else FindFrom(s, p, from + 1)
  }

  /** `FindFrom` finds nothing only when `p` occurs nowhere at or after `from`. */
  lemma {:induction false} FindFromNone(s: string, p: string, from: nat)
    ensures FindFrom(s, p, from).None? ==> forall j :: from <= j ==> !OccursAt(s, p, j)
    decreases |s| - from
  {
    if from + |p| <= |s| && s[from..from + |p|] != p {
      FindFromNone(s, p, from + 1);
    }
  }

  /** `FindFrom` finds the leftmost occurrence: none lies between `from` and the index it returns. */
  lemma {:induction false} FindFromLeftmost(s: string, p: string, from: nat)
    ensures FindFrom(s, p, from).Some? ==>
              forall j :: from <= j < FindFrom(s, p, from).value ==> !OccursAt(s, p, j)
    decreases |s| - from
  {
    if from + |p| <= |s| && s[from..from + |p|] != p {
      FindFromLeftmost(s, p, from + 1);
    }
  }

  /** `s.find(p)`: the leftmost occurrence of `p` in `s`, if any. */
  function Find(s: string, p: string): (r: Option<nat>)
    ensures r.Some? ==> OccursAt(s, p, r.value)
  {
    FindFrom(s, p, 0)
  }

  /** `Find` finds nothing exactly when `p` is not `in` `s`. */
  lemma FindNone(s: string, p: string)
    ensures Find(s, p).None? <==> !Contains(s, p)
  {
    FindFromNone(s, p, 0);
  }

  /** No occurrence of `p` lies before the one `Find` returns. */
  lemma FindLeftmost(s: string, p: string)
    ensures Find(s, p).Some? ==> forall j :: 0 <= j < Find(s, p).value ==> !OccursAt(s, p, j)
  {
    FindFromLeftmost(s, p, 0);
  }

  // ---------------------------------------------------------------------
  // str.replace, str.split and str.join
  // ---------------------------------------------------------------------

  /** `s.replace("", x)`: Python inserts `x` before every character and at the end. */
  function InsertEverywhere(s: string, x: string): (r: string)
    ensures |r| == |s| + (|s| + 1) * |x|
  {
    if s == [] then x else x + [s[0]] + InsertEverywhere(s[1..], x)
  }

  /** The characters of `s`, each as a one-character string: Python's `list(s)`. */
  function Chars(s: string): (r: seq<string>)
    ensures |r| == |s|
    ensures forall k :: 0 <= k < |s| ==> r[k] == [s[k]]
  {
    seq(|s|, k requires 0 <= k < |s| => [s[k]])
  }

  /** The characters of `s`, then an empty string, joined by `x`: `x` after every character. */
  lemma {:induction false} JoinCharsThenEmpty(s: string, x: string)
    ensures Join(x, Chars(s) + [""]) == (if s == [] then "" else [s[0]] + x + Join(x, Chars(s[1..]) + [""]))
  {
    if s != [] {
      assert Chars(s) + [""] == [[s[0]]] + (Chars(s[1..]) + [""]);
      JoinCons(x, [s[0]], Chars(s[1..]) + [""]);
    } else {
      assert Chars(s) + [""] == [""];
    }
  }

  /**
   * `s.replace("", x) == x.join([""] + list(s) + [""])`: `x` stands before
   * every character of `s` and at the end, and the characters of `s` keep
   * their order in between.
   */
  lemma {:induction false} InsertEverywhereIsJoin(s: string, x: string)
    ensures InsertEverywhere(s, x) == Join(x, [""] + Chars(s) + [""])
    decreases |s|
  {
    JoinCons(x, "", Chars(s) + [""]);
    assert [""] + Chars(s) + [""] == [""] + (Chars(s) + [""]);
    JoinCharsThenEmpty(s, x);
    if s != [] {
      InsertEverywhereIsJoin(s[1..], x);
      JoinCons(x, "", Chars(s[1..]) + [""]);
      assert [""] + Chars(s[1..]) + [""] == [""] + (Chars(s[1..]) + [""]);
    }
  }

  /** `s.replace(pat, rep)` for a non-empty `pat`: the leftmost non-overlapping occurrences, scanning from the left, become `rep`. */
  function ReplaceEach(s: string, pat: string, rep: string): string
    requires pat != ""
    decreases |s|
  {
    match Find(s, pat)
    case None => s
    case Some(i) => s[..i] + rep + ReplaceEach(s[i + |pat|..], pat, rep)
  }

  /** Python's `s.replace(pat, rep)`, including the empty pattern. */
  function ReplaceAll(s: string, pat: string, rep: string): string {
    if pat == "" then InsertEverywhere(s, rep) else ReplaceEach(s, pat, rep)
  }

  /** `s.split(sep)` for a non-empty separator: the pieces between the leftmost non-overlapping occurrences. */
  function Split(s: string, sep: string): (pieces: seq<string>)
    requires sep != ""
    ensures |pieces| >= 1
    decreases |s|
  {
    match Find(s, sep)
    case None => [s]
    case Some(i) => [s[..i]] + Split(s[i + |sep|..], sep)
  }

  /** `sep.join(xs)`. */
  function Join(sep: string, xs: seq<string>): string {
    if xs == [] then ""
    else if |xs| == 1 then xs[0]
    else xs[0] + sep + Join(sep, xs[1..])
  }

  /** A string is the part before an occurrence of `p`, `p` itself, and the part after it. */
  lemma CutAround(s: string, p: string, i: nat)
    requires OccursAt(s, p, i)
    ensures s == s[..i] + p + s[i + |p|..]
  {
    assert s[..i + |p|] == s[..i] + s[i..i + |p|];
    assert s == s[..i + |p|] + s[i + |p|..];
  }

  /** Joining a non-empty list behind one more piece puts a separator between them. */
  lemma JoinCons(sep: string, x: string, xs: seq<string>)
    requires xs != []
    ensures Join(sep, [x] + xs) == x + sep + Join(sep, xs)
  {
    assert ([x] + xs)[1..] == xs;
  }

  /** No piece of `s.split(sep)` contains `sep`: every occurrence was a cut point. */
  lemma {:induction false} SplitPiecesAreFree(s: string, sep: string)
    requires sep != ""
    ensures forall k :: 0 <= k < |Split(s, sep)| ==> !Contains(Split(s, sep)[k], sep)
    decreases |s|
  {
    match Find(s, sep)
    case None =>
      FindNone(s, sep);
    case Some(i) =>
      var rest := s[i + |sep|..];
      FindLeftmost(s, sep);
      SplitPiecesAreFree(rest, sep);
      forall j | 0 <= j <= i - |sep| && OccursAt(s[..i], sep, j)
        ensures false
      {
        assert s[..i][j..j + |sep|] == s[j..j + |sep|];
        assert OccursAt(s, sep, j);
      }
      assert Split(s, sep) == [s[..i]] + Split(rest, sep);
      forall k | 0 <= k < |Split(s, sep)|
        ensures !Contains(Split(s, sep)[k], sep)
      {
        if k > 0 {
          assert Split(s, sep)[k] == Split(rest, sep)[k - 1];
        }
      }
  }

  /** Joining the pieces of `s.split(sep)` with `sep` gives back `s`. */
  lemma {:induction false} JoinSplit(s: string, sep: string)
    requires sep != ""
    ensures Join(sep, Split(s, sep)) == s
    decreases |s|
  {
    match Find(s, sep)
    case None =>
    case Some(i) =>
      var rest := s[i + |sep|..];
      var pieces := Split(rest, sep);
      assert Split(s, sep) == [s[..i]] + pieces;
      JoinSplit(rest, sep);
      JoinCons(sep, s[..i], pieces);
      CutAround(s, sep, i);
  }

  /** One cut of `split`: the piece before the leftmost occurrence, then the pieces after it. */
  lemma SplitStep(s: string, sep: string, i: nat)
    requires sep != "" && Find(s, sep) == Some(i)
    ensures i + |sep| <= |s|
    ensures Split(s, sep) == [s[..i]] + Split(s[i + |sep|..], sep)
  {
  }

  /** One step of `replace`: the text before the leftmost occurrence, the replacement, then the rest replaced. */
  lemma ReplaceStep(s: string, pat: string, rep: string, i: nat)
    requires pat != "" && Find(s, pat) == Some(i)
    ensures i + |pat| <= |s|
    ensures ReplaceAll(s, pat, rep) == s[..i] + rep + ReplaceAll(s[i + |pat|..], pat, rep)
  {
    var rest := s[i + |pat|..];
    assert ReplaceAll(rest, pat, rep) == ReplaceEach(rest, pat, rep);
    assert ReplaceEach(s, pat, rep) == s[..i] + rep + ReplaceEach(rest, pat, rep);
  }

  /** For a non-empty `pat`, `s.replace(pat, rep) == rep.join(s.split(pat))`. */
  lemma {:induction false} ReplaceIsJoinOfSplit(s: string, pat: string, rep: string)
    requires pat != ""
    ensures ReplaceAll(s, pat, rep) == Join(rep, Split(s, pat))
    decreases |s|
  {
    match Find(s, pat)
    case None =>
    case Some(i) =>
      var rest := s[i + |pat|..];
      SplitStep(s, pat, i);
      ReplaceStep(s, pat, rep, i);
      ReplaceIsJoinOfSplit(rest, pat, rep);
      JoinCons(rep, s[..i], Split(rest, pat));
      calc {
        ReplaceAll(s, pat, rep);
        s[..i] + rep + ReplaceAll(rest, pat, rep);
        s[..i] + rep + Join(rep, Split(rest, pat));
        Join(rep, [s[..i]] + Split(rest, pat));
        Join(rep, Split(s, pat));
      }
  }

  /** A substring of a substring of `s` is a substring of `s`. */
  lemma ContainsTransitive(s: string, t: string, u: string)
    requires Contains(s, t) && Contains(t, u)
    ensures Contains(s, u)
  {
    var i :| 0 <= i <= |s| - |t| && OccursAt(s, t, i);
    var j :| 0 <= j <= |t| - |u| && OccursAt(t, u, j);
    forall k | 0 <= k < |u|
      ensures s[i + j + k] == u[k]
    {
      assert u[k] == t[j + k] == s[i + j + k];
    }
    assert s[i + j..i + j + |u|] == u;
    assert OccursAt(s, u, i + j);
  }

  /** Where `pat` does not occur, `replace` changes nothing. */
  lemma ReplaceAbsent(s: string, pat: string, rep: string)
    requires !Contains(s, pat)
    ensures ReplaceAll(s, pat, rep) == s
  {
    assert pat != "" by { assert OccursAt(s, "", 0); }
    FindNone(s, pat);
  }

  /** An occurrence in a suffix `s[d..]` is an occurrence in `s`, shifted by `d`. */
  lemma OccursInSuffix(s: string, p: string, d: nat, j: int)
    requires d <= |s|
    requires OccursAt(s[d..], p, j)
    ensures OccursAt(s, p, d + j)
  {
    assert s[d..][j..j + |p|] == s[d + j..d + j + |p|];
  }

  /** Where `pat` occurs exactly once, at `i`, `replace` splices `rep` in at `i` and nowhere else. */
  lemma ReplaceUnique(s: string, pat: string, rep: string, i: nat)
    requires pat != ""
    requires OccursAt(s, pat, i)
    requires forall j :: OccursAt(s, pat, j) ==> j == i
    ensures ReplaceAll(s, pat, rep) == s[..i] + rep + s[i + |pat|..]
  {
    assert Contains(s, pat);
    FindNone(s, pat);
    assert Find(s, pat) == Some(i);
    var rest := s[i + |pat|..];
    ReplaceStep(s, pat, rep, i);
    if Contains(rest, pat) {
      var j :| 0 <= j <= |rest| - |pat| && OccursAt(rest, pat, j);
      OccursInSuffix(s, pat, i + |pat|, j);
      assert false;
    }
    ReplaceAbsent(rest, pat, rep);
  }

  /** Replacing a string by itself is the identity. */
  lemma ReplaceSelf(s: string, pat: string)
    requires pat != ""
    ensures ReplaceAll(s, pat, pat) == s
  {
    ReplaceIsJoinOfSplit(s, pat, pat);
    JoinSplit(s, pat);
  }

  // ---------------------------------------------------------------------
  // str.strip()
  // ---------------------------------------------------------------------

  /** Python's `str.isspace()` for one character (the Unicode whitespace set Python uses). */
  predicate IsSpace(c: char) {
    var n := c as int;
    (0x09 <= n <= 0x0D) || (0x1C <= n <= 0x20) || n == 0x85 || n == 0xA0 || n == 0x1680
    || (0x2000 <= n <= 0x200A) || n == 0x2028 || n == 0x2029 || n == 0x202F
    || n == 0x205F || n == 0x3000
  }

  /** The number of whitespace characters `s` starts with. */
  function LeadingSpace(s: string): (n: nat)
    ensures n <= |s|
    ensures forall k :: 0 <= k < n ==> IsSpace(s[k])
    ensures n < |s| ==> !IsSpace(s[n])
  {
    if s == [] || !IsSpace(s[0]) then 0 else 1 + LeadingSpace(s[1..])
  }

  /** The number of whitespace characters `s` ends with. */
  function TrailingSpace(s: string): (n: nat)
    ensures n <= |s|
    ensures forall k :: |s| - n <= k < |s| ==> IsSpace(s[k])
    ensures n < |s| ==> !IsSpace(s[|s| - 1 - n])
  {
    if s == [] || !IsSpace(s[|s| - 1]) then 0 else 1 + TrailingSpace(s[..|s| - 1])
  }

  /** `r` is `s` with `a` whitespace characters cut from its start and `b` from its end. */
  predicate TrimmedBy(s: string, r: string, a: nat, b: nat) {
    && a + b <= |s|
    && r == s[a..|s| - b]
    && (forall k :: 0 <= k < a ==> IsSpace(s[k]))
    && (forall k :: |s| - b <= k < |s| ==> IsSpace(s[k]))
  }

  /** `s.strip()`: `s` without its leading and trailing whitespace. */
  function Strip(s: string): (r: string)
    ensures Contains(s, r)
    ensures exists a: nat, b: nat :: TrimmedBy(s, r, a, b)
    ensures r != [] ==> !IsSpace(r[0]) && !IsSpace(r[|r| - 1])
    ensures r == [] <==> forall k :: 0 <= k < |s| ==> IsSpace(s[k])
  {
    var a := LeadingSpace(s);
    var t := s[a..];
    var b := TrailingSpace(t);
    var r := t[..|t| - b];
    assert OccursAt(s, r, a) by { assert s[a..a + |r|] == r; }
    assert a < |s| ==> !IsSpace(t[0]) && b < |t|;
    assert TrimmedBy(s, r, a, b) by {
      forall k | |s| - b <= k < |s|
        ensures IsSpace(s[k])
      {
        assert s[k] == t[k - a];
      }
    }
    r
  }

  /**
   * The contract of `Strip` determines it: cutting whitespace from both ends
   * of `s` until neither end is whitespace (or nothing is left) gives
   * exactly `s.strip()`.
   */
  lemma StripCharacterized(s: string, r: string, a: nat, b: nat)
    requires TrimmedBy(s, r, a, b)
    requires r != [] ==> !IsSpace(r[0]) && !IsSpace(r[|r| - 1])
    ensures r == Strip(s)
  {
    if r == [] {
      forall k | 0 <= k < |s|
        ensures IsSpace(s[k])
      {
        assert k < a || |s| - b <= k;
      }
    } else {
      var n := LeadingSpace(s);
      assert !IsSpace(s[a]) by { assert s[a] == r[0]; }
      assert n == a;
      var t := s[a..];
      var m := TrailingSpace(t);
      assert forall k :: 0 <= k < |t| ==> t[k] == s[a + k];
      assert !IsSpace(t[|t| - 1 - b]) by { assert t[|t| - 1 - b] == r[|r| - 1]; }
      assert m == b;
      assert t[..|t| - b] == r;
    }
  }

  /** Stripping twice is stripping once. */
  lemma StripIdempotent(s: string)
    ensures Strip(Strip(s)) == Strip(s)
  {
    var r := Strip(s);
    if r != [] {
      assert LeadingSpace(r) == 0;
      assert r[0..] == r;
      assert TrailingSpace(r) == 0;
    }
  }

  // ---------------------------------------------------------------------
  // Reading a file in text mode
  // ---------------------------------------------------------------------

  /**
   * What `open(path, "r").read()` gives for a file holding `s`: with
   * universal newlines, "\r\n" and a lone "\r" both read as "\n", and
   * every other character is kept.
   */
  function Newlines(s: string): (r: string)
    ensures '\r' !in r
    ensures |r| <= |s|
    decreases |s|
  {
    if s == [] then []
    else if s[0] == '\r' then "\n" + Newlines(if |s| > 1 && s[1] == '\n' then s[2..] else s[1..])
    else [s[0]] + Newlines(s[1..])
  }

  /** Text without a carriage return reads back exactly as written. */
  lemma {:induction false} NewlinesWithoutCR(s: string)
    requires '\r' !in s
    ensures Newlines(s) == s
    decreases |s|
  {
    if s != [] {
      assert s[0] in s;
      assert forall c :: c in s[1..] ==> c in s;
      NewlinesWithoutCR(s[1..]);
    }
  }

  /** Reading what a read gave back changes nothing more. */
  lemma NewlinesIdempotent(s: string)
    ensures Newlines(Newlines(s)) == Newlines(s)
  {
    NewlinesWithoutCR(Newlines(s));
  }

  /** For instance, "a\r\nb\rc\n" reads as "a\nb\nc\n". */
  lemma NewlinesExample()
    ensures Newlines("a\r\nb\rc\n") == "a\nb\nc\n"
  {
    assert Newlines("\n") == "\n";
    assert Newlines("c\n") == "c\n";
    assert Newlines("\rc\n") == "\nc\n";
    assert Newlines("b\rc\n") == "b\nc\n";
    assert Newlines("\r\nb\rc\n") == "\nb\nc\n";
  }
}
