/**
  The few Python string operations the restart workflow relies on:
  `str.strip()`, `str.split(sep)`, `sep.join(parts)`, `str.startswith`,
  `str.replace` and `str.lower()`.
 */
module Text {

  /** The characters for which Python's `str.isspace()` holds; `strip()` removes these. */
  predicate IsSpace(c: char) {
    || c == ' ' || '\U{9}' <= c <= '\U{D}' || '\U{1C}' <= c <= '\U{1F}'
    || c == '\U{85}' || c == '\U{A0}' || c == '\U{1680}' || '\U{2000}' <= c <= '\U{200A}'
    || c == '\U{2028}' || c == '\U{2029}' || c == '\U{202F}' || c == '\U{205F}' || c == '\U{3000}'
  }

  /** `s` has no whitespace at either end, as every result of `strip()` has. */
  predicate Stripped(s: string) {
    s == [] || (!IsSpace(s[0]) && !IsSpace(s[|s| - 1]))
  }

  /** Python's `s.lstrip()`. */
  function TrimLeft(s: string): string {
    if s != [] && IsSpace(s[0]) then TrimLeft(s[1..]) else s
  }

  /** `lstrip()` keeps a suffix that does not start with whitespace and drops only whitespace. */
  lemma {:induction false} TrimLeftKeepsSuffix(s: string)
    ensures var r := TrimLeft(s);
      && |r| <= |s| && r == s[|s| - |r|..]
      && (r == [] || !IsSpace(r[0]))
      && forall i :: 0 <= i < |s| - |r| ==> IsSpace(s[i])
  {
    if s != [] && IsSpace(s[0]) {
      var t := s[1..];
      TrimLeftKeepsSuffix(t);
      var r := TrimLeft(t);
      assert TrimLeft(s) == r;
      assert t[|t| - |r|..] == s[|s| - |r|..];
      forall i | 0 <= i < |s| - |r| ensures IsSpace(s[i]) {
        if i > 0 {
          assert s[i] == t[i - 1];
        }
      }
    }
  }

  /** Python's `s.rstrip()`. */
  function TrimRight(s: string): string {
    if s != [] && IsSpace(s[|s| - 1]) then TrimRight(s[..|s| - 1]) else s
  }

  /** `rstrip()` keeps a prefix that does not end with whitespace and drops only whitespace. */
  lemma {:induction false} TrimRightKeepsPrefix(s: string)
    ensures var r := TrimRight(s);
      && |r| <= |s| && r == s[..|r|]
      && (r == [] || !IsSpace(r[|r| - 1]))
      && forall i :: |r| <= i < |s| ==> IsSpace(s[i])
  {
    if s != [] && IsSpace(s[|s| - 1]) {
      var t := s[..|s| - 1];
      TrimRightKeepsPrefix(t);
      var r := TrimRight(t);
      assert TrimRight(s) == r;
      assert t[..|r|] == s[..|r|];
      forall i | |r| <= i < |s| ensures IsSpace(s[i]) {
        if i < |s| - 1 {
          assert s[i] == t[i];
        }
      }
    }
  }

  /** Python's `s.strip()`: drops the whitespace at both ends and keeps everything between. */
  function Strip(s: string): (r: string)
    ensures Stripped(r)
  {
    TrimLeftKeepsSuffix(s);
    TrimRightKeepsPrefix(TrimLeft(s));
    TrimRight(TrimLeft(s))
  }

  /** `strip()` keeps exactly the characters between the first and the last non-whitespace one. */
  lemma StripChars(s: string)
    ensures forall c :: c in Strip(s) ==> c in s
    ensures forall c :: c in s && !IsSpace(c) ==> c in Strip(s)
  {
    var l := TrimLeft(s);
    var r := TrimRight(l);
    TrimLeftKeepsSuffix(s);
    TrimRightKeepsPrefix(l);
    forall c | c in s && !IsSpace(c) ensures c in l {
      var i :| 0 <= i < |s| && s[i] == c;
      assert l[i - (|s| - |l|)] == c;
    }
    forall c | c in l && !IsSpace(c) ensures c in r {
      var i :| 0 <= i < |l| && l[i] == c;
      assert r[i] == c;
    }
  }

  /** Stripping leaves a string with no whitespace at its ends unchanged. */
  lemma StripStripped(s: string)
    requires Stripped(s)
    ensures Strip(s) == s
  {
  }

  /** Leading whitespace never survives `strip()`. */
  lemma StripLeadingSpace(c: char, s: string)
    requires IsSpace(c)
    ensures Strip([c] + s) == Strip(s)
  {
    assert ([c] + s)[1..] == s;
  }

  /** Python's `s.split(sep)` for a one-character separator: never empty, cuts at every `sep`. */
  function Split(s: string, sep: char): (r: seq<string>)
    ensures |r| >= 1
    ensures forall k :: 0 <= k < |r| ==> sep !in r[k]
  {
    if s == [] then [[]]
    else
      var rest := Split(s[1..], sep);
      if s[0] == sep then [[]] + rest
      else [[s[0]] + rest[0]] + rest[1..]
  }

  /** Joining the pieces of a split with the separator gives back the string. */
  lemma {:induction false} SplitJoin(s: string, sep: char)
    ensures Join(Split(s, sep), [sep]) == s
  {
    if s != [] {
      var rest := Split(s[1..], sep);
      SplitJoin(s[1..], sep);
      if s[0] == sep {
        assert Join([[]] + rest, [sep]) == [sep] + Join(rest, [sep]);
      } else {
        if |rest| > 1 {
          assert rest == [rest[0]] + rest[1..];
          assert Join(rest, [sep]) == rest[0] + [sep] + Join(rest[1..], [sep]);
        }
        assert s == [s[0]] + s[1..];
      }
    }
  }

  /** Python's `sep.join(parts)`. */
  function Join(parts: seq<string>, sep: string): string
  {
    if |parts| == 0 then []
    else if |parts| == 1 then parts[0]
    else parts[0] + sep + Join(parts[1..], sep)
  }

  /** Splitting `a + [sep] + b` at `sep`, when `a` holds no `sep`, cuts exactly after `a`. */
  lemma {:induction false} SplitAfter(a: string, sep: char, b: string)
    requires sep !in a
    ensures Split(a + [sep] + b, sep) == [a] + Split(b, sep)
  {
    if a == [] {
      assert (a + [sep] + b)[1..] == b;
    } else {
      assert (a + [sep] + b)[1..] == a[1..] + [sep] + b;
      SplitAfter(a[1..], sep, b);
      assert [a[0]] + a[1..] == a;
    }
  }

  /** A string with no `sep` is one piece. */
  lemma {:induction false} SplitNoSep(s: string, sep: char)
    requires sep !in s
    ensures Split(s, sep) == [s]
  {
    if s != [] {
      assert s[0] in s;
      SplitNoSep(s[1..], sep);
      assert [s[0]] + s[1..] == s;
    }
  }

  /** A leading character other than `sep` sticks to the first piece. */
  lemma SplitPrefixChar(c: char, sep: char, s: string)
    requires c != sep
    ensures Split([c] + s, sep) == [[c] + Split(s, sep)[0]] + Split(s, sep)[1..]
  {
    assert ([c] + s)[1..] == s;
  }

  /** `strip` applied to each piece. */
  function StripAll(ps: seq<string>): (r: seq<string>)
    ensures |r| == |ps|
  {
    if ps == [] then [] else [Strip(ps[0])] + StripAll(ps[1..])
  }

  /** Each piece is stripped on its own. */
  lemma {:induction false} StripAllAt(ps: seq<string>, k: int)
    requires 0 <= k < |ps|
    ensures StripAll(ps)[k] == Strip(ps[k])
  {
    if k > 0 {
      StripAllAt(ps[1..], k - 1);
    }
  }

  /** Every word is stripped and holds no ',': what a parsed environment list consists of. */
  predicate CommaFreeWords(ws: seq<string>) {
    forall k :: 0 <= k < |ws| ==> ',' !in ws[k] && Stripped(ws[k])
  }

  /**
    A non-empty list of stripped, comma-free words joined with ", " is recovered exactly
    by splitting at ',' and stripping each piece.
   */
  lemma {:induction false} JoinCommaSpaceRoundTrip(ws: seq<string>)
    requires |ws| >= 1
    requires CommaFreeWords(ws)
    ensures StripAll(Split(Join(ws, ", "), ',')) == ws
  {
    if |ws| == 1 {
      SplitNoSep(ws[0], ',');
      StripStripped(ws[0]);
    } else {
      JoinCommaSpaceRoundTrip(ws[1..]);
      JoinCommaSpaceGlue(ws);
    }
  }

  lemma JoinCommaSpaceGlue(ws: seq<string>)
    requires |ws| >= 2
    requires CommaFreeWords(ws)
    requires StripAll(Split(Join(ws[1..], ", "), ',')) == ws[1..]
    ensures StripAll(Split(Join(ws, ", "), ',')) == ws
  {
    assert ws == [ws[0]] + ws[1..];
    JoinCommaSpaceStep(ws[0], ws[1..]);
  }

  /** One word in front of a ", "-joined list adds exactly that word to the recovered list. */
  lemma JoinCommaSpaceStep(w: string, rest: seq<string>)
    requires |rest| >= 1
    requires ',' !in w && Stripped(w)
    ensures StripAll(Split(Join([w] + rest, ", "), ',')) == [w] + StripAll(Split(Join(rest, ", "), ','))
  {
    var tail := Join(rest, ", ");
    var ps := Split(tail, ',');
    calc {
      StripAll(Split(Join([w] + rest, ", "), ','));
      { JoinCommaSpaceHead(w, rest); }
      StripAll(Split(w + [','] + ([' '] + tail), ','));
      { SplitAfter(w, ',', [' '] + tail); }
      StripAll([w] + Split([' '] + tail, ','));
      { StripAllCons(w, Split([' '] + tail, ',')); StripStripped(w); }
      [w] + StripAll(Split([' '] + tail, ','));
      { SplitPrefixChar(' ', ',', tail); }
      [w] + StripAll([[' '] + ps[0]] + ps[1..]);
      { StripAllSpaced(ps); }
      [w] + StripAll(ps);
    }
  }

  lemma JoinCommaSpaceHead(w: string, rest: seq<string>)
    requires |rest| >= 1
    ensures Join([w] + rest, ", ") == w + [','] + ([' '] + Join(rest, ", "))
  {
    var parts, tail := [w] + rest, Join(rest, ", ");
    assert parts[1..] == rest;
    assert Join(parts, ", ") == w + ", " + tail;
    var a, b := w + ", " + tail, w + [','] + ([' '] + tail);
    assert |a| == |b|;
    forall i | 0 <= i < |a| ensures a[i] == b[i] {
      if i < |w| {
      } else if i < |w| + 2 {
      } else {
        assert a[i] == tail[i - |w| - 2];
      }
    }
  }

  lemma StripAllSpaced(ps: seq<string>)
    requires |ps| >= 1
    ensures StripAll([[' '] + ps[0]] + ps[1..]) == StripAll(ps)
  {
    StripAllLeadingSpace(ps[0], ps[1..]);
    assert [ps[0]] + ps[1..] == ps;
  }

  lemma StripAllCons(p: string, ps: seq<string>)
    ensures StripAll([p] + ps) == [Strip(p)] + StripAll(ps)
  {
    assert ([p] + ps)[1..] == ps;
  }

  /** A space in front of the first piece goes away when the pieces are stripped. */
  lemma StripAllLeadingSpace(p: string, q: seq<string>)
    ensures StripAll([[' '] + p] + q) == StripAll([p] + q)
  {
    StripAllCons([' '] + p, q);
    StripAllCons(p, q);
    StripLeadingSpace(' ', p);
  }

  /** Python's `s.startswith(p)`. */
  predicate StartsWith(s: string, p: string) {
    |p| <= |s| && s[..|p|] == p
  }

  /** `pat` occurs in `s` at position `i`. */
  predicate OccursAt(pat: string, s: string, i: int) {
    0 <= i <= |s| - |pat| && s[i..i + |pat|] == pat
  }

  /** `pat` occurs somewhere in `s`. */
  ghost predicate Occurs(pat: string, s: string) {
    exists i :: OccursAt(pat, s, i)
  }

  /** Python's `s.replace(pat, rep)`: every non-overlapping occurrence, scanned left to right. */
  function ReplaceAll(s: string, pat: string, rep: string): (r: string)
    requires |pat| > 0
    decreases |s|
  {
    if StartsWith(s, pat) then rep + ReplaceAll(s[|pat|..], pat, rep)
    else if s == [] then []
    else [s[0]] + ReplaceAll(s[1..], pat, rep)
  }

  /** A string in which `pat` does not occur is left as it is by `replace`. */
  lemma {:induction false} ReplaceAllAbsent(s: string, pat: string, rep: string)
    requires |pat| > 0
    requires !Occurs(pat, s)
    ensures ReplaceAll(s, pat, rep) == s
    decreases |s|
  {
    if StartsWith(s, pat) {
      assert OccursAt(pat, s, 0);
    } else if s != [] {
      forall i | OccursAt(pat, s[1..], i)
        ensures OccursAt(pat, s, i + 1)
      {
        assert s[1..][i..i + |pat|] == s[i + 1..i + 1 + |pat|];
      }
      ReplaceAllAbsent(s[1..], pat, rep);
    }
  }

  /** Python's `s.lower()` on ASCII letters; other characters are kept. */
  function Lower(s: string): (r: string)
    ensures |r| == |s|
    ensures forall i :: 0 <= i < |s| ==> r[i] == (if 'A' <= s[i] <= 'Z' then (s[i] as int + 32) as char else s[i])
  {
    if s == [] then []
    else [if 'A' <= s[0] <= 'Z' then (s[0] as int + 32) as char else s[0]] + Lower(s[1..])
  }

  /** Python's `s.replace(a, b)` for one-character `a` and `b`. */
  function ReplaceChar(s: string, a: char, b: char): (r: string)
    ensures |r| == |s|
    ensures forall i :: 0 <= i < |s| ==> r[i] == (if s[i] == a then b else s[i])
  {
    if s == [] then [] else [if s[0] == a then b else s[0]] + ReplaceChar(s[1..], a, b)
  }

  /** The position of the first `d` in `s`, or `|s|` when there is none. */
  function FirstIndexOf(s: string, d: char): (r: nat)
    ensures r <= |s|
  {
    if s == [] then 0 else if s[0] == d then 0 else 1 + FirstIndexOf(s[1..], d)
  }

  /** In `a + [d] + x` with no `d` in `a`, the first `d` stands right after `a`. */
  lemma {:induction false} FirstIndexAfter(a: string, d: char, x: string)
    requires d !in a
    ensures FirstIndexOf(a + [d] + x, d) == |a|
  {
    if a != [] {
      assert (a + [d] + x)[1..] == a[1..] + [d] + x;
      FirstIndexAfter(a[1..], d, x);
    }
  }

  /** A common prefix can be cancelled. */
  lemma DropCommonPrefix(p: string, s1: string, s2: string)
    requires p + s1 == p + s2
    ensures s1 == s2
  {
    assert s1 == (p + s1)[|p|..];
    assert s2 == (p + s2)[|p|..];
  }

  /** Strings cut at their first `d` agree on the head and on the rest. */
  lemma CutAtFirst(a: string, x: string, b: string, y: string, d: char)
    requires d !in a && d !in b
    requires a + [d] + x == b + [d] + y
    ensures a == b && x == y
  {
    var s := a + [d] + x;
    FirstIndexAfter(a, d, x);
    FirstIndexAfter(b, d, y);
    assert a == s[..|a|] == b;
    assert x == s[|a| + 1..] == y;
  }
}
