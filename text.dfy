/** String operations of JavaScript that the core relies on: `\s`, line
    terminators, `trim`, `indexOf`/`includes`, `split` on one character,
    `join`, and a global `replace` of a literal pattern by the empty string. */
module Text {
  import opened Base

  /** The characters JavaScript treats as line terminators: `.` never matches
      them, and a multiline `^` matches right after them. */
  predicate IsLineTerminator(c: char)
  {
    c == '\n' || c == '\r' || c == '\U{2028}' || c == '\U{2029}'
  }

  /** JavaScript's `\s`, which is also the set `String.prototype.trim` removes. */
  predicate IsSpace(c: char)
  {
    || c == '\t' || c == '\n' || c == '\U{000B}' || c == '\U{000C}' || c == '\r' || c == ' '
    || c == '\U{00A0}' || c == '\U{1680}' || ('\U{2000}' <= c <= '\U{200A}')
    || c == '\U{2028}' || c == '\U{2029}' || c == '\U{202F}' || c == '\U{205F}'
    || c == '\U{3000}' || c == '\U{FEFF}'
  }

  /** JavaScript's `\w` without the `u` flag. */
  predicate IsWordChar(c: char)
  {
    ('a' <= c <= 'z') || ('A' <= c <= 'Z') || ('0' <= c <= '9') || c == '_'
  }

  /** `p` occurs in `s` starting at index `i`. */
  predicate OccursAt(s: string, p: string, i: int)
  {
    0 <= i && i + |p| <= |s| && s[i..i + |p|] == p
  }

  predicate StartsWith(s: string, p: string)
  {
    |p| <= |s| && s[..|p|] == p
  }

  predicate EndsWith(s: string, p: string)
  {
    |p| <= |s| && s[|s| - |p|..] == p
  }

  /** `s.indexOf(p, from)`, with no result when `p` does not occur. */
  function IndexOfFrom(s: string, p: string, from: nat): (r: Option<nat>)
    requires from <= |s|
    ensures r.Some? ==> from <= r.value && OccursAt(s, p, r.value)
    ensures r.Some? ==> forall j :: from <= j < r.value ==> !OccursAt(s, p, j)
    ensures r.None? ==> forall j :: from <= j ==> !OccursAt(s, p, j)
    decreases |s| - from
  {
    if from + |p| > |s| then None
    else if s[from..from + |p|] == p then Some(from)
    else IndexOfFrom(s, p, from + 1)
  }

  function IndexOf(s: string, p: string): Option<nat>
  {
    IndexOfFrom(s, p, 0)
  }

  /** `s.includes(p)`. */
  predicate Contains(s: string, p: string)
  {
    IndexOf(s, p).Some?
  }

  /** `Contains` holds exactly when the pattern occurs somewhere. */
  lemma ContainsIffOccurs(s: string, p: string)
    ensures Contains(s, p) <==> exists i :: OccursAt(s, p, i)
  {
    if Contains(s, p) {
      assert OccursAt(s, p, IndexOf(s, p).value);
    }
  }

  /** Text found in a string is still found after something is put in
      front of it or after it. */
  lemma ContainsExtended(pre: string, s: string, post: string, p: string)
    requires Contains(s, p)
    ensures Contains(pre + s + post, p)
  {
    var i := IndexOf(s, p).value;
    assert (pre + s + post)[|pre| + i..|pre| + i + |p|] == s[i..i + |p|];
    assert OccursAt(pre + s + post, p, |pre| + i);
    ContainsIffOccurs(pre + s + post, p);
  }

  /** A piece placed between two strings occurs right after the first. */
  lemma OccursInMiddle(a: string, b: string, c: string)
    ensures OccursAt(a + b + c, b, |a|)
  {
    assert (a + b + c)[|a|..|a| + |b|] == b;
  }

  lemma StartsWithConcat(a: string, b: string)
    ensures StartsWith(a + b, a)
  {
    assert (a + b)[..|a|] == a;
  }

  /** `s.trimStart()`: removes leading whitespace only. */
  function TrimStart(s: string): (r: string)
    ensures |r| <= |s| && r == s[|s| - |r|..]
    ensures r != [] ==> !IsSpace(r[0])
    ensures forall i :: 0 <= i < |s| - |r| ==> IsSpace(s[i])
  {
    if s != [] && IsSpace(s[0]) then
      var r := TrimStart(s[1..]);
      assert s[1..][|s| - 1 - |r|..] == s[|s| - |r|..];
      r
    else s
  }

  /** `s.trimEnd()`: removes trailing whitespace only. */
  function TrimEnd(s: string): (r: string)
    ensures |r| <= |s| && r == s[..|r|]
    ensures r != [] ==> !IsSpace(r[|r| - 1])
    ensures forall i :: |r| <= i < |s| ==> IsSpace(s[i])
  {
    if s != [] && IsSpace(s[|s| - 1]) then TrimEnd(s[..|s| - 1]) else s
  }

  /** `s.trim()`: a contiguous piece of `s` that neither starts nor ends with
      whitespace, empty exactly when `s` is all whitespace. */
  function Trim(s: string): (r: string)
    ensures |r| <= |s|
    ensures exists k :: OccursAt(s, r, k)
    ensures r != [] ==> !IsSpace(r[0]) && !IsSpace(r[|r| - 1])
    ensures r == [] <==> forall i :: 0 <= i < |s| ==> IsSpace(s[i])
  {
    TrimPiece(s);
    TrimEmpty(s);
    TrimEnd(TrimStart(s))
  }

  /** The trimmed text is the piece of `s` after its leading whitespace. */
  lemma TrimPiece(s: string)
    ensures OccursAt(s, TrimEnd(TrimStart(s)), |s| - |TrimStart(s)|)
  {
    PrefixOfSuffix(s, TrimStart(s), TrimEnd(TrimStart(s)));
  }

  /** A prefix of a suffix of `s` occurs in `s` where the suffix starts. */
  lemma PrefixOfSuffix(s: string, tail: string, r: string)
    requires |tail| <= |s| && tail == s[|s| - |tail|..]
    requires |r| <= |tail| && r == tail[..|r|]
    ensures OccursAt(s, r, |s| - |tail|)
  {
    assert s[|s| - |tail|..][..|r|] == s[|s| - |tail|..|s| - |tail| + |r|];
  }

  /** Only an all-whitespace string trims to "". */
  lemma TrimEmpty(s: string)
    ensures TrimEnd(TrimStart(s)) == [] ==> forall i :: 0 <= i < |s| ==> IsSpace(s[i])
  {
    if TrimEnd(TrimStart(s)) == [] {
      assert TrimStart(s) == [];
    }
  }

  /** Every character of `s` is whitespace (vacuously so for ""). */
  predicate AllSpace(s: string)
  {
    s == [] || (IsSpace(s[0]) && AllSpace(s[1..]))
  }

  /** `s.trim()` is empty exactly when `s` is all whitespace. */
  lemma {:induction false} TrimEmptyIffAllSpace(s: string)
    ensures Trim(s) == [] <==> AllSpace(s)
  {
    AllSpaceChars(s);
  }

  lemma {:induction false} AllSpaceChars(s: string)
    ensures AllSpace(s) <==> forall i :: 0 <= i < |s| ==> IsSpace(s[i])
  {
    if s != [] {
      AllSpaceChars(s[1..]);
      assert forall i :: 1 <= i < |s| ==> s[1..][i - 1] == s[i];
    }
  }

  /** A string without whitespace at either end is its own trim. */
  lemma TrimOfTrimmed(s: string)
    requires s != [] ==> !IsSpace(s[0]) && !IsSpace(s[|s| - 1])
    ensures Trim(s) == s
  {
  }

  /** `s.split(sep)` for a one-character separator: the pieces between
      separators, in order, empty pieces included. */
  function Split(s: string, sep: char): (r: seq<string>)
    ensures |r| >= 1
    ensures forall i :: 0 <= i < |r| ==> sep !in r[i]
  {
    if s == [] then [[]]
    else
      var rest := Split(s[1..], sep);
      if s[0] == sep then [[]] + rest
      else [[s[0]] + rest[0]] + rest[1..]
  }

  /** `ws.join(sep)`. */
  function Join(ws: seq<string>, sep: char): string
    requires |ws| >= 1
  {
    if |ws| == 1 then ws[0] else ws[0] + [sep] + Join(ws[1..], sep)
  }

  /** Joining the pieces of a split gives back the original string. */
  lemma {:induction false} JoinSplit(s: string, sep: char)
    ensures Join(Split(s, sep), sep) == s
  {
    if s != [] {
      var rest := Split(s[1..], sep);
      JoinSplit(s[1..], sep);
      if s[0] == sep {
        assert Split(s, sep) == [[]] + rest;
        assert ([[]] + rest)[1..] == rest;
      } else {
        var r := Split(s, sep);
        assert r == [[s[0]] + rest[0]] + rest[1..];
        if |rest| == 1 {
          assert r == [[s[0]] + rest[0]];
        } else {
          assert r[1..] == rest[1..];
          assert Join(rest, sep) == rest[0] + [sep] + Join(rest[1..], sep);
        }
        assert s == [s[0]] + s[1..];
      }
    }
  }

  /** Joining splits at any boundary between pieces. */
  lemma {:induction false} JoinAt(ws: seq<string>, sep: char, k: nat)
    requires 1 <= k < |ws|
    ensures Join(ws, sep) == Join(ws[..k], sep) + [sep] + Join(ws[k..], sep)
  {
    if k > 1 {
      JoinAt(ws[1..], sep, k - 1);
      assert ws[1..][..k - 1] == ws[..k][1..];
      assert ws[1..][k - 1..] == ws[k..];
    }
  }

  /** `s.replace(/p/g, "")` for a literal pattern: occurrences are removed
      left to right, scanning resumes after each removed occurrence. */
  function RemoveAll(s: string, p: string): (r: string)
    requires |p| > 0
    ensures |r| <= |s|
    decreases |s|
  {
    if s == [] then []
    else if OccursAt(s, p, 0) then RemoveAll(s[|p|..], p)
    else [s[0]] + RemoveAll(s[1..], p)
  }

  /** Removing a one-character pattern removes every copy of that character. */
  lemma {:induction false} RemoveAllChar(s: string, c: char)
    ensures c !in RemoveAll(s, [c])
    ensures forall x :: x in RemoveAll(s, [c]) ==> x in s
  {
    if s != [] {
      RemoveAllChar(s[1..], c);
      if !OccursAt(s, [c], 0) {
        assert s[0..1] == [s[0]];
      }
    }
  }

  /** Removal never adds characters: whatever the result holds, the input held. */
  lemma {:induction false} RemoveAllKeeps(s: string, p: string)
    requires |p| > 0
    ensures forall x :: x in RemoveAll(s, p) ==> x in s
  {
    if s != [] {
      if OccursAt(s, p, 0) {
        RemoveAllKeeps(s[|p|..], p);
      } else {
        RemoveAllKeeps(s[1..], p);
      }
    }
  }

  /** After `replace(/---/g, "")` no run of three dashes is left: a dash that
      survives is never directly followed by a removed run, so surviving
      dashes are adjacent in the input too. */
  lemma {:induction false} RemoveDashesLeavesNone(s: string)
    ensures forall i :: !OccursAt(RemoveAll(s, "---"), "---", i)
  {
    if s != [] {
      if OccursAt(s, "---", 0) {
        RemoveDashesLeavesNone(s[3..]);
      } else {
        RemoveDashesLeavesNone(s[1..]);
        if s[0] == '-' {
          DashesAfterDash(s);
        }
        assert RemoveAll(s, "---") == [s[0]] + RemoveAll(s[1..], "---");
        PrependNoRun(s[0], RemoveAll(s[1..], "---"), "---");
      }
    }
  }

  /** A character put in front of text without three dashes in a row
      creates no such run, unless it is a dash before two dashes. */
  lemma PrependNoRun(c: char, rest: string, p: string)
    requires p == "---"
    requires forall i :: !OccursAt(rest, p, i)
    requires c == '-' ==> !(|rest| >= 2 && rest[0] == '-' && rest[1] == '-')
    ensures forall i :: !OccursAt([c] + rest, p, i)
  {
    var r := [c] + rest;
    forall i ensures !OccursAt(r, p, i) {
      if i >= 1 && i + 3 <= |r| {
        assert r[i..i + 3] == rest[i - 1..i + 2];
        assert !OccursAt(rest, p, i - 1);
      } else if i == 0 && 3 <= |r| {
        assert r[0..3][0] == c && r[0..3][1] == rest[0] && r[0..3][2] == rest[1];
      }
    }
  }

  /** Helper: when `s` starts with a dash but not with three, the result of
      removing the runs from `s[1..]` does not start with two dashes. */
  lemma DashesAfterDash(s: string)
    requires |s| >= 1 && s[0] == '-' && !OccursAt(s, "---", 0)
    ensures var rest := RemoveAll(s[1..], "---"); !(|rest| >= 2 && rest[0] == '-' && rest[1] == '-')
  {
    var t := s[1..];
    if |s| >= 3 {
      assert s[0..3] == [s[0], s[1], s[2]];
      if s[1] != '-' {
        assert !OccursAt(t, "---", 0) by { assert t[0] == s[1]; }
        assert RemoveAll(t, "---") == [t[0]] + RemoveAll(t[1..], "---");
      } else {
        assert s[2] != '-';
        var u := t[1..];
        assert u[0] == s[2];
        assert !OccursAt(t, "---", 0) by { assert t[1] == s[2]; }
        assert RemoveAll(t, "---") == [t[0]] + RemoveAll(u, "---");
        assert !OccursAt(u, "---", 0);
        assert RemoveAll(u, "---") == [u[0]] + RemoveAll(u[1..], "---");
      }
    }
  }
}
