/** The few Python string operations the client relies on: `str.split` with a limit,
    `str.join`, `str.strip`, `readline` on a text file, and `sorted` over strings. */
module Strings {
  import opened Common

  /** Position of the first occurrence of `c` in `s` (its properties: `IndexOfFirst`). */
  function IndexOf(s: string, c: char): (r: Option<nat>)
    ensures r.Some? ==> r.value < |s| && s[r.value] == c
  {
    if |s| == 0 then None
    else if s[0] == c then Some(0)
    else
      match IndexOf(s[1..], c)
      case None => None
      case Some(i) => Some(i + 1)
  }

  /** `IndexOf` finds a character exactly when it occurs, and finds its first occurrence. */
  lemma {:induction false} IndexOfFirst(s: string, c: char)
    ensures IndexOf(s, c).None? <==> c !in s
    ensures IndexOf(s, c).Some? ==> c !in s[..IndexOf(s, c).value]
  {
    if |s| > 0 && s[0] != c {
      IndexOfFirst(s[1..], c);
      assert c in s <==> c in s[1..];
      if IndexOf(s, c).Some? {
        var i := IndexOf(s[1..], c).value;
        assert s[..i + 1] == [s[0]] + s[1..][..i];
      }
    }
  }

  /** The first occurrence of `c` after a prefix free of `c` is at the end of that prefix. */
  lemma {:induction false} IndexOfAfter(prefix: string, c: char, rest: string)
    requires c !in prefix
    ensures IndexOf(prefix + [c] + rest, c) == Some(|prefix|)
  {
    if |prefix| > 0 {
      assert (prefix + [c] + rest)[1..] == prefix[1..] + [c] + rest;
      IndexOfAfter(prefix[1..], c, rest);
    }
  }

  /** Python's `s.split(sep, maxsplit)` for a one-character separator: at most `maxsplit`
      splits, taken from the left. */
  function Split(s: string, sep: char, maxsplit: nat): (parts: seq<string>)
    ensures 1 <= |parts| <= maxsplit + 1
    decreases maxsplit
  {
    if maxsplit == 0 then [s]
    else
      match IndexOf(s, sep)
      case None => [s]
      case Some(i) => [s[..i]] + Split(s[i + 1..], sep, maxsplit - 1)
  }

  /** Only the last piece of a split may hold the separator, and it does only when the
      limit stopped the splitting; there is a single piece exactly when nothing was split. */
  lemma {:induction false} SplitPieces(s: string, sep: char, maxsplit: nat)
    ensures var parts := Split(s, sep, maxsplit);
      && (|parts| == 1 <==> maxsplit == 0 || sep !in s)
      && (forall i :: 0 <= i < |parts| - 1 ==> sep !in parts[i])
      && (|parts| <= maxsplit ==> sep !in parts[|parts| - 1])
    decreases maxsplit
  {
    IndexOfFirst(s, sep);
    if maxsplit > 0 && sep in s {
      var i := IndexOf(s, sep).value;
      var rest := Split(s[i + 1..], sep, maxsplit - 1);
      SplitPieces(s[i + 1..], sep, maxsplit - 1);
      assert Split(s, sep, maxsplit) == [s[..i]] + rest;
    }
  }

  /** Python's `sep.join(parts)`. */
  function Join(parts: seq<string>, sep: string): string
  {
    if |parts| == 0 then ""
    else if |parts| == 1 then parts[0]
    else parts[0] + sep + Join(parts[1..], sep)
  }

  /** Joining a nonempty tail after a first piece puts one separator between them. */
  lemma JoinCons(first: string, rest: seq<string>, sep: string)
    requires rest != []
    ensures Join([first] + rest, sep) == first + sep + Join(rest, sep)
  {
    assert ([first] + rest)[1..] == rest;
  }

  /** A string is what comes before position `i`, the character at `i`, and what follows. */
  lemma Around(s: string, i: nat)
    requires i < |s|
    ensures s == s[..i] + [s[i]] + s[i + 1..]
  {
  }

  /** Joining the pieces of a split with the separator gives back the original string. */
  lemma {:induction false} JoinSplit(s: string, sep: char, maxsplit: nat)
    ensures Join(Split(s, sep, maxsplit), [sep]) == s
    decreases maxsplit
  {
    if maxsplit > 0 && IndexOf(s, sep).Some? {
      var i := IndexOf(s, sep).value;
      var head, tail := s[..i], s[i + 1..];
      var rest := Split(tail, sep, maxsplit - 1);
      assert Split(s, sep, maxsplit) == [head] + rest;
      assert Join(rest, [sep]) == tail by {
        JoinSplit(tail, sep, maxsplit - 1);
      }
      assert Join([head] + rest, [sep]) == head + [sep] + tail by {
        JoinCons(head, rest, [sep]);
      }
      Around(s, i);
    }
  }

  /** Splitting `a + sep + b` where `a` has no separator: `a` comes first, then the pieces of `b`. */
  lemma SplitAfter(a: string, sep: char, b: string, maxsplit: nat)
    requires sep !in a && maxsplit > 0
    ensures Split(a + [sep] + b, sep, maxsplit) == [a] + Split(b, sep, maxsplit - 1)
  {
    var s := a + [sep] + b;
    IndexOfAfter(a, sep, b);
    assert s[..|a|] == a;
    assert s[|a| + 1..] == b;
  }

  /** Splitting a join of separator-free pieces, with room for every split, gives the
      pieces back. */
  lemma {:induction false} SplitJoin(parts: seq<string>, sep: char, maxsplit: nat)
    requires parts != [] && |parts| <= maxsplit + 1
    requires forall i :: 0 <= i < |parts| ==> sep !in parts[i]
    ensures Split(Join(parts, [sep]), sep, maxsplit) == parts
    decreases |parts|
  {
    if |parts| == 1 {
      SplitPieces(parts[0], sep, maxsplit);
    } else {
      var rest := parts[1..];
      var tail := Join(rest, [sep]);
      assert Split(tail, sep, maxsplit - 1) == rest by {
        assert forall i :: 0 <= i < |rest| ==> rest[i] == parts[i + 1];
        SplitJoin(rest, sep, maxsplit - 1);
      }
      assert Join(parts, [sep]) == parts[0] + [sep] + tail by {
        assert [parts[0]] + rest == parts;
        JoinCons(parts[0], rest, [sep]);
      }
      assert sep !in parts[0];
      SplitAfter(parts[0], sep, tail, maxsplit);
      assert [parts[0]] + rest == parts;
    }
  }

  /** The characters Python's `str.isspace` accepts. */
  predicate IsSpace(c: char)
  {
    c == ' ' || c == '\t' || c == '\n' || c == '\r' || c == '\U{B}' || c == '\U{C}'
    || ('\U{1C}' <= c <= '\U{1F}') || c == '\U{85}' || c == '\U{A0}' || c == '\U{1680}'
    || ('\U{2000}' <= c <= '\U{200A}') || c == '\U{2028}' || c == '\U{2029}' || c == '\U{202F}'
    || c == '\U{205F}' || c == '\U{3000}'
  }

  /** Every character of `s` is whitespace. */
  predicate AllSpace(s: string)
  {
    forall i :: 0 <= i < |s| ==> IsSpace(s[i])
  }

  /** `s` with its leading whitespace removed. */
  function TrimStart(s: string): (r: string)
    ensures |r| <= |s| && r == s[|s| - |r|..]
    ensures AllSpace(s[..|s| - |r|])
    ensures r != [] ==> !IsSpace(r[0])
  {
    if |s| > 0 && IsSpace(s[0]) then
      var r := TrimStart(s[1..]);
      assert s[..|s| - |r|] == [s[0]] + s[1..][..|s| - 1 - |r|];
      r
    else s
  }

  /** `s` with its trailing whitespace removed. */
  function TrimEnd(s: string): (r: string)
    ensures |r| <= |s| && r == s[..|r|]
    ensures AllSpace(s[|r|..])
    ensures r != [] ==> !IsSpace(r[|r| - 1])
  {
    if |s| > 0 && IsSpace(s[|s| - 1]) then
      var r := TrimEnd(s[..|s| - 1]);
      assert s[|r|..] == s[..|s| - 1][|r|..] + [s[|s| - 1]];
      r
    else s
  }

  /** `r` is the part of `s` from position `i` on, and everything around it is whitespace. */
  ghost predicate CoreAt(s: string, r: string, i: int)
  {
    0 <= i <= |s| - |r| && r == s[i..i + |r|] && AllSpace(s[..i]) && AllSpace(s[i + |r|..])
  }

  /** Whitespace cut from the front of `s`, leaving `t`, and from the back of `t`, leaving
      `r`: then `r` is a slice of `s` with only whitespace around it. */
  lemma CoreOfTrims(s: string, t: string, r: string)
    requires |t| <= |s| && t == s[|s| - |t|..] && AllSpace(s[..|s| - |t|])
    requires |r| <= |t| && r == t[..|r|] && AllSpace(t[|r|..])
    ensures CoreAt(s, r, |s| - |t|)
  {
    var i := |s| - |t|;
    assert r == s[i..i + |r|];
    assert s[i + |r|..] == t[|r|..];
  }

  /** Trimming both ends keeps a contiguous part of `s` with only whitespace around it. */
  lemma TrimmedCore(s: string)
    ensures CoreAt(s, TrimEnd(TrimStart(s)), |s| - |TrimStart(s)|)
  {
    CoreOfTrims(s, TrimStart(s), TrimEnd(TrimStart(s)));
  }

  /** Python's `s.strip()`: whitespace removed at both ends, nothing else touched. */
  function Strip(s: string): (r: string)
    ensures r != [] ==> !IsSpace(r[0]) && !IsSpace(r[|r| - 1])
    ensures exists i :: CoreAt(s, r, i)
  {
    TrimmedCore(s);
    TrimEnd(TrimStart(s))
  }

  /** A string with no whitespace at either end is its own strip. */
  lemma StripUnpadded(s: string)
    requires s != [] ==> !IsSpace(s[0]) && !IsSpace(s[|s| - 1])
    ensures Strip(s) == s
  {
  }

  /** Stripping twice is stripping once. */
  lemma StripIdempotent(s: string)
    ensures Strip(Strip(s)) == Strip(s)
  {
    StripUnpadded(Strip(s));
  }

  /** Trailing whitespace, a newline in particular, does not change the strip. */
  lemma {:induction false} StripTrailingSpace(s: string, c: char)
    requires IsSpace(c)
    ensures Strip(s + [c]) == Strip(s)
  {
    if |s| > 0 && IsSpace(s[0]) {
      assert (s + [c])[1..] == s[1..] + [c];
      StripTrailingSpace(s[1..], c);
    } else if |s| == 0 {
      assert TrimStart([c]) == TrimStart([c][1..]);
    } else {
      assert TrimStart(s + [c]) == s + [c];
      assert (s + [c])[..|s|] == s;
    }
  }

  /** What `readline()` returns on a file holding `contents`: everything up to and
      including the first newline, or everything when there is none. */
  function FirstLine(contents: string): (line: string)
    ensures line <= contents
    ensures '\n' in contents ==> line != [] && line[|line| - 1] == '\n' && '\n' !in line[..|line| - 1]
    ensures '\n' !in contents ==> line == contents
  {
    IndexOfFirst(contents, '\n');
    match IndexOf(contents, '\n')
    case None => contents
    case Some(i) =>
      assert contents[..i + 1][..i] == contents[..i];
      contents[..i + 1]
  }

  /** A single line ending in a newline reads back whole. */
  lemma FirstLineOfLine(line: string)
    requires '\n' !in line
    ensures FirstLine(line + "\n") == line + "\n"
  {
    IndexOfAfter(line, '\n', "");
    assert line + "\n" == line + ['\n'] + "";
  }

  /** Python's `<=` on `str`: lexicographic by code point, a proper prefix first. */
  predicate LessEq(a: string, b: string)
  {
    |a| == 0 || (|b| > 0 && (a[0] < b[0] || (a[0] == b[0] && LessEq(a[1..], b[1..]))))
  }

  lemma {:induction false} LessEqReflexive(a: string)
    ensures LessEq(a, a)
  {
    if |a| > 0 {
      LessEqReflexive(a[1..]);
    }
  }

  lemma {:induction false} LessEqTotal(a: string, b: string)
    ensures LessEq(a, b) || LessEq(b, a)
  {
    if |a| > 0 && |b| > 0 && a[0] == b[0] {
      LessEqTotal(a[1..], b[1..]);
    }
  }

  lemma {:induction false} LessEqAntisymmetric(a: string, b: string)
    requires LessEq(a, b) && LessEq(b, a)
    ensures a == b
  {
    if |a| > 0 && |b| > 0 {
      LessEqAntisymmetric(a[1..], b[1..]);
      assert a == [a[0]] + a[1..] && b == [b[0]] + b[1..];
    }
  }

  lemma {:induction false} LessEqTransitive(a: string, b: string, c: string)
    requires LessEq(a, b) && LessEq(b, c)
    ensures LessEq(a, c)
  {
    if |a| > 0 && a[0] == b[0] && b[0] == c[0] {
      LessEqTransitive(a[1..], b[1..], c[1..]);
    }
  }

  predicate IsLeast(m: string, s: set<string>)
  {
    m in s && forall x :: x in s ==> LessEq(m, x)
  }

  /** A finite nonempty set of strings has a least element. */
  lemma {:induction false} LeastExists(s: set<string>)
    requires s != {}
    ensures exists m :: IsLeast(m, s)
    decreases s
  {
    var x :| x in s;
    if s == {x} {
      LessEqReflexive(x);
      assert IsLeast(x, s);
    } else {
      LeastExists(s - {x});
      var m :| IsLeast(m, s - {x});
      LessEqTotal(m, x);
      if LessEq(m, x) {
        assert IsLeast(m, s);
      } else {
        forall y | y in s ensures LessEq(x, y) {
          if y == x {
            LessEqReflexive(x);
          } else {
            LessEqTransitive(x, m, y);
          }
        }
        assert IsLeast(x, s);
      }
    }
  }

  /** Strictly ascending: each element before every later one, and no two equal. */
  predicate StrictlyAscending(r: seq<string>)
  {
    forall i, j :: 0 <= i < j < |r| ==> LessEq(r[i], r[j]) && r[i] != r[j]
  }

  /** The least element of `s` put before an ascending listing of the rest of `s` lists `s`
      in ascending order. */
  lemma LeastFirst(m: string, s: set<string>, rest: seq<string>)
    requires IsLeast(m, s)
    requires |rest| == |s - {m}| && (forall x :: x in rest <==> x in s - {m}) && StrictlyAscending(rest)
    ensures |[m] + rest| == |s| && (forall x :: x in [m] + rest <==> x in s)
    ensures StrictlyAscending([m] + rest)
  {
    var r := [m] + rest;
    forall i, j | 0 <= i < j < |r| ensures LessEq(r[i], r[j]) && r[i] != r[j] {
      if i == 0 {
        assert r[j] == rest[j - 1] && rest[j - 1] in rest;
      } else {
        assert r[i] == rest[i - 1] && r[j] == rest[j - 1];
      }
    }
  }

  /** A set has at most one least element. */
  lemma LeastUnique(s: set<string>)
    ensures forall a, b :: IsLeast(a, s) && IsLeast(b, s) ==> a == b
  {
    forall a, b | IsLeast(a, s) && IsLeast(b, s) ensures a == b {
      LessEqAntisymmetric(a, b);
    }
  }

  /** Python's `sorted(keys)` on a set of distinct strings: every element once, ascending. */
  function SortedSet(s: set<string>): (r: seq<string>)
    ensures |r| == |s|
    ensures forall x :: x in r <==> x in s
    ensures StrictlyAscending(r)
    decreases s
  {
    if s == {} then []
    else
      LeastExists(s);
      LeastUnique(s);
      var m :| IsLeast(m, s);
      var rest := SortedSet(s - {m});
      LeastFirst(m, s, rest);
      [m] + rest
  }
}
