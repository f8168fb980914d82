/** The .NET string operations the core relies on, for single-character separators
    and patterns, all with ordinal comparison. */
module Text {

  /** String.Contains(p): p occurs somewhere in s. */
  predicate Contains(s: string, p: string)
    decreases |s|
  {
    p <= s || (|s| > 0 && Contains(s[1..], p))
  }

  /** String.EndsWith(suffix). */
  predicate EndsWith(s: string, suffix: string)
  {
    |suffix| <= |s| && s[|s| - |suffix|..] == suffix
  }

  /** The number of occurrences of the character c in s. */
  function Count(s: string, c: char): nat
  {
    if s == [] then 0 else (if s[0] == c then 1 else 0) + Count(s[1..], c)
  }

  /** Char.ToLowerInvariant on the ASCII letters; every other character is kept. */
  function LowerChar(c: char): char
  {
    if 'A' <= c <= 'Z' then (c as int + 32) as char else c
  }

  /** The lower-case form of s, letter by letter. */
  function Lower(s: string): (r: string)
    ensures |r| == |s|
    ensures forall i :: 0 <= i < |s| ==> r[i] == LowerChar(s[i])
  {
    if s == [] then [] else [LowerChar(s[0])] + Lower(s[1..])
  }

  /** Lower-casing twice changes nothing. */
  lemma LowerIdempotent(s: string)
    ensures Lower(Lower(s)) == Lower(s)
  {
  }

  /** A string without capital letters is its own lower-case form. */
  lemma LowerOfLowerCase(s: string)
    requires forall i :: 0 <= i < |s| ==> !('A' <= s[i] <= 'Z')
    ensures Lower(s) == s
  {
  }

  /** String.Replace(old, r) where old is the one-character string [d]. */
  function ReplaceChar(s: string, d: char, r: string): string
  {
    if s == [] then [] else (if s[0] == d then r else [s[0]]) + ReplaceChar(s[1..], d, r)
  }

  /** String.Split(d) with default options: the pieces between the occurrences of d,
      empty pieces included. */
  function Split(s: string, d: char): (parts: seq<string>)
    ensures |parts| == Count(s, d) + 1
    ensures forall i :: 0 <= i < |parts| ==> d !in parts[i]
  {
    if s == [] then [[]]
    else
      var rest := Split(s[1..], d);
      if s[0] == d then [[]] + rest
      else [[s[0]] + rest[0]] + rest[1..]
  }

  /** String.Join(sep, parts). */
  function Join(sep: string, parts: seq<string>): string
  {
    if parts == [] then []
    else if |parts| == 1 then parts[0]
    else parts[0] + sep + Join(sep, parts[1..])
  }

  /** Char.IsWhiteSpace: the characters of Unicode's White_Space property. */
  predicate IsWhiteSpace(c: char)
  {
    ('\U{9}' <= c <= '\U{D}') || c == '\U{20}' || c == '\U{85}' || c == '\U{A0}'
    || c == '\U{1680}' || ('\U{2000}' <= c <= '\U{200A}') || c == '\U{2028}' || c == '\U{2029}'
    || c == '\U{202F}' || c == '\U{205F}' || c == '\U{3000}'
  }

  /** String.TrimStart(): s without its leading white space. */
  function TrimStart(s: string): (r: string)
    ensures |r| <= |s| && r == s[|s| - |r|..]
    ensures forall i :: 0 <= i < |s| - |r| ==> IsWhiteSpace(s[i])
    ensures r == [] || !IsWhiteSpace(r[0])
  {
    if s != [] && IsWhiteSpace(s[0]) then TrimStart(s[1..]) else s
  }

  /** String.TrimEnd(): s without its trailing white space. */
  function TrimEnd(s: string): (r: string)
    ensures |r| <= |s| && r == s[..|r|]
    ensures forall i :: |r| <= i < |s| ==> IsWhiteSpace(s[i])
    ensures r == [] || !IsWhiteSpace(r[|r| - 1])
  {
    if s != [] && IsWhiteSpace(s[|s| - 1]) then TrimEnd(s[..|s| - 1]) else s
  }

  /** String.Trim(). */
  function Trim(s: string): string
  {
    TrimEnd(TrimStart(s))
  }

  // ---------------------------------------------------------------------------
  // Lemmas

  lemma {:induction false} ContainsOnlyShorter(s: string, p: string)
    requires Contains(s, p)
    ensures |p| <= |s|
    decreases |s|
  {
    if !(p <= s) {
      ContainsOnlyShorter(s[1..], p);
    }
  }

  lemma {:induction false} ContainsInfix(a: string, p: string, b: string)
    ensures Contains(a + p + b, p)
    decreases |a|
  {
    if a == [] {
      assert a + p + b == p + b;
      assert p <= p + b;
    } else {
      assert (a + p + b)[1..] == a[1..] + p + b;
      ContainsInfix(a[1..], p, b);
    }
  }

  lemma {:induction false} ReplaceCharAppend(a: string, b: string, d: char, r: string)
    ensures ReplaceChar(a + b, d, r) == ReplaceChar(a, d, r) + ReplaceChar(b, d, r)
    decreases |a|
  {
    if a == [] {
      assert a + b == b;
    } else {
      assert (a + b)[1..] == a[1..] + b;
      ReplaceCharAppend(a[1..], b, d, r);
    }
  }

  lemma {:induction false} ReplaceCharAbsent(s: string, d: char, r: string)
    requires d !in s
    ensures ReplaceChar(s, d, r) == s
    decreases |s|
  {
    if s != [] {
      ReplaceCharAbsent(s[1..], d, r);
    }
  }

  /** Replacing a character by a single character is an index-wise map. */
  lemma {:induction false} ReplaceCharByChar(s: string, d: char, e: char)
    ensures |ReplaceChar(s, d, [e])| == |s|
    ensures forall i :: 0 <= i < |s| ==> ReplaceChar(s, d, [e])[i] == if s[i] == d then e else s[i]
    decreases |s|
  {
    if s != [] {
      ReplaceCharByChar(s[1..], d, e);
      var t := ReplaceChar(s, d, [e]);
      assert t == [if s[0] == d then e else s[0]] + ReplaceChar(s[1..], d, [e]);
      forall i | 0 < i < |s| ensures t[i] == if s[i] == d then e else s[i] {
        assert t[i] == ReplaceChar(s[1..], d, [e])[i - 1];
        assert s[i] == s[1..][i - 1];
      }
    }
  }

  lemma JoinCons(sep: string, a: string, rest: seq<string>)
    requires rest != []
    ensures Join(sep, [a] + rest) == a + sep + Join(sep, rest)
  {
    assert ([a] + rest)[1..] == rest;
  }

  /** Joining the pieces of a split with sep replaces each separator by sep. */
  lemma {:induction false} JoinSplit(s: string, d: char, sep: string)
    ensures Join(sep, Split(s, d)) == ReplaceChar(s, d, sep)
    decreases |s|
  {
    if s != [] {
      var rest := Split(s[1..], d);
      var tail := ReplaceChar(s[1..], d, sep);
      JoinSplit(s[1..], d, sep);
      if s[0] == d {
        JoinCons(sep, [], rest);
        assert [] + sep + tail == sep + tail;
      } else if |rest| == 1 {
        assert Join(sep, rest) == rest[0];
      } else {
        var r0 := rest[0];
        var j := Join(sep, rest[1..]);
        JoinCons(sep, [s[0]] + r0, rest[1..]);
        JoinCons(sep, r0, rest[1..]);
        assert [r0] + rest[1..] == rest;
        assert ([s[0]] + r0) + sep + j == [s[0]] + (r0 + sep + j);
      }
    }
  }

  lemma {:induction false} SplitWithoutSeparator(x: string, d: char)
    requires d !in x
    ensures Split(x, d) == [x]
    decreases |x|
  {
    if x != [] {
      SplitWithoutSeparator(x[1..], d);
      assert [x[0]] + x[1..] == x;
    }
  }

  lemma {:induction false} SplitAtFirstSeparator(x: string, y: string, d: char)
    requires d !in x
    ensures Split(x + [d] + y, d) == [x] + Split(y, d)
    decreases |x|
  {
    var s := x + [d] + y;
    if x == [] {
      assert s[1..] == y;
    } else {
      assert s[1..] == x[1..] + [d] + y;
      SplitAtFirstSeparator(x[1..], y, d);
      assert [x[0]] + x[1..] == x;
    }
  }

  /** Splitting a join on a one-character separator that occurs in none of the non-empty
      list of pieces gives the pieces back. */
  lemma {:induction false} SplitJoin(parts: seq<string>, d: char)
    requires |parts| > 0
    requires forall i :: 0 <= i < |parts| ==> d !in parts[i]
    ensures Split(Join([d], parts), d) == parts
    decreases |parts|
  {
    if |parts| == 1 {
      SplitWithoutSeparator(parts[0], d);
    } else {
      SplitJoin(parts[1..], d);
      SplitAtFirstSeparator(parts[0], Join([d], parts[1..]), d);
      assert [parts[0]] + parts[1..] == parts;
    }
  }

  /** What Trim leaves has no white space at either end. */
  lemma TrimEnds(s: string)
    ensures Trim(s) == [] || (!IsWhiteSpace(Trim(s)[0]) && !IsWhiteSpace(Trim(s)[|Trim(s)| - 1]))
  {
    var a := TrimStart(s);
    var r := TrimEnd(a);
    if r != [] {
      assert r[0] == a[0];
    }
  }

  lemma TrimIdempotent(s: string)
    ensures Trim(Trim(s)) == Trim(s)
  {
    var r := Trim(s);
    TrimEnds(s);
    if r != [] {
      assert !IsWhiteSpace(r[0]);
      assert TrimStart(r) == r;
      assert TrimEnd(r) == r;
    }
  }
}
