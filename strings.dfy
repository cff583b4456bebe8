/** The JavaScript string operations the core relies on: `split` on a
    one-character separator, `substring(0, n)` and `toLowerCase`. */
module Strings {

  /** Number of occurrences of `c` in `s`. */
  function Count(s: string, c: char): nat
  {
    if s == [] then 0 else (if s[0] == c then 1 else 0) + Count(s[1..], c)
  }

  /** `s.split(c)`: the maximal runs of `s` between occurrences of `c`,
      including empty runs; there is always at least one field. */
  function Split(s: string, c: char): (fields: seq<string>)
    ensures |fields| == Count(s, c) + 1
    ensures forall i :: 0 <= i < |fields| ==> c !in fields[i]
  {
    if s == [] then [""]
    else
      var rest := Split(s[1..], c);
      if s[0] == c then [""] + rest
      else [[s[0]] + rest[0]] + rest[1..]
  }

  /** `fields.join(c)`, the inverse of `Split`. */
  function Join(fields: seq<string>, c: char): string
    requires |fields| >= 1
  {
    if |fields| == 1 then fields[0] else fields[0] + [c] + Join(fields[1..], c)
  }

  /** Joining the fields of a split gives back the string. */
  lemma {:induction false} JoinSplit(s: string, c: char)
    ensures Join(Split(s, c), c) == s
  {
    if s != [] {
      var rest := Split(s[1..], c);
      JoinSplit(s[1..], c);
      if s[0] != c {
        if |rest| == 1 {
          assert s == [s[0]] + s[1..];
        } else {
          assert Join(rest, c) == rest[0] + [c] + Join(rest[1..], c);
          assert s == [s[0]] + s[1..];
        }
      } else {
        assert s == [c] + s[1..];
      }
    }
  }

  /** Splitting a join of separator-free fields gives back the fields. */
  lemma {:induction false} SplitJoin(fields: seq<string>, c: char)
    requires |fields| >= 1
    requires forall i :: 0 <= i < |fields| ==> c !in fields[i]
    ensures Split(Join(fields, c), c) == fields
  {
    if |fields| == 1 {
      SplitFree(fields[0], c);
    } else {
      SplitJoin(fields[1..], c);
      SplitAfterFree(fields[0], Join(fields[1..], c), c);
      assert fields == [fields[0]] + fields[1..];
    }
  }

  /** A separator-free string is a single field. */
  lemma {:induction false} SplitFree(s: string, c: char)
    requires c !in s
    ensures Split(s, c) == [s]
  {
    if s != [] {
      SplitFree(s[1..], c);
      assert s == [s[0]] + s[1..];
    }
  }

  /** A separator-free run followed by the separator is the first field. */
  lemma {:induction false} SplitAfterFree(a: string, b: string, c: char)
    requires c !in a
    ensures Split(a + [c] + b, c) == [a] + Split(b, c)
  {
    if a == [] {
      assert a + [c] + b == [c] + b;
      assert ([c] + b)[1..] == b;
    } else {
      SplitAfterFree(a[1..], b, c);
      assert (a + [c] + b)[1..] == a[1..] + [c] + b;
      assert a == [a[0]] + a[1..];
    }
  }

  /** The first field of `s.split(c)`: the text before the first `c`, or all
      of `s` when it has none. */
  function FirstField(s: string, c: char): (f: string)
    ensures c !in f
    ensures f == s || (|f| < |s| && s[|f|] == c)
    ensures f <= s
  {
    FirstFieldIsPrefix(s, c);
    Split(s, c)[0]
  }

  lemma {:induction false} FirstFieldIsPrefix(s: string, c: char)
    ensures Split(s, c)[0] <= s
    ensures Split(s, c)[0] == s || (|Split(s, c)[0]| < |s| && s[|Split(s, c)[0]|] == c)
  {
    if s != [] {
      FirstFieldIsPrefix(s[1..], c);
    }
  }

  /** `s.substring(0, n)` for n >= 0: the first n characters, or all of `s`
      when it is shorter. */
  function Prefix(s: string, n: nat): (p: string)
    ensures |p| == if n <= |s| then n else |s|
    ensures p <= s
  {
    if n <= |s| then s[..n] else s
  }

  /** `value === text.substring(0, value.length)` holds exactly when `value`
      is a prefix of `text`. */
  lemma MatchesPrefixIff(value: string, text: string)
    ensures value == Prefix(text, |value|) <==> value <= text
  {
  }

  /** ASCII case folding, as `toLowerCase` does on 'A'..'Z'. */
  function LowerChar(ch: char): (r: char)
    ensures 'A' <= ch <= 'Z' ==> r as int == ch as int + 32
    ensures !('A' <= ch <= 'Z') ==> r == ch
  {
    if 'A' <= ch <= 'Z' then (ch as int - 'A' as int + 'a' as int) as char else ch
  }

  /** `s.toLowerCase()`, character by character. */
  function ToLower(s: string): (r: string)
    ensures |r| == |s|
    ensures forall i :: 0 <= i < |s| ==> r[i] == LowerChar(s[i])
  {
    seq(|s|, i requires 0 <= i < |s| => LowerChar(s[i]))
  }
}
