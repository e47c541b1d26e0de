/** ASCII case mapping and separator joining, as used on field names and error messages. */
module Text {

  function LowerChar(c: char): char {
    if 'A' <= c <= 'Z' then (c as int + 32) as char else c
  }

  function UpperChar(c: char): char {
    if 'a' <= c <= 'z' then (c as int - 32) as char else c
  }

  /** str.lower() restricted to ASCII letters. */
  function Lower(s: string): (r: string)
    ensures |r| == |s|
    ensures forall i :: 0 <= i < |s| ==> ('A' <= s[i] <= 'Z' <==> r[i] != s[i])
    ensures forall i :: 0 <= i < |s| && 'A' <= s[i] <= 'Z' ==> r[i] as int == s[i] as int + 32
    ensures forall i :: 0 <= i < |s| ==> !('A' <= r[i] <= 'Z')
  {
    seq(|s|, i requires 0 <= i < |s| => LowerChar(s[i]))
  }

  /** str.upper() restricted to ASCII letters. */
  function Upper(s: string): (r: string)
    ensures |r| == |s|
    ensures forall i :: 0 <= i < |s| ==> ('a' <= s[i] <= 'z' <==> r[i] != s[i])
    ensures forall i :: 0 <= i < |s| && 'a' <= s[i] <= 'z' ==> r[i] as int == s[i] as int - 32
    ensures forall i :: 0 <= i < |s| ==> !('a' <= r[i] <= 'z')
  {
    seq(|s|, i requires 0 <= i < |s| => UpperChar(s[i]))
  }

  /** A name with no upper-case letter is its own lower-case form. */
  lemma LowerOfLowerCase(s: string)
    requires forall i :: 0 <= i < |s| ==> !('A' <= s[i] <= 'Z')
    ensures Lower(s) == s
  {
  }

  /** sep.join(xs) */
  function Join(xs: seq<string>, sep: string): (r: string)
    ensures xs == [] ==> r == ""
    ensures |xs| == 1 ==> r == xs[0]
    decreases |xs|
  {
    if xs == [] then ""
    else if |xs| == 1 then xs[0]
    else xs[0] + sep + Join(xs[1..], sep)
  }

  /** A slice of the second part of a concatenation, seen from the whole. */
  lemma SliceOfSuffix(p: string, t: string, o: nat, len: nat)
    requires o + len <= |t|
    ensures |p| + o + len <= |p + t| && (p + t)[|p| + o..|p| + o + len] == t[o..o + len]
  {
  }

  /** Where the i-th element starts in Join(xs, sep). */
  function JoinOffset(xs: seq<string>, sep: string, i: nat): nat
    requires i <= |xs|
  {
    if i == 0 then 0 else JoinOffset(xs, sep, i - 1) + |xs[i - 1]| + |sep|
  }

  lemma {:induction false} JoinOffsetShift(xs: seq<string>, sep: string, i: nat)
    requires 0 < |xs| && i < |xs|
    ensures JoinOffset(xs, sep, i + 1) == |xs[0]| + |sep| + JoinOffset(xs[1..], sep, i)
    decreases i
  {
    if i > 0 {
      JoinOffsetShift(xs, sep, i - 1);
    }
  }

  /** Every element of the list occurs in the joined text, in list order and separated by sep. */
  lemma {:induction false} JoinContains(xs: seq<string>, sep: string, i: nat)
    requires i < |xs|
    ensures JoinOffset(xs, sep, i) + |xs[i]| <= |Join(xs, sep)|
    ensures Join(xs, sep)[JoinOffset(xs, sep, i)..JoinOffset(xs, sep, i) + |xs[i]|] == xs[i]
    decreases |xs|
  {
    if |xs| > 1 && i > 0 {
      var rest := xs[1..];
      JoinContains(rest, sep, i - 1);
      JoinOffsetShift(xs, sep, i - 1);
      var k := JoinOffset(rest, sep, i - 1);
      var p := xs[0] + sep;
      assert Join(xs, sep) == p + Join(rest, sep);
      assert Join(xs, sep)[|p| + k..|p| + k + |xs[i]|] == Join(rest, sep)[k..k + |rest[i - 1]|];
    }
  }

  /** Between the i-th and the (i+1)-th element stands exactly one sep. */
  lemma {:induction false} JoinSeparators(xs: seq<string>, sep: string, i: nat)
    requires i + 1 < |xs|
    ensures JoinOffset(xs, sep, i) + |xs[i]| + |sep| == JoinOffset(xs, sep, i + 1) <= |Join(xs, sep)|
    ensures Join(xs, sep)[JoinOffset(xs, sep, i) + |xs[i]|..JoinOffset(xs, sep, i + 1)] == sep
    decreases |xs|
  {
    var rest := xs[1..];
    var p := xs[0] + sep;
    assert Join(xs, sep) == p + Join(rest, sep);
    if i == 0 {
      assert Join(xs, sep)[|xs[0]|..|xs[0]| + |sep|] == p[|xs[0]|..];
    } else {
      JoinSeparators(rest, sep, i - 1);
      JoinOffsetShift(xs, sep, i - 1);
      JoinOffsetShift(xs, sep, i);
      var k := JoinOffset(rest, sep, i - 1) + |rest[i - 1]|;
      SliceOfSuffix(p, Join(rest, sep), k, |sep|);
    }
  }

  /** The joined text ends with the last element: nothing follows it. */
  lemma {:induction false} JoinLength(xs: seq<string>, sep: string)
    requires xs != []
    ensures |Join(xs, sep)| == JoinOffset(xs, sep, |xs|) - |sep|
    decreases |xs|
  {
    if |xs| > 1 {
      JoinLength(xs[1..], sep);
      JoinOffsetShift(xs, sep, |xs| - 1);
    }
  }
}
