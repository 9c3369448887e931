/** String helpers shared by the rendering modules: repetition, counting and
    splitting into lines. */
module Text {

  /** `n` copies of `c`, as Rust's `str::repeat` builds them. */
  function Repeat(c: char, n: nat): (r: string)
    ensures |r| == n
    ensures forall i :: 0 <= i < n ==> r[i] == c
  {
    if n == 0 then "" else Repeat(c, n - 1) + [c]
  }

  /** The number of occurrences of `c` in `s`. */
  function Count(s: string, c: char): nat
  {
    if s == [] then 0 else Count(s[..|s| - 1], c) + (if s[|s| - 1] == c then 1 else 0)
  }

  lemma {:induction false} CountAppend(a: string, b: string, c: char)
    ensures Count(a + b, c) == Count(a, c) + Count(b, c)
  {
    if b == [] {
      assert a + b == a;
    } else {
      assert (a + b)[..|a + b| - 1] == a + b[..|b| - 1];
      CountAppend(a, b[..|b| - 1], c);
    }
  }

  lemma {:induction false} CountAbsent(s: string, c: char)
    requires c !in s
    ensures Count(s, c) == 0
  {
    if s != [] {
      assert s[..|s| - 1] + [s[|s| - 1]] == s;
      CountAbsent(s[..|s| - 1], c);
    }
  }

  lemma {:induction false} CountRepeat(s: string, c: char, n: nat)
    requires s == Repeat(c, n)
    ensures Count(s, c) == n
  {
    if n > 0 {
      assert s[..|s| - 1] == Repeat(c, n - 1);
      CountRepeat(s[..|s| - 1], c, n - 1);
    }
  }

  /** The in-order concatenation of `parts`. */
  function Concat(parts: seq<string>): string
  {
    if parts == [] then "" else Concat(parts[..|parts| - 1]) + parts[|parts| - 1]
  }

  lemma {:induction false} ConcatAppend(a: seq<string>, b: seq<string>)
    ensures Concat(a + b) == Concat(a) + Concat(b)
  {
    if b == [] {
      assert a + b == a;
    } else {
      assert (a + b)[..|a + b| - 1] == a + b[..|b| - 1];
      ConcatAppend(a, b[..|b| - 1]);
    }
  }

  /** The pieces of `s` between its '\n' characters, as Rust's `str::split('\n')`
      yields them: a string without a newline is one line. */
  function Split(s: string): (r: seq<string>)
    ensures |r| >= 1
  {
    if s == [] then [""]
    else if s[0] == '\n' then [""] + Split(s[1..])
    else var rest := Split(s[1..]); [[s[0]] + rest[0]] + rest[1..]
  }

  lemma {:induction false} SplitSingleLine(a: string)
    requires '\n' !in a
    ensures Split(a) == [a]
  {
    if a != [] {
      assert a[0] in a;
      assert forall k :: 1 <= k < |a| ==> a[1..][k - 1] == a[k];
      SplitSingleLine(a[1..]);
      assert [a[0]] + a[1..] == a;
    }
  }

  lemma {:induction false} SplitLine(a: string, b: string)
    requires '\n' !in a
    ensures Split(a + "\n" + b) == [a] + Split(b)
  {
    if a == [] {
      assert a + "\n" + b == "\n" + b;
      assert ("\n" + b)[1..] == b;
    } else {
      var s := a + "\n" + b;
      assert a[0] in a;
      assert s[0] == a[0];
      assert s[1..] == a[1..] + "\n" + b;
      assert '\n' !in a[1..] by {
        forall k | 0 <= k < |a[1..]| ensures a[1..][k] != '\n' {
          assert a[1..][k] == a[k + 1];
        }
      }
      SplitLine(a[1..], b);
      assert [a[0]] + a[1..] == a;
    }
  }

  /** Five newline-free lines joined by newlines split back into those lines. */
  lemma SplitFiveLines(a: string, b: string, c: string, d: string, e: string)
    requires '\n' !in a && '\n' !in b && '\n' !in c && '\n' !in d && '\n' !in e
    ensures Split(a + "\n" + (b + "\n" + (c + "\n" + (d + "\n" + e)))) == [a, b, c, d, e]
  {
    SplitLine(a, b + "\n" + (c + "\n" + (d + "\n" + e)));
    SplitLine(b, c + "\n" + (d + "\n" + e));
    SplitLine(c, d + "\n" + e);
    SplitLine(d, e);
    SplitSingleLine(e);
  }
}
