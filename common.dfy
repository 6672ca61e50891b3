// Shared vocabulary for the model: how the Python code fails, and the few
// numeric and string primitives of the Python runtime that the core relies on.

module Common {

  /** Python exceptions that the modelled code can raise without catching them. */
  datatype PyError =
    | KeyError            // dictionary or configuration lookup of a missing key
    | ZeroDivisionError   // `/` with a zero divisor
    | IndexError          // `xs[0]` on an empty list
    | ValueError          // numpy.linspace with a negative number of samples
    | AttributeError      // a method that does not exist on the receiver
    | UnboundLocalError   // a local variable read before any assignment

  /** How a call of the modelled code ends.
      Rejected: the Python function returned False to report an error.
      Exited:   the Python code called sys.exit(). */
  datatype Result<T> =
    | Ok(value: T)
    | Rejected
    | Exited
    | Raised(error: PyError)

  /** The outcome of a call that returns no value. */
  type Status = Result<()>

  const Done: Status := Ok(())

  datatype Option<T> = None | Some(value: T)

  /** Python's int() on a float: rounds toward zero. */
  function Trunc(x: real): (r: int)
    ensures 0.0 <= x ==> r as real <= x < r as real + 1.0
    ensures x < 0.0 ==> r as real - 1.0 < x <= r as real
  {
    if 0.0 <= x then x.Floor else -((-x).Floor)
  }

  /** The fractional part returned by math.modf: it carries the sign of x. */
  function Frac(x: real): (r: real)
    ensures 0.0 <= x ==> 0.0 <= r < 1.0
    ensures x < 0.0 ==> -1.0 < r <= 0.0
    ensures (x - r).Floor as real == x - r
  {
    x - Trunc(x) as real
  }

  /** Python 3's round() of a float to an int: to the nearest integer, and to
      the even neighbour when x lies exactly half-way. */
  function RoundHalfEven(x: real): (r: int)
    ensures x - 0.5 <= r as real <= x + 0.5
    ensures r as real - x == 0.5 ==> r % 2 == 0
    ensures x - r as real == 0.5 ==> r % 2 == 0
    ensures x == x.Floor as real ==> r == x.Floor
  {
    var f := x.Floor;
    var d := x - f as real;
    if d < 0.5 then f
    else if d > 0.5 then f + 1
    else if f % 2 == 0 then f
    else f + 1
  }

  /** Python's max(n, 0) on integers. */
  function NonNeg(n: int): (r: nat)
    ensures r >= n
    ensures r == n || r == 0
  {
    if n >= 0 then n else 0
  }

  /** `sub` occurs at position i of s. */
  ghost predicate OccursAt(s: string, sub: string, i: int)
  {
    0 <= i && i + |sub| <= |s| && s[i..i + |sub|] == sub
  }

  /** An occurrence is at the start or, shifted by one, in the tail. */
  lemma OccursShift(s: string, sub: string)
    ensures (exists i :: OccursAt(s, sub, i)) <==>
      sub <= s || (|s| > 0 && exists i :: OccursAt(s[1..], sub, i))
  {
    if sub <= s {
      assert s[0..|sub|] == sub;
      assert OccursAt(s, sub, 0);
    }
    if |s| > 0 && exists i :: OccursAt(s[1..], sub, i) {
      var i :| OccursAt(s[1..], sub, i);
      assert s[i + 1..i + 1 + |sub|] == s[1..][i..i + |sub|];
      assert OccursAt(s, sub, i + 1);
    }
    if exists i :: OccursAt(s, sub, i) {
      var i :| OccursAt(s, sub, i);
      if i == 0 {
        assert sub <= s;
      } else {
        assert s[1..][i - 1..i - 1 + |sub|] == s[i..i + |sub|];
        assert OccursAt(s[1..], sub, i - 1);
      }
    }
  }

  /** Python's `sub in s` on two strings: substring containment, which
      holds exactly when sub occurs at some offset of s. */
  predicate Contains(s: string, sub: string)
    ensures Contains(s, sub) <==> exists i :: OccursAt(s, sub, i)
    decreases |s|
  {
    OccursShift(s, sub);
    sub <= s || (|s| > 0 && Contains(s[1..], sub))
  }

  lemma ContainsAppend(a: string, b: string, sub: string)
    ensures Contains(b, sub) ==> Contains(a + b, sub)
    ensures Contains(a, sub) ==> Contains(a + b, sub)
  {
    if Contains(b, sub) {
      var i :| OccursAt(b, sub, i);
      assert (a + b)[|a| + i..|a| + i + |sub|] == b[i..i + |sub|];
      assert OccursAt(a + b, sub, |a| + i);
    }
    if Contains(a, sub) {
      var i :| OccursAt(a, sub, i);
      assert (a + b)[i..i + |sub|] == a[i..i + |sub|];
      assert OccursAt(a + b, sub, i);
    }
  }

  /** Python's sep.join(parts). Every part is a substring of the result,
      whatever the separator. */
  function Join(parts: seq<string>, sep: string): (r: string)
    ensures forall k :: k in parts ==> Contains(r, k)
    decreases |parts|
  {
    if |parts| == 0 then ""
    else if |parts| == 1 then
      assert parts[0] <= parts[0];
      parts[0]
    else
      var rest := Join(parts[1..], sep);
      assert forall k :: k in parts ==> Contains(parts[0] + sep + rest, k) by {
        forall k | k in parts
          ensures Contains(parts[0] + sep + rest, k)
        {
          if k == parts[0] {
            assert k <= k;
            ContainsAppend(k, sep + rest, k);
            assert parts[0] + sep + rest == k + (sep + rest);
          } else {
            assert k in parts[1..];
            ContainsAppend(parts[0] + sep, rest, k);
          }
        }
      }
      parts[0] + sep + rest
  }

  /** Python's s.split(c) for a one-character separator: one more part than
      there are separators in s. */
  function Split(s: string, c: char): (r: seq<string>)
    ensures |r| == multiset(s)[c] + 1
    decreases |s|
  {
    if |s| == 0 then [""]
    else
      assert s == [s[0]] + s[1..];
      if s[0] == c then [""] + Split(s[1..], c)
      else
        var rest := Split(s[1..], c);
        [[s[0]] + rest[0]] + rest[1..]
  }

  /** A string without the separator does not split. */
  lemma {:induction false} SplitNoSeparator(s: string, c: char)
    requires c !in s
    ensures Split(s, c) == [s]
    decreases |s|
  {
    if |s| > 0 {
      assert c !in s[1..];
      SplitNoSeparator(s[1..], c);
      assert [s[0]] + s[1..] == s;
    }
  }

  /** Splitting a + [c] + b, where a has no separator, gives a then the split of b. */
  lemma {:induction false} SplitAtSeparator(a: string, c: char, b: string)
    requires c !in a
    ensures Split(a + [c] + b, c) == [a] + Split(b, c)
    decreases |a|
  {
    var s := a + [c] + b;
    if |a| == 0 {
      assert s[0] == c && s[1..] == b;
    } else {
      assert s[0] == a[0] && s[1..] == a[1..] + [c] + b;
      assert c !in a[1..];
      SplitAtSeparator(a[1..], c, b);
      assert [a[0]] + a[1..] == a;
    }
  }

  /** Splitting on c undoes joining with c, when no part contains c:
      c.join(parts).split(c) == parts. */
  lemma {:induction false} SplitJoin(parts: seq<string>, c: char)
    requires |parts| >= 1
    requires forall p :: p in parts ==> c !in p
    ensures Split(Join(parts, [c]), c) == parts
    decreases |parts|
  {
    if |parts| == 1 {
      SplitNoSeparator(parts[0], c);
    } else {
      var rest := Join(parts[1..], [c]);
      assert Join(parts, [c]) == parts[0] + [c] + rest;
      SplitAtSeparator(parts[0], c, rest);
      assert forall p :: p in parts[1..] ==> p in parts;
      SplitJoin(parts[1..], c);
      assert [parts[0]] + parts[1..] == parts;
    }
  }

  /** Python's s.endswith(suffix). */
  predicate EndsWith(s: string, suffix: string)
  {
    |suffix| <= |s| && s[|s| - |suffix|..] == suffix
  }
}
