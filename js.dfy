/** The few JavaScript value operations the nagger script leans on: an
    optional value (`null` or a string), the falsy slots that
    `Array.prototype.filter(Boolean)` drops, and `Array.prototype.join('\n')`
    together with the line split that undoes it. */
module Js {

  /** A value that may be `null`. */
  datatype Option<+T> = None | Some(value: T)

  /** An element of an array literal before `filter(Boolean)`: either a
      falsy value (`0`, `''`, `false`, `null`) or a truthy value to keep. */
  datatype Slot<+T> = Falsy | Truthy(value: T)

  /** A string literal as an array element: the empty string is falsy. */
  function StrSlot(s: string): (r: Slot<string>)
    ensures r.Truthy? <==> s != ""
    ensures r.Truthy? ==> r.value == s
  {
    if s == "" then Falsy else Truthy(s)
  }

  /** A JavaScript `x && y` whose left operand is a number: `0` is returned
      as is (falsy), any other number yields `y`. */
  function AndThen<T>(n: nat, y: Slot<T>): (r: Slot<T>)
    ensures n == 0 ==> r == Falsy
    ensures n != 0 ==> r == y
  {
    if n == 0 then Falsy else y
  }

  /** `xs.filter(Boolean)`: the truthy values, in their original order. */
  function Compact<T>(xs: seq<Slot<T>>): (r: seq<T>)
    ensures |r| <= |xs|
  {
    if xs == [] then []
    else (if xs[0].Truthy? then [xs[0].value] else []) + Compact(xs[1..])
  }

  /** A string element survives `filter(Boolean)` exactly when it is
      non-empty, and it survives unchanged. */
  lemma StrSlotFilter(s: string)
    ensures Compact([StrSlot(s)]) == (if s == "" then [] else [s])
  {
  }

  /** An `n && y` element is dropped by `filter(Boolean)` when `n` is 0 and
      is filtered exactly as `y` would be otherwise. */
  lemma AndThenFilter<T>(n: nat, y: Slot<T>)
    ensures Compact([AndThen(n, y)]) == (if n == 0 then [] else Compact([y]))
  {
  }

  lemma {:induction false} CompactAppend<T>(a: seq<Slot<T>>, b: seq<Slot<T>>)
    ensures Compact(a + b) == Compact(a) + Compact(b)
  {
    if a == [] {
      assert a + b == b;
    } else {
      var head := if a[0].Truthy? then [a[0].value] else [];
      assert (a + b)[0] == a[0];
      assert (a + b)[1..] == a[1..] + b;
      assert Compact(a + b) == head + Compact(a[1..] + b);
      CompactAppend(a[1..], b);
      assert Compact(a) == head + Compact(a[1..]);
    }
  }

  /** Filtering keeps every truthy element and keeps them in order: when
      nothing is falsy, nothing is dropped. */
  lemma {:induction false} CompactAllTruthy<T>(xs: seq<Slot<T>>)
    requires forall k :: 0 <= k < |xs| ==> xs[k].Truthy?
    ensures |Compact(xs)| == |xs|
    ensures forall k :: 0 <= k < |xs| ==> Compact(xs)[k] == xs[k].value
  {
    if xs != [] {
      CompactAllTruthy(xs[1..]);
    }
  }

  /** `lines.join('\n')`. */
  function Join(lines: seq<string>): string
  {
    if |lines| == 0 then ""
    else if |lines| == 1 then lines[0]
    else lines[0] + "\n" + Join(lines[1..])
  }

  /** The first index of `c` in `s`, or `|s|` when `c` does not occur. */
  function IndexOf(s: string, c: char): (i: nat)
    ensures i <= |s|
    ensures i < |s| ==> s[i] == c
    ensures forall k :: 0 <= k < i ==> s[k] != c
  {
    if s == [] then 0
    else if s[0] == c then 0
    else 1 + IndexOf(s[1..], c)
  }

  /** `s.split('\n')`: the pieces between newlines (never empty). */
  function Split(s: string): (lines: seq<string>)
    ensures |lines| >= 1
    ensures forall k :: 0 <= k < |lines| ==> '\n' !in lines[k]
    decreases |s|
  {
    var i := IndexOf(s, '\n');
    if i == |s| then [s]
    else [s[..i]] + Split(s[i + 1..])
  }

  /** Splitting a line, a newline and a rest yields the line and then the
      pieces of the rest. */
  lemma SplitCons(line: string, rest: string)
    requires '\n' !in line
    ensures Split(line + "\n" + rest) == [line] + Split(rest)
  {
    var s := line + "\n" + rest;
    assert s[|line|] == '\n';
    assert forall k :: 0 <= k < |line| ==> s[k] == line[k];
    assert IndexOf(s, '\n') == |line|;
    assert s[..|line|] == line;
    assert s[|line| + 1..] == rest;
  }

  /** Joining lines that contain no newline can be undone by splitting:
      the joined text consists of exactly those lines, in order. */
  lemma {:induction false} SplitJoin(lines: seq<string>)
    requires |lines| >= 1
    requires forall k :: 0 <= k < |lines| ==> '\n' !in lines[k]
    ensures Split(Join(lines)) == lines
  {
    if |lines| == 1 {
      assert IndexOf(lines[0], '\n') == |lines[0]|;
    } else {
      SplitCons(lines[0], Join(lines[1..]));
      SplitJoin(lines[1..]);
      assert lines == [lines[0]] + lines[1..];
    }
  }
}
