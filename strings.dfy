/**
 * Dotted paths: `String.prototype.split(".")` and `Array.prototype.join(".")`
 * as the compiler uses them on field names such as `actor.first_name`.
 */
module Paths {

  predicate Dotted(s: string) {
    '.' in s
  }

  /** `s.split(".")`. */
  function Split(s: string): (parts: seq<string>)
    ensures |parts| >= 1
  {
    if s == [] then [""]
    else
      var rest := Split(s[1..]);
      if s[0] == '.' then [""] + rest else [[s[0]] + rest[0]] + rest[1..]
  }

  /** `parts.join(".")`. */
  function Join(parts: seq<string>): string {
    if parts == [] then ""
    else if |parts| == 1 then parts[0]
    else parts[0] + "." + Join(parts[1..])
  }

  /** `s.split(".").slice(1).join(".")`: what follows the first dot. */
  function Rest(s: string): string {
    Join(Split(s)[1..])
  }

  /** Splitting and joining back give the original path. */
  lemma {:induction false} JoinSplit(s: string)
    ensures Join(Split(s)) == s
  {
    if s != [] {
      var rest := Split(s[1..]);
      JoinSplit(s[1..]);
      if s[0] == '.' {
        assert Split(s) == [""] + rest;
        assert s == [s[0]] + s[1..];
      } else {
        assert s == [s[0]] + s[1..];
        if |rest| > 1 {
          assert Join(rest) == rest[0] + "." + Join(rest[1..]);
          assert Split(s)[1..] == rest[1..];
        }
      }
    }
  }

  /** No segment of a split path contains a dot. */
  lemma {:induction false} SegmentsUndotted(s: string)
    ensures forall i | 0 <= i < |Split(s)| :: !Dotted(Split(s)[i])
  {
    if s != [] {
      SegmentsUndotted(s[1..]);
    }
  }

  /** A path splits into more than one segment exactly when it holds a dot. */
  lemma {:induction false} SplitCount(s: string)
    ensures |Split(s)| > 1 <==> Dotted(s)
  {
    if s != [] {
      SplitCount(s[1..]);
      assert Dotted(s) <==> s[0] == '.' || Dotted(s[1..]) by {
        assert s == [s[0]] + s[1..];
      }
    }
  }

  /** A dotted path is its first segment, a dot, and the rest. */
  lemma DottedDecomposition(s: string)
    requires Dotted(s)
    ensures s == Split(s)[0] + "." + Rest(s)
    ensures |Rest(s)| < |s|
  {
    SplitCount(s);
    JoinSplit(s);
    var parts := Split(s);
    assert Join(parts) == parts[0] + "." + Join(parts[1..]);
  }

  /** The entries of `xs` that hold no dot, in order: `xs.filter(a => !a.includes("."))`. */
  function Undotted(xs: seq<string>): (r: seq<string>)
    ensures forall i | 0 <= i < |r| :: !Dotted(r[i])
    ensures forall x :: x in r <==> x in xs && !Dotted(x)
  {
    if xs == [] then []
    else (if Dotted(xs[0]) then [] else [xs[0]]) + Undotted(xs[1..])
  }

  lemma {:induction false} UndottedAppend(a: seq<string>, b: seq<string>)
    ensures Undotted(a + b) == Undotted(a) + Undotted(b)
  {
    if a == [] {
      assert a + b == b;
    } else {
      assert (a + b)[0] == a[0];
      assert (a + b)[1..] == a[1..] + b;
      UndottedAppend(a[1..], b);
    }
  }

  /** One more entry of a list, kept unless dotted. */
  lemma UndottedSnoc(xs: seq<string>, i: nat)
    requires i < |xs|
    ensures Undotted(xs[..i + 1]) == if Dotted(xs[i]) then Undotted(xs[..i]) else Undotted(xs[..i]) + [xs[i]]
  {
    assert xs[..i + 1] == xs[..i] + [xs[i]];
    UndottedAppend(xs[..i], [xs[i]]);
    assert Undotted([xs[i]]) == (if Dotted(xs[i]) then [] else [xs[i]]) + Undotted([]);
  }

  /** Filtering twice removes nothing more: the source's final filter of the attribute list is a no-op. */
  lemma {:induction false} UndottedIdempotent(xs: seq<string>)
    ensures Undotted(Undotted(xs)) == Undotted(xs)
  {
    if xs != [] {
      UndottedIdempotent(xs[1..]);
      UndottedAppend(if Dotted(xs[0]) then [] else [xs[0]], Undotted(xs[1..]));
    }
  }
}
