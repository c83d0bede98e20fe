/** The few JavaScript built-ins the modelled code leans on: `undefined`,
    truthiness of an optional string, `String.prototype.indexOf`,
    `String.prototype.split` with a one-character separator and
    `Array.prototype.join`. */
module Js {

  /** A value that may be `undefined` (a missing object property). */
  datatype Option<T> = None | Some(value: T)

  /** Property lookup on a plain object used as a dictionary: `o[k]`. */
  function Prop<K, V>(o: map<K, V>, k: K): (r: Option<V>)
    ensures r.Some? <==> k in o
    ensures r.Some? ==> r.value == o[k]
  {
    if k in o then Some(o[k]) else None
  }

  /** JavaScript truthiness of a string-or-undefined: `undefined` and `""` are falsy. */
  predicate Truthy(v: Option<string>) {
    v.Some? && v.value != ""
  }

  /** The text a template literal `${v}` produces for a string-or-undefined. */
  function Show(v: Option<string>): string {
    match v
    case Some(s) => s
    case None => "undefined"
  }

  /** True when `t` occurs in `s` at position `i`. */
  predicate OccursAt(s: string, t: string, i: nat) {
    i + |t| <= |s| && s[i..i + |t|] == t
  }

  /** `s.indexOf(t, k)`: the first position at or after `k` where `t` occurs, or -1. */
  function IndexFrom(s: string, t: string, k: nat): (r: int)
    requires k <= |s|
    decreases |s| - k
    ensures r == -1 || k <= r <= |s|
    ensures r == -1 <==> forall i: nat :: k <= i <= |s| ==> !OccursAt(s, t, i)
    ensures r != -1 ==> OccursAt(s, t, r) && forall i: nat :: k <= i < r ==> !OccursAt(s, t, i)
  {
    if OccursAt(s, t, k) then k
    else if k == |s| then -1
    else IndexFrom(s, t, k + 1)
  }

  /** `s.indexOf(t)`. */
  function IndexOf(s: string, t: string): int
  {
    IndexFrom(s, t, 0)
  }

  /** The test `s.indexOf(t) !== -1`: `t` is a substring of `s`. */
  predicate Contains(s: string, t: string) {
    IndexOf(s, t) != -1
  }

  /** A string lacking one of `t`'s characters does not contain `t`. */
  lemma MissingChar(s: string, t: string, c: char)
    requires c in t && c !in s
    ensures !Contains(s, t)
  {
  }

  /** `s.split(sep)` for a one-character separator. */
  function Split(s: string, sep: char): (parts: seq<string>)
    ensures |parts| >= 1
    ensures forall i :: 0 <= i < |parts| ==> sep !in parts[i]
  {
    if |s| == 0 then [""]
    else
      var rest := Split(s[1..], sep);
      if s[0] == sep then [""] + rest
      else [[s[0]] + rest[0]] + rest[1..]
  }

  /** `parts.join(sep)`; an empty array joins to the empty string. */
  function Join(parts: seq<string>, sep: string): string {
    if |parts| == 0 then ""
    else if |parts| == 1 then parts[0]
    else parts[0] + sep + Join(parts[1..], sep)
  }

  /** Joining the pieces of a split with the same separator gives the input back. */
  lemma {:induction false} JoinSplit(s: string, sep: char)
    ensures Join(Split(s, sep), [sep]) == s
  {
    if |s| > 0 {
      var rest := Split(s[1..], sep);
      JoinSplit(s[1..], sep);
      if s[0] == sep {
        assert Split(s, sep) == [""] + rest;
        assert ([""] + rest)[1..] == rest;
        calc {
          Join([""] + rest, [sep]);
          "" + [sep] + Join(rest, [sep]);
          [s[0]] + s[1..];
        }
        assert [s[0]] + s[1..] == s;
      } else if |rest| == 1 {
        assert Split(s, sep) == [[s[0]] + rest[0]];
        assert [s[0]] + s[1..] == s;
      } else {
        var first := [s[0]] + rest[0];
        assert Split(s, sep) == [first] + rest[1..];
        assert ([first] + rest[1..])[1..] == rest[1..];
        calc {
          Join([first] + rest[1..], [sep]);
          first + [sep] + Join(rest[1..], [sep]);
          [s[0]] + (rest[0] + [sep] + Join(rest[1..], [sep]));
          [s[0]] + Join(rest, [sep]);
          [s[0]] + s[1..];
        }
        assert [s[0]] + s[1..] == s;
      }
    }
  }

  /** Splitting a string that starts with a separator-free prefix `p`. */
  lemma {:induction false} SplitPrefix(p: string, tail: string, sep: char)
    requires sep !in p
    ensures Split(p + tail, sep) == [p + Split(tail, sep)[0]] + Split(tail, sep)[1..]
  {
    if |p| > 0 {
      var s := p + tail;
      assert s[0] == p[0] && s[1..] == p[1..] + tail;
      SplitPrefix(p[1..], tail, sep);
      var rest := Split(s[1..], sep);
      assert rest == [p[1..] + Split(tail, sep)[0]] + Split(tail, sep)[1..];
      assert [p[0]] + (p[1..] + Split(tail, sep)[0]) == p + Split(tail, sep)[0];
    } else {
      var parts := Split(tail, sep);
      assert p + tail == tail && p + parts[0] == parts[0];
      assert parts == [parts[0]] + parts[1..];
    }
  }

  /** Splitting a join of separator-free pieces gives the pieces back. */
  lemma {:induction false} SplitJoin(parts: seq<string>, sep: char)
    requires |parts| >= 1
    requires forall i :: 0 <= i < |parts| ==> sep !in parts[i]
    ensures Split(Join(parts, [sep]), sep) == parts
  {
    if |parts| == 1 {
      SplitPrefix(parts[0], "", sep);
      assert parts[0] + "" == parts[0];
    } else {
      var p, rest := parts[0], parts[1..];
      SplitJoin(rest, sep);
      var tail := [sep] + Join(rest, [sep]);
      assert Join(parts, [sep]) == p + tail;
      SplitPrefix(p, tail, sep);
      assert tail[0] == sep && tail[1..] == Join(rest, [sep]);
      assert Split(tail, sep) == [""] + rest;
      assert p + "" == p;
      assert parts == [p] + rest;
    }
  }
}
