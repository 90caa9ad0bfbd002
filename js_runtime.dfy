/** The parts of the JavaScript runtime the client relies on: property values that may be
    undefined, truthiness, settled promises, and the String and Array built-ins it calls
    (`indexOf`, `split`, `slice`, `splice`). */
module JsRuntime {

  datatype Option<+T> = None | Some(value: T)

  /** A string-valued property read from a JavaScript object, or a string read from browser
      storage: `None` is `undefined` (or `null`). */
  type Field = Option<string>

  /** A parsed JSON object whose properties hold strings. */
  type JsonObj = map<string, string>

  /** JavaScript truthiness of a `Field`: `!v` holds exactly for undefined, null and "". */
  predicate Truthy(v: Field)
    ensures !Truthy(v) <==> v == None || v == Some("")
  {
    v.Some? && v.value != ""
  }

  /** The settled state of a promise: an awaited call either resolves with a value or
      rejects (a network error, a non-2xx reply, or a TypeError thrown inside it). */
  datatype Promise<+T> = Resolved(value: T) | Rejected

  /** Property access `obj.key`: a missing key reads as undefined. */
  function Get(obj: JsonObj, key: string): Field {
    if key in obj then Some(obj[key]) else None
  }

  /** Serialising property `key` with value `v`: `JSON.stringify` omits undefined values. */
  function Put(obj: JsonObj, key: string, v: Field): JsonObj {
    if v.Some? then obj[key := v.value] else obj
  }

  // ---------------------------------------------------------------------------------------
  // String.prototype.indexOf

  /** `sub` occurs in `s` starting at position `k`. */
  predicate MatchAt(s: string, sub: string, k: nat) {
    k + |sub| <= |s| && s[k..k + |sub|] == sub
  }

  /** `s.indexOf(sub)`: the first position where `sub` occurs in `s`, or -1 when it does not
      occur anywhere. */
  function IndexOf(s: string, sub: string): (r: int)
    ensures -1 <= r <= |s|
    ensures r >= 0 ==> MatchAt(s, sub, r) && forall k :: 0 <= k < r ==> !MatchAt(s, sub, k)
    ensures r == -1 <==> forall k :: 0 <= k <= |s| ==> !MatchAt(s, sub, k)
    decreases |s|
  {
    if |s| < |sub| then
      -1
    else if s[..|sub|] == sub then
      0
    else
      var k := IndexOf(s[1..], sub);
      ShiftMatch(s, sub);
      if k == -1 then -1 else k + 1
  }

  /** Dropping the first character shifts every occurrence one place to the left. */
  lemma ShiftMatch(s: string, sub: string)
    requires |s| > 0
    ensures forall k: nat :: 1 <= k <= |s| ==> (MatchAt(s, sub, k) <==> MatchAt(s[1..], sub, k - 1))
  {
    forall k: nat | 1 <= k <= |s|
      ensures MatchAt(s, sub, k) <==> MatchAt(s[1..], sub, k - 1)
    {
      if k + |sub| <= |s| {
        assert s[1..][k - 1..k - 1 + |sub|] == s[k..k + |sub|];
      }
    }
  }

  // ---------------------------------------------------------------------------------------
  // String.prototype.split with a one-character separator, and its inverse Array.prototype.join

  /** `s.split(sep)`: the maximal separator-free segments of `s`, at least one (an empty
      string gives `[""]`); `JoinSplit` and `SplitJoin` show that they are exactly the pieces
      between the separators. */
  function Split(s: string, sep: char): (parts: seq<string>)
    ensures |parts| >= 1
    ensures forall i :: 0 <= i < |parts| ==> sep !in parts[i]
    decreases |s|
  {
    if s == [] then
      [""]
    else
      var rest := Split(s[1..], sep);
      if s[0] == sep then
        [""] + rest
      else
        [[s[0]] + rest[0]] + rest[1..]
  }

  /** `parts.join(sep)`. */
  function Join(parts: seq<string>, sep: char): string {
    if |parts| == 0 then ""
    else if |parts| == 1 then parts[0]
    else parts[0] + [sep] + Join(parts[1..], sep)
  }

  /** Joining the segments back with the separator gives the original string. */
  lemma {:induction false} JoinSplit(s: string, sep: char)
    ensures Join(Split(s, sep), sep) == s
    decreases |s|
  {
    if s != [] {
      var rest := Split(s[1..], sep);
      JoinSplit(s[1..], sep);
      if s[0] == sep {
        assert Split(s, sep) == [""] + rest;
        assert ([""] + rest)[1..] == rest;
      } else {
        var head := [s[0]] + rest[0];
        assert Split(s, sep) == [head] + rest[1..];
        if |rest| == 1 {
          assert Join(rest, sep) == rest[0];
        } else {
          assert Join(rest, sep) == rest[0] + [sep] + Join(rest[1..], sep);
          assert ([head] + rest[1..])[1..] == rest[1..];
        }
      }
    }
  }

  /** A string without the separator is a single segment. */
  lemma {:induction false} SplitWithoutSep(s: string, sep: char)
    requires sep !in s
    ensures Split(s, sep) == [s]
    decreases |s|
  {
    if s != [] {
      SplitWithoutSep(s[1..], sep);
      assert [s[0]] + s[1..] == s;
    }
  }

  /** One unfolding of `Split` on a non-empty string. */
  lemma SplitFirst(s: string, sep: char)
    requires s != []
    ensures Split(s, sep) == if s[0] == sep then [""] + Split(s[1..], sep)
                             else [[s[0]] + Split(s[1..], sep)[0]] + Split(s[1..], sep)[1..]
  {
  }

  /** A separator between `a` and `b` splits exactly there. */
  lemma {:induction false} SplitAround(a: string, b: string, sep: char)
    ensures Split(a + [sep] + b, sep) == Split(a, sep) + Split(b, sep)
    decreases |a|
  {
    var s := a + [sep] + b;
    SplitFirst(s, sep);
    if a == [] {
      assert s[1..] == b;
    } else {
      assert s[0] == a[0];
      assert s[1..] == a[1..] + [sep] + b;
      SplitAround(a[1..], b, sep);
      SplitFirst(a, sep);
      var left, right := Split(a[1..], sep), Split(b, sep);
      if a[0] != sep {
        assert (left + right)[0] == left[0];
        assert (left + right)[1..] == left[1..] + right;
      }
    }
  }

  /** Splitting undoes joining separator-free segments. */
  lemma {:induction false} SplitJoin(parts: seq<string>, sep: char)
    requires |parts| >= 1
    requires forall i :: 0 <= i < |parts| ==> sep !in parts[i]
    ensures Split(Join(parts, sep), sep) == parts
    decreases |parts|
  {
    SplitWithoutSep(parts[0], sep);
    if |parts| > 1 {
      SplitJoin(parts[1..], sep);
      SplitAround(parts[0], Join(parts[1..], sep), sep);
      assert [parts[0]] + parts[1..] == parts;
    }
  }

  // ---------------------------------------------------------------------------------------
  // String.prototype.slice with non-negative arguments

  /** `s.slice(0, n)`: the first `n` characters, or all of `s` when it is shorter. */
  function SlicePrefix(s: string, n: nat): (r: string)
    ensures r <= s
    ensures |r| == if n <= |s| then n else |s|
  {
    if n <= |s| then s[..n] else s
  }

  /** `s.slice(n)`: everything from position `n` on, or "" when `s` is shorter. */
  function SliceFrom(s: string, n: nat): (r: string)
    ensures SlicePrefix(s, n) + r == s
  {
    if n <= |s| then s[n..] else ""
  }

  // ---------------------------------------------------------------------------------------
  // Array.prototype.splice(start, 1)

  /** The elements left in `s` after `s.splice(start, 1)`. A negative `start` counts from
      the end (so -1 is the last element) and is clamped at 0; a `start` at or past the end
      removes nothing. */
  function SpliceOne<T>(s: seq<T>, start: int): (r: seq<T>)
    ensures 0 <= start < |s| ==> r == s[..start] + s[start + 1..]
    ensures -|s| <= start < 0 ==> r == s[..|s| + start] + s[|s| + start + 1..]
    ensures start == -1 && |s| > 0 ==> r == s[..|s| - 1]
    ensures s == [] ==> r == []
    ensures |r| == if 0 < |s| && start < |s| then |s| - 1 else |s|
  {
    var actualStart := if start < 0 then (if |s| + start > 0 then |s| + start else 0)
                       else (if start < |s| then start else |s|);
    var deleteCount := if 1 < |s| - actualStart then 1 else |s| - actualStart;
    s[..actualStart] + s[actualStart + deleteCount..]
  }
}
