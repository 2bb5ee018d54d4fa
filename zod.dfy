/**
 * The part of Zod's behaviour the form schemas rely on: string fields with
 * length checks whose failures are all reported, a wrong-typed field reported
 * once, and `z.flattenError(...).fieldErrors`, the failing fields' messages.
 */
module Zod {
  /** A field value as a form delivers it, or `undefined`/`null`. */
  datatype Value = Undefined | Null | Str(s: string) | FileObj(size: int, mimeType: string)

  /** The name Zod's default invalid-type message uses for the received value. */
  function TypeName(v: Value): string {
    match v
    case Undefined => "undefined"
    case Null => "null"
    case Str(_) => "string"
    case FileObj(_, _) => "File"
  }

  /** Zod's default message when a `z.string()` field receives something else. */
  function NotAStringMessage(v: Value): string {
    "Invalid input: expected string, received " + TypeName(v)
  }

  /** The messages of the checks that fail, in the order the checks are declared. */
  function Failed(checks: seq<(bool, string)>): (messages: seq<string>)
    ensures |messages| <= |checks|
    ensures messages == [] <==> forall i :: 0 <= i < |checks| ==> checks[i].0
    ensures forall m :: m in messages ==> exists i :: 0 <= i < |checks| && !checks[i].0 && checks[i].1 == m
    ensures forall i :: 0 <= i < |checks| && !checks[i].0 ==> checks[i].1 in messages
  {
    if |checks| == 0 then []
    else (if checks[0].0 then [] else [checks[0].1]) + Failed(checks[1..])
  }

  /** Failing checks report in sequence: the checks of `a`, then those of `b`. */
  lemma {:induction false} FailedAppend(a: seq<(bool, string)>, b: seq<(bool, string)>)
    ensures Failed(a + b) == Failed(a) + Failed(b)
  {
    if |a| == 0 {
      assert a + b == b;
    } else {
      FailedAppend(a[1..], b);
      FailedAppendStep(a, b);
    }
  }

  /** The step of `FailedAppend`: the first check of `a` reports before the others. */
  lemma FailedAppendStep(a: seq<(bool, string)>, b: seq<(bool, string)>)
    requires |a| > 0
    requires Failed(a[1..] + b) == Failed(a[1..]) + Failed(b)
    ensures Failed(a + b) == Failed(a) + Failed(b)
  {
    FailedUnfold(a);
    FailedUnfold(a + b);
    AppendTail(a, b);
    ConcatAssoc(if a[0].0 then [] else [a[0].1], Failed(a[1..]), Failed(b));
  }

  /** The first check reports before the rest. */
  lemma FailedUnfold(a: seq<(bool, string)>)
    requires |a| > 0
    ensures Failed(a) == (if a[0].0 then [] else [a[0].1]) + Failed(a[1..])
  {
  }

  /** The first element and the tail of a concatenation with a non-empty front. */
  lemma AppendTail<T>(a: seq<T>, b: seq<T>)
    requires |a| > 0
    ensures (a + b)[0] == a[0] && (a + b)[1..] == a[1..] + b
  {
  }

  /** Concatenation is associative. */
  lemma ConcatAssoc<T>(x: seq<T>, y: seq<T>, z: seq<T>)
    ensures x + (y + z) == (x + y) + z
  {
  }

  /** One check reports its message exactly once when it fails, and nothing when it holds. */
  lemma FailedSingle(c: (bool, string))
    ensures Failed([c]) == (if c.0 then [] else [c.1])
  {
  }

  /** Two checks report in declaration order. */
  lemma FailedTwo(a: (bool, string), b: (bool, string))
    ensures Failed([a, b]) == (if a.0 then [] else [a.1]) + (if b.0 then [] else [b.1])
  {
    assert [a, b] == [a] + [b];
    FailedAppend([a], [b]);
    FailedSingle(a);
    FailedSingle(b);
  }

  /** Three checks report in declaration order. */
  lemma FailedThree(a: (bool, string), b: (bool, string), c: (bool, string))
    ensures Failed([a, b, c]) == (if a.0 then [] else [a.1]) + (if b.0 then [] else [b.1]) + (if c.0 then [] else [c.1])
  {
    assert [a, b, c] == [a, b] + [c];
    FailedAppend([a, b], [c]);
    FailedTwo(a, b);
    FailedSingle(c);
  }

  /** `z.string().min(min, minMessage).max(max, maxMessage)` on one value. */
  function LengthIssues(v: Value, min: nat, minMessage: string, max: nat, maxMessage: string): (issues: seq<string>)
    ensures issues == [] <==> v.Str? && min <= |v.s| <= max
    ensures !v.Str? ==> issues == [NotAStringMessage(v)]
    ensures v.Str? ==> issues == (if |v.s| < min then [minMessage] else []) + (if |v.s| > max then [maxMessage] else [])
  {
    match v
    case Str(s) =>
      FailedTwo((|s| >= min, minMessage), (|s| <= max, maxMessage));
      Failed([(|s| >= min, minMessage), (|s| <= max, maxMessage)])
    case _ => [NotAStringMessage(v)]
  }

  /** `z.string().min(min, minMessage)` with no upper bound. */
  function MinIssues(v: Value, min: nat, minMessage: string): (issues: seq<string>)
    ensures issues == [] <==> v.Str? && min <= |v.s|
    ensures !v.Str? ==> issues == [NotAStringMessage(v)]
    ensures v.Str? ==> issues == (if |v.s| < min then [minMessage] else [])
  {
    match v
    case Str(s) => Failed([(|s| >= min, minMessage)])
    case _ => [NotAStringMessage(v)]
  }

  /** Keys appear at most once in a list of (field, issues) pairs. */
  predicate DistinctKeys(pairs: seq<(string, seq<string>)>) {
    forall i, j :: 0 <= i < j < |pairs| ==> pairs[i].0 != pairs[j].0
  }

  /** `fieldErrors`: each field with at least one issue, mapped to its messages. */
  function FieldErrors(pairs: seq<(string, seq<string>)>): (errors: map<string, seq<string>>)
    requires DistinctKeys(pairs)
    ensures forall k :: k in errors <==> exists i :: 0 <= i < |pairs| && pairs[i].0 == k && pairs[i].1 != []
    ensures forall i :: 0 <= i < |pairs| && pairs[i].1 != [] ==> pairs[i].0 in errors && errors[pairs[i].0] == pairs[i].1
    decreases |pairs|
  {
    if |pairs| == 0 then map[]
    else
      var rest := FieldErrors(pairs[1..]);
      assert forall i :: 1 <= i < |pairs| ==> pairs[i] == pairs[1..][i - 1];
      if pairs[0].1 == [] then rest else rest[pairs[0].0 := pairs[0].1]
  }

  /** Every field of the list is free of issues. */
  predicate NoIssues(pairs: seq<(string, seq<string>)>) {
    forall i :: 0 <= i < |pairs| ==> pairs[i].1 == []
  }

  /** No field errors are reported exactly when every field is free of issues. */
  lemma FieldErrorsEmpty(pairs: seq<(string, seq<string>)>)
    requires DistinctKeys(pairs)
    ensures FieldErrors(pairs) == map[] <==> NoIssues(pairs)
  {
    if !NoIssues(pairs) {
      var i :| 0 <= i < |pairs| && pairs[i].1 != [];
      assert pairs[i].0 in FieldErrors(pairs);
    }
  }

  /** When exactly one field has issues, the flattened errors hold that field alone. */
  lemma FieldErrorsSingle(pairs: seq<(string, seq<string>)>, i: nat)
    requires DistinctKeys(pairs) && i < |pairs| && pairs[i].1 != []
    requires forall j :: 0 <= j < |pairs| && j != i ==> pairs[j].1 == []
    ensures FieldErrors(pairs) == map[pairs[i].0 := pairs[i].1]
  {
    var errors := FieldErrors(pairs);
    assert errors.Keys == {pairs[i].0};
  }

  /** The flattened errors of two distinct fields, field by field. */
  lemma FieldErrorsOfTwo(a: (string, seq<string>), b: (string, seq<string>))
    requires a.0 != b.0
    ensures DistinctKeys([a, b])
    ensures NoIssues([a, b]) <==> a.1 == [] && b.1 == []
    ensures FieldErrors([a, b]).Keys <= {a.0, b.0}
    ensures a.0 in FieldErrors([a, b]) <==> a.1 != []
    ensures b.0 in FieldErrors([a, b]) <==> b.1 != []
    ensures a.1 != [] ==> FieldErrors([a, b])[a.0] == a.1
    ensures b.1 != [] ==> FieldErrors([a, b])[b.0] == b.1
  {
    var pairs := [a, b];
    assert pairs[0] == a && pairs[1] == b;
  }

  /** The flattened errors of three distinct fields, field by field. */
  lemma FieldErrorsOfThree(a: (string, seq<string>), b: (string, seq<string>), c: (string, seq<string>))
    requires a.0 != b.0 && a.0 != c.0 && b.0 != c.0
    ensures DistinctKeys([a, b, c])
    ensures NoIssues([a, b, c]) <==> a.1 == [] && b.1 == [] && c.1 == []
    ensures FieldErrors([a, b, c]).Keys <= {a.0, b.0, c.0}
    ensures a.0 in FieldErrors([a, b, c]) <==> a.1 != []
    ensures b.0 in FieldErrors([a, b, c]) <==> b.1 != []
    ensures c.0 in FieldErrors([a, b, c]) <==> c.1 != []
    ensures a.1 != [] ==> FieldErrors([a, b, c])[a.0] == a.1
    ensures b.1 != [] ==> FieldErrors([a, b, c])[b.0] == b.1
    ensures c.1 != [] ==> FieldErrors([a, b, c])[c.0] == c.1
  {
    var pairs := [a, b, c];
    assert pairs[0] == a && pairs[1] == b && pairs[2] == c;
  }

  /** When each of three distinct fields has issues, all three are reported. */
  lemma FieldErrorsAllThree(a: (string, seq<string>), b: (string, seq<string>), c: (string, seq<string>))
    requires a.0 != b.0 && a.0 != c.0 && b.0 != c.0
    requires a.1 != [] && b.1 != [] && c.1 != []
    ensures FieldErrors([a, b, c]) == map[a.0 := a.1, b.0 := b.1, c.0 := c.1]
  {
    FieldErrorsOfThree(a, b, c);
    assert FieldErrors([a, b, c]).Keys == {a.0, b.0, c.0};
  }

  /** The flattened errors of four distinct fields, field by field. */
  lemma FieldErrorsOfFour(a: (string, seq<string>), b: (string, seq<string>), c: (string, seq<string>), d: (string, seq<string>))
    requires a.0 != b.0 && a.0 != c.0 && a.0 != d.0 && b.0 != c.0 && b.0 != d.0 && c.0 != d.0
    ensures DistinctKeys([a, b, c, d])
    ensures NoIssues([a, b, c, d]) <==> a.1 == [] && b.1 == [] && c.1 == [] && d.1 == []
    ensures FieldErrors([a, b, c, d]).Keys <= {a.0, b.0, c.0, d.0}
    ensures a.0 in FieldErrors([a, b, c, d]) <==> a.1 != []
    ensures b.0 in FieldErrors([a, b, c, d]) <==> b.1 != []
    ensures c.0 in FieldErrors([a, b, c, d]) <==> c.1 != []
    ensures d.0 in FieldErrors([a, b, c, d]) <==> d.1 != []
    ensures a.1 != [] ==> FieldErrors([a, b, c, d])[a.0] == a.1
    ensures b.1 != [] ==> FieldErrors([a, b, c, d])[b.0] == b.1
    ensures c.1 != [] ==> FieldErrors([a, b, c, d])[c.0] == c.1
    ensures d.1 != [] ==> FieldErrors([a, b, c, d])[d.0] == d.1
  {
    var pairs := [a, b, c, d];
    assert pairs[0] == a && pairs[1] == b && pairs[2] == c && pairs[3] == d;
  }

  /** What `safeParse` gives: the parsed data, or the flattened field errors. */
  datatype Parsed<T> = Valid(data: T) | Invalid(fieldErrors: map<string, seq<string>>)
}
