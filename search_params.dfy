/**
 * The part of `URLSearchParams` (WHATWG URL Standard, section 6.2) that the
 * search box and the pagination links use: an ordered list of name-value
 * pairs with `get`, `set`, `delete` and `toString`, the last producing the
 * `application/x-www-form-urlencoded` serialisation (URL Standard, section 5.2).
 */
module SearchParams {
  import opened Wrappers
  import opened Strings

  type Pair = (string, string)

  /** Some pair in `l` is named `name`. */
  predicate HasName(l: seq<Pair>, name: string) {
    exists j :: 0 <= j < |l| && l[j].0 == name
  }

  /** The index of the first pair named `name`. */
  function FirstIndex(l: seq<Pair>, name: string): (k: Option<nat>)
    ensures k.Some? <==> HasName(l, name)
    ensures k.Some? ==> k.value < |l| && l[k.value].0 == name
    ensures k.Some? ==> forall j :: 0 <= j < k.value ==> l[j].0 != name
  {
    if |l| == 0 then None
    else if l[0].0 == name then Some(0)
    else
      match FirstIndex(l[1..], name)
      case None =>
        assert forall j :: 1 <= j < |l| ==> l[j] == l[1..][j - 1];
        None
      case Some(k) => Some(k + 1)
  }

  /** `get(name)`: the value of the first pair named `name`, `null` when there is none. */
  function Get(l: seq<Pair>, name: string): (v: Option<string>)
    ensures v.Some? <==> HasName(l, name)
    ensures v.Some? ==> exists j :: 0 <= j < |l| && l[j] == (name, v.value) && forall i :: 0 <= i < j ==> l[i].0 != name
  {
    match FirstIndex(l, name)
    case None => None
    case Some(k) => Some(l[k].1)
  }

  /** The pairs of `l` not named `name`, in their order. */
  function Without(l: seq<Pair>, name: string): (r: seq<Pair>)
    ensures !HasName(r, name)
    ensures |r| <= |l|
    ensures !HasName(l, name) ==> r == l
    decreases |l|
  {
    if |l| == 0 then []
    else
      var init := l[..|l| - 1];
      assert forall j :: 0 <= j < |init| ==> init[j] == l[j];
      Without(init, name) + (if l[|l| - 1].0 == name then [] else [l[|l| - 1]])
  }

  /** Removing pairs distributes over concatenation. */
  lemma {:induction false} WithoutAppend(a: seq<Pair>, b: seq<Pair>, name: string)
    ensures Without(a + b, name) == Without(a, name) + Without(b, name)
    decreases |b|
  {
    if |b| > 0 {
      var b' := b[..|b| - 1];
      assert (a + b)[..|a + b| - 1] == a + b';
      assert (a + b)[|a + b| - 1] == b[|b| - 1];
      WithoutAppend(a, b', name);
    } else {
      assert a + b == a;
    }
  }

  /** A pair named `other` survives removing `name` exactly when it was there. */
  lemma {:induction false} WithoutKeepsOthers(l: seq<Pair>, name: string, other: string)
    requires other != name
    ensures HasName(Without(l, name), other) <==> HasName(l, other)
    decreases |l|
  {
    if |l| > 0 {
      var init := l[..|l| - 1];
      WithoutKeepsOthers(init, name, other);
      var last := l[|l| - 1];
      var tail := if last.0 == name then [] else [last];
      assert Without(l, name) == Without(init, name) + tail;
      if HasName(l, other) {
        var j :| 0 <= j < |l| && l[j].0 == other;
        if j < |init| {
          assert init[j].0 == other;
          var w := Without(init, name);
          var i :| 0 <= i < |w| && w[i].0 == other;
          assert (w + tail)[i].0 == other;
        } else {
          assert tail == [last] && (Without(init, name) + tail)[|Without(init, name)|].0 == other;
        }
      }
      if HasName(Without(l, name), other) {
        var w := Without(init, name);
        var i :| 0 <= i < |w + tail| && (w + tail)[i].0 == other;
        if i < |w| {
          assert w[i].0 == other;
          var j :| 0 <= j < |init| && init[j].0 == other;
          assert l[j].0 == other;
        } else {
          assert l[|l| - 1].0 == other;
        }
      }
    }
  }

  /** Removing two names gives the same list in either order. */
  lemma {:induction false} WithoutCommutes(l: seq<Pair>, a: string, b: string)
    ensures Without(Without(l, a), b) == Without(Without(l, b), a)
    decreases |l|
  {
    if |l| > 0 {
      var init := l[..|l| - 1];
      var last := l[|l| - 1];
      WithoutCommutes(init, a, b);
      var ta := if last.0 == a then [] else [last];
      var tb := if last.0 == b then [] else [last];
      WithoutAppend(Without(init, a), ta, b);
      WithoutAppend(Without(init, b), tb, a);
    }
  }

  /** Removing a name twice is removing it once. */
  lemma WithoutIdempotent(l: seq<Pair>, name: string)
    ensures Without(Without(l, name), name) == Without(l, name)
  {
  }

  /** The first pair named `name` in `a + [p] + b` is `p` when `a` has none. */
  lemma FirstIndexAt(a: seq<Pair>, p: Pair, b: seq<Pair>, name: string)
    requires !HasName(a, name) && p.0 == name
    ensures FirstIndex(a + [p] + b, name) == Some(|a|)
  {
    var l := a + [p] + b;
    assert l[|a|] == p;
    assert forall j :: 0 <= j < |a| ==> l[j] == a[j];
  }

  /** A prefix one longer is the prefix and the next pair. */
  lemma PrefixSnoc(l: seq<Pair>, i: nat)
    requires i < |l|
    ensures l[..i + 1] == l[..i] + [l[i]]
  {
  }

  lemma HasNameSnoc(l: seq<Pair>, p: Pair, name: string)
    ensures HasName(l + [p], name) <==> HasName(l, name) || p.0 == name
  {
    var l' := l + [p];
    assert l'[|l|] == p;
    assert forall j :: 0 <= j < |l| ==> l'[j] == l[j];
  }

  lemma WithoutSnoc(l: seq<Pair>, p: Pair, name: string)
    ensures Without(l + [p], name) == Without(l, name) + (if p.0 == name then [] else [p])
  {
    assert (l + [p])[..|l|] == l;
  }

  /** Removing pairs from `a + [p] + b`, piece by piece. */
  lemma WithoutThree(a: seq<Pair>, p: Pair, b: seq<Pair>, name: string)
    ensures Without(a + [p] + b, name) == Without(a, name) + (if p.0 == name then [] else [p]) + Without(b, name)
  {
    WithoutAppend(a + [p], b, name);
    WithoutAppend(a, [p], name);
    assert Without([p], name) == Without([], name) + (if p.0 == name then [] else [p]);
  }

  /** A list with a pair named `name` splits at the first one, with no such pair before it. */
  lemma SplitAtFirst(l: seq<Pair>, name: string)
    requires HasName(l, name)
    ensures var k := FirstIndex(l, name).value;
      l == l[..k] + [l[k]] + l[k + 1..] && !HasName(l[..k], name) && l[k].0 == name
  {
    var k := FirstIndex(l, name).value;
    assert l == l[..k] + [l[k]] + l[k + 1..];
    forall j | 0 <= j < k ensures l[..k][j].0 != name {
      assert l[..k][j] == l[j];
    }
  }

  /** The first pair named `name` after appending `p`: the old one, else `p` when it has the name. */
  lemma FirstIndexSnoc(l: seq<Pair>, p: Pair, name: string)
    ensures FirstIndex(l + [p], name) ==
      if HasName(l, name) then FirstIndex(l, name) else if p.0 == name then Some(|l|) else None
  {
    HasNameSnoc(l, p, name);
    if HasName(l, name) {
      SplitAtFirst(l, name);
      var k := FirstIndex(l, name).value;
      assert l + [p] == l[..k] + [l[k]] + (l[k + 1..] + [p]);
      FirstIndexAt(l[..k], l[k], l[k + 1..] + [p], name);
    } else if p.0 == name {
      assert l + [p] == l + [p] + [];
      FirstIndexAt(l, p, [], name);
    }
  }

  /** `get` after appending `p`: the old answer, else `p`'s value when it has the name. */
  lemma GetSnoc(l: seq<Pair>, p: Pair, name: string)
    ensures Get(l + [p], name) ==
      if HasName(l, name) then Get(l, name) else if p.0 == name then Some(p.1) else None
  {
    FirstIndexSnoc(l, p, name);
    if HasName(l, name) {
      assert (l + [p])[FirstIndex(l, name).value] == l[FirstIndex(l, name).value];
    } else if p.0 == name {
      assert (l + [p])[|l|] == p;
    }
  }

  /**
   * `set(name, value)`: the first pair named `name` takes the new value and
   * the later ones are removed; the pair is appended when there is none.
   */
  function SetPairs(l: seq<Pair>, name: string, value: string): (r: seq<Pair>)
  {
    match FirstIndex(l, name)
    case None => l + [(name, value)]
    case Some(k) => l[..k] + [(name, value)] + Without(l[k + 1..], name)
  }

  /** At most one pair of `a + [p] + b` has the name, when neither `a` nor `b` has it. */
  lemma OnlyMiddleNamed(a: seq<Pair>, p: Pair, b: seq<Pair>, name: string)
    requires !HasName(a, name) && !HasName(b, name)
    ensures var r := a + [p] + b;
      forall i, j :: 0 <= i < |r| && 0 <= j < |r| && r[i].0 == name && r[j].0 == name ==> i == j
  {
    var r := a + [p] + b;
    assert forall i :: 0 <= i < |a| ==> r[i] == a[i];
    assert forall i :: |a| < i < |r| ==> r[i] == b[i - |a| - 1];
  }

  /** After `set`, exactly one pair is named `name`, and `get` gives the new value. */
  lemma SetThenGet(l: seq<Pair>, name: string, value: string)
    ensures Get(SetPairs(l, name, value), name) == Some(value)
    ensures var r := SetPairs(l, name, value);
      forall i, j :: 0 <= i < |r| && 0 <= j < |r| && r[i].0 == name && r[j].0 == name ==> i == j
  {
    var pre, post;
    if HasName(l, name) {
      SplitAtFirst(l, name);
      var k := FirstIndex(l, name).value;
      pre, post := l[..k], Without(l[k + 1..], name);
      SetAt(l[..k], l[k], l[k + 1..], name, value);
    } else {
      pre, post := l, [];
    }
    var r := pre + [(name, value)] + post;
    assert SetPairs(l, name, value) == r;
    FirstIndexAt(pre, (name, value), post, name);
    assert r[|pre|] == (name, value);
    OnlyMiddleNamed(pre, (name, value), post, name);
  }

  /** Apart from the pair it writes, `set` leaves the list as it was: the other pairs in order. */
  lemma SetThenWithout(l: seq<Pair>, name: string, value: string)
    ensures Without(SetPairs(l, name, value), name) == Without(l, name)
  {
    if HasName(l, name) {
      SplitAtFirst(l, name);
      var k := FirstIndex(l, name).value;
      var pre, post := l[..k], l[k + 1..];
      SetAt(pre, l[k], post, name, value);
      WithoutThree(pre, (name, value), Without(post, name), name);
      WithoutIdempotent(post, name);
      WithoutThree(pre, l[k], post, name);
    } else {
      WithoutAppend(l, [(name, value)], name);
      assert Without([(name, value)], name) == Without([], name) + [];
    }
  }

  /** `set` on a list split at its first pair named `name`. */
  lemma SetAt(pre: seq<Pair>, p: Pair, post: seq<Pair>, name: string, value: string)
    requires !HasName(pre, name) && p.0 == name
    ensures SetPairs(pre + [p] + post, name, value) == pre + [(name, value)] + Without(post, name)
  {
    var l := pre + [p] + post;
    FirstIndexAt(pre, p, post, name);
    assert l[..|pre|] == pre;
    assert l[|pre| + 1..] == post;
  }

  /** Appending `p` after the first pair named `name`: `set` keeps it unless it has the name. */
  lemma SetPairsSnoc(l: seq<Pair>, p: Pair, name: string, value: string)
    requires HasName(l, name)
    ensures SetPairs(l + [p], name, value) == SetPairs(l, name, value) + (if p.0 == name then [] else [p])
  {
    SplitAtFirst(l, name);
    var k := FirstIndex(l, name).value;
    var l' := l + [p];
    FirstIndexSnoc(l, p, name);
    assert l'[..k] == l[..k];
    assert l'[k + 1..] == l[k + 1..] + [p];
    WithoutSnoc(l[k + 1..], p, name);
  }

  /** Appending the first pair named `name`: `set` writes the value in its place. */
  lemma SetPairsFirst(l: seq<Pair>, p: Pair, name: string, value: string)
    requires !HasName(l, name) && p.0 == name
    ensures SetPairs(l + [p], name, value) == l + [(name, value)]
  {
    assert l + [p] == l + [p] + [];
    SetAt(l, p, [], name, value);
    assert Without([], name) == [];
  }

  /** Removing another name before or after `set` gives the same list. */
  lemma SetCommutesWithOther(l: seq<Pair>, name: string, value: string, other: string)
    requires other != name
    ensures Without(SetPairs(l, name, value), other) == SetPairs(Without(l, other), name, value)
  {
    WithoutKeepsOthers(l, other, name);
    match FirstIndex(l, name)
    case None =>
      WithoutAppend(l, [(name, value)], other);
      assert Without([(name, value)], other) == [(name, value)] by {
        assert Without([(name, value)], other) == Without([], other) + [(name, value)];
      }
    case Some(k) =>
      var pre := l[..k];
      var post := l[k + 1..];
      assert l == pre + [l[k]] + post;
      assert !HasName(pre, name) by {
        forall j | 0 <= j < k ensures pre[j].0 != name { assert pre[j] == l[j]; }
      }
      SetAt(pre, l[k], post, name, value);
      WithoutThree(pre, (name, value), Without(post, name), other);
      WithoutThree(pre, l[k], post, other);
      WithoutKeepsOthers(pre, other, name);
      SetAt(Without(pre, other), l[k], Without(post, other), name, value);
      WithoutCommutes(post, name, other);
  }

  /** `delete(name)` removes every pair named `name`; `get` then finds none. */
  lemma DeleteThenGet(l: seq<Pair>, name: string)
    ensures Get(Without(l, name), name) == None
  {
  }

  /** Removing one name does not change what `get` answers for another. */
  lemma {:induction false} DeleteKeepsGet(l: seq<Pair>, name: string, other: string)
    requires other != name
    ensures Get(Without(l, name), other) == Get(l, other)
    decreases |l|
  {
    if |l| > 0 {
      var init, last := l[..|l| - 1], l[|l| - 1];
      assert l == init + [last];
      DeleteKeepsGet(init, name, other);
      WithoutKeepsOthers(init, name, other);
      GetSnoc(init, last, other);
      var w := Without(init, name);
      if last.0 == name {
        assert Without(l, name) == w + [];
        assert w + [] == w;
      } else {
        assert Without(l, name) == w + [last];
        GetSnoc(w, last, other);
      }
    }
  }

  /** The UTF-8 encoding of one scalar value, as byte values. */
  function Utf8(c: char): (bytes: seq<nat>)
    ensures 1 <= |bytes| <= 4
    ensures forall i :: 0 <= i < |bytes| ==> bytes[i] < 256
    ensures (c as int) < 0x80 <==> |bytes| == 1
    ensures |bytes| == 1 ==> bytes[0] == c as int
    ensures |bytes| > 1 ==> bytes[0] >= 0xC0 && forall i :: 1 <= i < |bytes| ==> 0x80 <= bytes[i] < 0xC0
  {
    var n := c as int;
    if n < 0x80 then [n]
    else if n < 0x800 then [0xC0 + n / 64, 0x80 + n % 64]
    else if n < 0x10000 then [0xE0 + n / 4096, 0x80 + (n / 64) % 64, 0x80 + n % 64]
    else [0xF0 + n / 262144, 0x80 + (n / 4096) % 64, 0x80 + (n / 64) % 64, 0x80 + n % 64]
  }

  /** The characters the urlencoded serialiser writes as they are. */
  predicate IsUnreserved(c: char) {
    ('a' <= c <= 'z') || ('A' <= c <= 'Z') || ('0' <= c <= '9') || c == '*' || c == '-' || c == '.' || c == '_'
  }

  function HexDigit(d: nat): (c: char)
    requires d < 16
    ensures ('0' <= c <= '9') || ('A' <= c <= 'F')
  {
    "0123456789ABCDEF"[d]
  }

  /** `%XX` for each byte, with upper-case hex digits. */
  function PercentBytes(bytes: seq<nat>): (s: string)
    requires forall i :: 0 <= i < |bytes| ==> bytes[i] < 256
    ensures |s| == 3 * |bytes|
    ensures forall i :: 0 <= i < |s| ==> s[i] == '%' || ('0' <= s[i] <= '9') || ('A' <= s[i] <= 'F')
  {
    if |bytes| == 0 then ""
    else ['%', HexDigit(bytes[0] / 16), HexDigit(bytes[0] % 16)] + PercentBytes(bytes[1..])
  }

  /** One character of a name or value: space as `+`, the unreserved set as is, the rest percent-encoded. */
  function EncodeChar(c: char): (s: string)
    ensures '&' !in s && '=' !in s
    ensures IsUnreserved(c) ==> s == [c]
    ensures c == ' ' ==> s == "+"
  {
    if c == ' ' then "+"
    else if IsUnreserved(c) then [c]
    else PercentBytes(Utf8(c))
  }

  /** The urlencoded byte serialiser applied to a whole string. */
  function Encode(s: string): (r: string)
    ensures |r| >= |s|
  {
    if |s| == 0 then "" else EncodeChar(s[0]) + Encode(s[1..])
  }

  /** A string of unreserved characters encodes as itself. */
  lemma {:induction false} EncodeUnreserved(s: string)
    requires forall i :: 0 <= i < |s| ==> IsUnreserved(s[i])
    ensures Encode(s) == s
    decreases |s|
  {
    if |s| > 0 {
      assert IsUnreserved(s[0]);
      EncodeUnreserved(s[1..]);
      assert [s[0]] + s[1..] == s;
    }
  }

  /** An encoded string holds neither separator of the serialisation. */
  lemma {:induction false} EncodeHasNoSeparators(s: string)
    ensures '&' !in Encode(s) && '=' !in Encode(s)
    decreases |s|
  {
    if |s| > 0 {
      EncodeHasNoSeparators(s[1..]);
    }
  }

  /** `name=value`, each side encoded. */
  function EncodePair(p: Pair): string {
    Encode(p.0) + "=" + Encode(p.1)
  }

  /** An encoded pair has no `&`, and splits at `=` into its encoded name and value. */
  lemma EncodePairSplits(p: Pair)
    ensures '&' !in EncodePair(p)
    ensures Split(EncodePair(p), '=') == [Encode(p.0), Encode(p.1)]
  {
    EncodeHasNoSeparators(p.0);
    EncodeHasNoSeparators(p.1);
    var parts := [Encode(p.0), Encode(p.1)];
    assert parts[1..] == [Encode(p.1)];
    assert Join(parts, "=") == EncodePair(p);
    SplitJoin(parts, '=');
  }

  /** The encoded pairs, in order. */
  function EncodedPairs(l: seq<Pair>): (r: seq<string>)
    ensures |r| == |l|
    decreases |l|
  {
    if |l| == 0 then [] else EncodedPairs(l[..|l| - 1]) + [EncodePair(l[|l| - 1])]
  }

  /** The `i`-th encoded pair is the encoding of the `i`-th pair. */
  lemma {:induction false} EncodedPairsAt(l: seq<Pair>, i: nat)
    requires i < |l|
    ensures EncodedPairs(l)[i] == EncodePair(l[i])
    decreases |l|
  {
    var init := l[..|l| - 1];
    var front := EncodedPairs(init);
    var last := EncodePair(l[|l| - 1]);
    assert EncodedPairs(l) == front + [last];
    if i < |init| {
      EncodedPairsAt(init, i);
      assert init[i] == l[i];
      assert (front + [last])[i] == front[i];
    } else {
      assert (front + [last])[i] == last;
    }
  }

  /** `toString()`: the encoded pairs, separated by `&`. */
  function Serialize(l: seq<Pair>): string
    decreases |l|
  {
    if |l| == 0 then ""
    else if |l| == 1 then EncodePair(l[0])
    else Serialize(l[..|l| - 1]) + "&" + EncodePair(l[|l| - 1])
  }

  /** The serialisation is the encoded pairs joined with `&`. */
  lemma {:induction false} SerializeIsJoin(l: seq<Pair>)
    ensures Serialize(l) == Join(EncodedPairs(l), "&")
    decreases |l|
  {
    if |l| > 0 {
      var init := l[..|l| - 1];
      SerializeIsJoin(init);
      JoinSnoc(EncodedPairs(init), EncodePair(l[|l| - 1]), "&");
    }
  }

  /** Splitting the serialisation at `&` recovers one piece per pair, and each piece splits at `=` into name and value. */
  lemma SerializeSplits(l: seq<Pair>)
    requires |l| >= 1
    ensures Split(Serialize(l), '&') == EncodedPairs(l)
    ensures forall i :: 0 <= i < |l| ==> Split(EncodedPairs(l)[i], '=') == [Encode(l[i].0), Encode(l[i].1)]
  {
    SerializeIsJoin(l);
    forall i | 0 <= i < |l|
      ensures '&' !in EncodedPairs(l)[i]
      ensures Split(EncodedPairs(l)[i], '=') == [Encode(l[i].0), Encode(l[i].1)]
    {
      EncodedPairsAt(l, i);
      EncodePairSplits(l[i]);
    }
    SplitJoin(EncodedPairs(l), '&');
  }

  lemma {:induction false} JoinSnoc(parts: seq<string>, p: string, sep: string)
    ensures Join(parts + [p], sep) == if |parts| == 0 then p else Join(parts, sep) + sep + p
    decreases |parts|
  {
    if |parts| > 1 {
      assert (parts + [p])[1..] == parts[1..] + [p];
      JoinSnoc(parts[1..], p, sep);
    } else if |parts| == 1 {
      assert (parts + [p])[1..] == [p];
    } else {
      assert parts + [p] == [p];
    }
  }

  /** One step of `toString`: the serialisation of a prefix, extended by the next pair. */
  lemma SerializeStep(l: seq<Pair>, i: nat, s: string)
    requires i < |l| && s == Serialize(l[..i])
    ensures Serialize(l[..i + 1]) == if i == 0 then EncodePair(l[i]) else s + "&" + EncodePair(l[i])
  {
    PrefixSnoc(l, i);
    assert l[..i + 1][..i] == l[..i];
  }

  lemma PrefixAll(l: seq<Pair>)
    ensures l[..|l|] == l
  {
  }

  /** A `URLSearchParams` object: its list of pairs, updated in place. */
  class URLSearchParams {
    var list: seq<Pair>

    /** `new URLSearchParams(init)`: a copy of another object's pairs. */
    constructor (init: seq<Pair>)
      ensures list == init
    {
      list := init;
    }

    /** `set(name, value)`, as section 6.2 of the URL Standard describes it. */
    method Set(name: string, value: string)
      modifies this
      ensures list == SetPairs(old(list), name, value)
    {
      var l := list;
      var out: seq<Pair> := [];
      var found := false;
      var i := 0;
      while i < |l|
        invariant 0 <= i <= |l|
        invariant found <==> HasName(l[..i], name)
        invariant out == if found then SetPairs(l[..i], name, value) else l[..i]
      {
        PrefixSnoc(l, i);
        HasNameSnoc(l[..i], l[i], name);
        if found {
          SetPairsSnoc(l[..i], l[i], name, value);
          if l[i].0 != name {
            out := out + [l[i]];
          }
        } else if l[i].0 == name {
          SetPairsFirst(l[..i], l[i], name, value);
          found := true;
          out := out + [(name, value)];
        } else {
          out := out + [l[i]];
        }
        i := i + 1;
      }
      assert l[..|l|] == l;
      if !found {
        out := out + [(name, value)];
      }
      list := out;
    }

    /** `delete(name)`: every pair named `name` is removed. */
    method Delete(name: string)
      modifies this
      ensures list == Without(old(list), name)
    {
      var l := list;
      var out: seq<Pair> := [];
      var i := 0;
      while i < |l|
        invariant 0 <= i <= |l|
        invariant out == Without(l[..i], name)
      {
        assert l[..i + 1][..i] == l[..i];
        if l[i].0 != name {
          out := out + [l[i]];
        }
        i := i + 1;
      }
      assert l[..|l|] == l;
      list := out;
    }

    /** `toString()`: the urlencoded serialisation. */
    method ToString() returns (s: string)
      ensures s == Serialize(list)
    {
      var l := list;
      s := "";
      var i := 0;
      while i < |l|
        invariant 0 <= i <= |l|
        invariant s == Serialize(l[..i])
      {
        SerializeStep(l, i, s);
        var piece := EncodePair(l[i]);
        if i == 0 {
          s := piece;
        } else {
          s := s + "&" + piece;
        }
        i := i + 1;
      }
      PrefixAll(l);
    }
  }
}
