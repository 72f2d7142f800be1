/**
 The small part of JavaScript's value semantics that the map scripts rely on:
 optional values, truthiness (what `x || fallback` and `x ? a : b` test),
 decimal rendering of array lengths, and the number formatters the popups call.
 */
module Js {

  datatype Option<+T> = None | Some(value: T)

  /** A string property is truthy when present and non-empty. */
  predicate TruthyText(s: Option<string>) {
    s.Some? && s.value != ""
  }

  /** A defined number is truthy unless it is zero (NaN is outside the model). */
  predicate TruthyNumber(x: real) {
    x != 0.0
  }

  /** An optional number (an absent array slot reads as undefined) is truthy when present and non-zero. */
  predicate TruthyOptNumber(x: Option<real>) {
    x.Some? && TruthyNumber(x.value)
  }

  /** `s || fallback` for a string property. */
  function TextOr(s: Option<string>, fallback: string): (r: string)
    ensures TruthyText(s) ==> r == s.value
    ensures !TruthyText(s) ==> r == fallback
  {
    if TruthyText(s) then s.value else fallback
  }

  predicate NumeralChar(c: char) {
    c in "0123456789.-+e"
  }

  predicate IsNumeral(s: string) {
    forall i :: 0 <= i < |s| ==> NumeralChar(s[i])
  }

  /** What Number.prototype.toString and toFixed produce for a finite number: digits, sign, point, exponent. */
  type Numeral = s: string | IsNumeral(s) witness "0"

  /** What `new Date(t)` is given: epoch milliseconds (the seismic feed) or an ISO 8601 text (the alert feed). */
  datatype Timestamp = EpochMillis(ms: int) | IsoText(text: string)

  /**
   The platform's formatters, left uninterpreted: they depend on the locale and
   on floating-point printing. `number` is `String(x)`, `fixed(x, d)` is
   `x.toFixed(d)`, `localeDate(t)` is `new Date(t).toLocaleString()`.
   */
  datatype Formats = Formats(
    number: real -> Numeral,
    fixed: (real, nat) -> Numeral,
    localeDate: Timestamp -> string)

  /** `x || fallback` for a number that is concatenated into text. */
  function NumberOr(fmt: Formats, x: real, fallback: string): (r: string)
    ensures TruthyNumber(x) ==> r == fmt.number(x)
    ensures !TruthyNumber(x) ==> r == fallback
  {
    if TruthyNumber(x) then fmt.number(x) else fallback
  }

  predicate IsDigit(c: char) {
    '0' <= c <= '9'
  }

  predicate IsDigits(s: string) {
    forall i :: 0 <= i < |s| ==> IsDigit(s[i])
  }

  function DigitChar(d: nat): (c: char)
    requires d < 10
    ensures IsDigit(c) && c as int - '0' as int == d
  {
    ('0' as int + d) as char
  }

  /** How JavaScript prints a non-negative integer such as `features.length`: decimal, no leading zeros. */
  function NatText(n: nat): (s: string)
    ensures |s| >= 1 && IsDigits(s)
    ensures s[0] == '0' ==> n == 0
  {
    if n < 10 then [DigitChar(n)] else NatText(n / 10) + [DigitChar(n % 10)]
  }

  /** Reads a decimal digit string back into the number it denotes. */
  function DecimalValue(s: string): nat
    requires IsDigits(s)
  {
    if s == [] then 0
    else DecimalValue(s[..|s| - 1]) * 10 + (s[|s| - 1] as int - '0' as int)
  }

  /** Printing a length and reading it back gives the length: the count in a status line is exact. */
  lemma {:induction false} NatTextRoundTrip(n: nat)
    ensures DecimalValue(NatText(n)) == n
  {
    if n >= 10 {
      var s := NatText(n);
      assert s[..|s| - 1] == NatText(n / 10);
      NatTextRoundTrip(n / 10);
    }
  }

  /** Two different lengths never print the same way. */
  lemma NatTextInjective(m: nat, n: nat)
    requires NatText(m) == NatText(n)
    ensures m == n
  {
    NatTextRoundTrip(m);
    NatTextRoundTrip(n);
  }

  /** `xs.map(f)`, or a loop that pushes `f(x)` for each `x` in turn. */
  function Collect<A, B>(xs: seq<A>, f: A -> B): (ys: seq<B>)
    ensures |ys| == |xs|
    ensures forall i :: 0 <= i < |xs| ==> ys[i] == f(xs[i])
  {
    seq(|xs|, i requires 0 <= i < |xs| => f(xs[i]))
  }

  /** Handling one more element appends its image. */
  lemma CollectExtend<A, B>(xs: seq<A>, i: nat, f: A -> B)
    requires i < |xs|
    ensures Collect(xs[..i + 1], f) == Collect(xs[..i], f) + [f(xs[i])]
  {
    var longer, shorter := Collect(xs[..i + 1], f), Collect(xs[..i], f) + [f(xs[i])];
    forall k | 0 <= k < i + 1
      ensures longer[k] == shorter[k]
    {
      assert xs[..i + 1][k] == xs[k];
    }
  }

  /**
   One own property of a plain object whose key is an array index ("3", "7", ...).
   The model is meant for literals like the colour table: keys distinct and
   below 2^32 - 1. A repeated key in a real literal keeps one property, and a
   larger integer key is not an array index and keeps insertion order; neither
   case is modelled.
   */
  datatype Property<V> = Property(key: nat, value: V)

  predicate KeysAscending<V>(props: seq<Property<V>>) {
    forall i, j :: 0 <= i < j < |props| ==> props[i].key <= props[j].key
  }

  function InsertByKey<V>(p: Property<V>, props: seq<Property<V>>): seq<Property<V>> {
    if props == [] || p.key <= props[0].key then [p] + props
    else [props[0]] + InsertByKey(p, props[1..])
  }

  /**
   The order in which `for (k in obj)` visits an object literal whose keys are
   all array indices. Section 10.1.11.1 of ECMA-262 (OrdinaryOwnPropertyKeys)
   lists such keys in ascending numeric order, whatever order the literal
   wrote them in; `props` is the literal as written.
   */
  function IndexOrder<V>(props: seq<Property<V>>): seq<Property<V>> {
    if props == [] then [] else InsertByKey(props[0], IndexOrder(props[1..]))
  }

  lemma {:induction false} InsertByKeyPermutes<V>(p: Property<V>, props: seq<Property<V>>)
    ensures multiset(InsertByKey(p, props)) == multiset(props) + multiset{p}
  {
    if props != [] && p.key > props[0].key {
      InsertByKeyPermutes(p, props[1..]);
      assert props == [props[0]] + props[1..];
    }
  }

  lemma {:induction false} InsertByKeyMembers<V>(p: Property<V>, props: seq<Property<V>>)
    ensures forall x :: x in InsertByKey(p, props) ==> x == p || x in props
  {
    if props != [] && p.key > props[0].key {
      InsertByKeyMembers(p, props[1..]);
    }
  }

  lemma {:induction false} InsertByKeySorted<V>(p: Property<V>, props: seq<Property<V>>)
    requires KeysAscending(props)
    ensures KeysAscending(InsertByKey(p, props))
  {
    if props != [] && p.key > props[0].key {
      var rest := InsertByKey(p, props[1..]);
      InsertByKeySorted(p, props[1..]);
      InsertByKeyMembers(p, props[1..]);
      forall k | 0 <= k < |rest| ensures props[0].key <= rest[k].key {
        assert rest[k] in rest;
      }
    }
  }

  /** The visiting order holds the same properties as the literal, each as often. */
  lemma {:induction false} IndexOrderPermutes<V>(props: seq<Property<V>>)
    ensures multiset(IndexOrder(props)) == multiset(props)
  {
    if props != [] {
      IndexOrderPermutes(props[1..]);
      InsertByKeyPermutes(props[0], IndexOrder(props[1..]));
      assert props == [props[0]] + props[1..];
    }
  }

  /** The visiting order is ascending in the keys. */
  lemma {:induction false} IndexOrderSorted<V>(props: seq<Property<V>>)
    ensures KeysAscending(IndexOrder(props))
  {
    if props != [] {
      IndexOrderSorted(props[1..]);
      InsertByKeySorted(props[0], IndexOrder(props[1..]));
    }
  }

  /** Inserting a key above every key present appends it. */
  lemma {:induction false} InsertLargest<V>(p: Property<V>, props: seq<Property<V>>)
    requires forall i :: 0 <= i < |props| ==> props[i].key < p.key
    ensures InsertByKey(p, props) == props + [p]
  {
    if props != [] {
      InsertLargest(p, props[1..]);
      assert props == [props[0]] + props[1..];
    }
  }

  /** A literal written in descending key order is visited in exactly the reverse order. */
  lemma {:induction false} IndexOrderOfDescending<V>(props: seq<Property<V>>)
    requires forall i, j :: 0 <= i < j < |props| ==> props[i].key > props[j].key
    ensures |IndexOrder(props)| == |props|
    ensures forall i :: 0 <= i < |props| ==> IndexOrder(props)[i] == props[|props| - 1 - i]
  {
    if props != [] {
      var rest := IndexOrder(props[1..]);
      IndexOrderOfDescending(props[1..]);
      InsertLargest(props[0], rest);
    }
  }

  predicate StartsWith(s: string, prefix: string) {
    |prefix| <= |s| && s[..|prefix|] == prefix
  }

  predicate EndsWith(s: string, suffix: string) {
    |suffix| <= |s| && s[|s| - |suffix|..] == suffix
  }

  /** `s` reads `lead`, then the decimal number `n` without leading zeros, then `tail`. */
  predicate ShowsCount(s: string, lead: string, tail: string, n: nat) {
    && |lead| + |tail| < |s|
    && StartsWith(s, lead)
    && EndsWith(s, tail)
    && IsDigits(s[|lead|..|s| - |tail|])
    && (s[|lead|] == '0' ==> |s| - |lead| - |tail| == 1)
    && DecimalValue(s[|lead|..|s| - |tail|]) == n
  }

  /** `lead + n + tail` in JavaScript shows the count `n`, and no other. */
  lemma CountInText(lead: string, n: nat, tail: string)
    ensures ShowsCount(lead + NatText(n) + tail, lead, tail, n)
    ensures forall m: nat :: ShowsCount(lead + NatText(n) + tail, lead, tail, m) ==> m == n
  {
    var s := lead + NatText(n) + tail;
    assert s[|lead|..|s| - |tail|] == NatText(n);
    assert s[..|lead|] == lead;
    assert s[|s| - |tail|..] == tail;
    NatTextRoundTrip(n);
  }
}
