/** Values and helpers shared by every store: parsed JSON, Python truthiness,
    the list comprehensions the handlers chain together, `next(...)` lookups,
    ASCII case folding, substring tests and decimal integers. */
module Common {

  datatype Option<T> = None | Some(value: T)

  datatype Result<T, E> = Ok(value: T) | Err(error: E)

  /** A `jsonify({'error': message}), status` reply. */
  datatype HttpError = HttpError(status: int, message: string)

  /** A parsed JSON value. Numbers are integers; an object maps keys to values. */
  datatype Json =
    | JNull
    | JBool(b: bool)
    | JNum(n: int)
    | JStr(s: string)
    | JArr(items: seq<Json>)
    | JObj(fields: map<string, Json>)

  /** A JSON object, as Python's `dict` after parsing. */
  type Object = map<string, Json>

  /** Python's truth value of a parsed JSON value. */
  predicate Truthy(j: Json) {
    match j
    case JNull => false
    case JBool(b) => b
    case JNum(n) => n != 0
    case JStr(s) => s != ""
    case JArr(xs) => xs != []
    case JObj(m) => m != map[]
  }

  /** `d.get(k)`: the value under `k`, or None when the key is absent. */
  function Get(d: Object, k: string): Option<Json> {
    if k in d then Some(d[k]) else None
  }

  /** `d.get(k, default)`. */
  function GetOr(d: Object, k: string, default: Json): Json {
    if k in d then d[k] else default
  }

  /** `d.get(k)` followed by Python's `None` for an absent key. */
  function OrNull(v: Option<Json>): Json {
    if v.Some? then v.value else JNull
  }

  /** A query parameter passes an `if param:` guard: present and non-empty. */
  predicate Given(q: Option<string>) {
    q.Some? && q.value != ""
  }

  /** `value == param` for a JSON value and a string query parameter. */
  predicate IsText(v: Json, q: Option<string>) {
    q.Some? && v == JStr(q.value)
  }

  /** `d.get(k) == param`: an absent key reads as None and never equals a string. */
  predicate FieldIs(d: Object, k: string, q: Option<string>) {
    q.Some? && Get(d, k) == Some(JStr(q.value))
  }

  // ---------------------------------------------------------------------
  // List comprehensions
  // ---------------------------------------------------------------------

  /** `[x for x in s if p(x)]`. */
  function Filter<T>(s: seq<T>, p: T -> bool): (r: seq<T>)
    ensures |r| <= |s|
    ensures forall i :: 0 <= i < |r| ==> r[i] in s && p(r[i])
    ensures forall i :: 0 <= i < |s| && p(s[i]) ==> s[i] in r
  {
    if s == [] then []
    else if p(s[0]) then [s[0]] + Filter(s[1..], p)
    else Filter(s[1..], p)
  }

  /** One stage of a handler's filter chain: `if param: s = [x for x in s if p(x)]`. */
  function Refine<T>(s: seq<T>, on: bool, p: T -> bool): seq<T> {
    if on then Filter(s, p) else s
  }

  lemma {:induction false} FilterAppend<T>(a: seq<T>, b: seq<T>, p: T -> bool)
    ensures Filter(a + b, p) == Filter(a, p) + Filter(b, p)
  {
    if a == [] {
      assert a + b == b;
    } else {
      assert (a + b)[0] == a[0];
      assert (a + b)[1..] == a[1..] + b;
      FilterAppend(a[1..], b, p);
    }
  }

  /** Filtering with predicates that agree on every element gives the same list. */
  lemma {:induction false} FilterExt<T>(s: seq<T>, p: T -> bool, q: T -> bool)
    requires forall x :: x in s ==> p(x) == q(x)
    ensures Filter(s, p) == Filter(s, q)
  {
    if s != [] {
      assert forall x :: x in s[1..] ==> x in s;
      FilterExt(s[1..], p, q);
    }
  }

  /** A filter that keeps everything returns the list unchanged. */
  lemma {:induction false} FilterAll<T>(s: seq<T>, p: T -> bool)
    requires forall x :: x in s ==> p(x)
    ensures Filter(s, p) == s
  {
    if s != [] {
      assert forall x :: x in s[1..] ==> x in s;
      FilterAll(s[1..], p);
    }
  }

  /** Two successive comprehensions are one comprehension over the conjunction. */
  lemma {:induction false} FilterFuse<T>(s: seq<T>, p: T -> bool, q: T -> bool, both: T -> bool)
    requires forall x :: both(x) == (p(x) && q(x))
    ensures Filter(Filter(s, p), q) == Filter(s, both)
  {
    if s != [] {
      FilterFuse(s[1..], p, q, both);
    }
  }

  /** A guarded stage after a filter is one filter over "the earlier tests and, if on, p". */
  lemma RefineStep<T>(s: seq<T>, acc: T -> bool, on: bool, p: T -> bool, conj: T -> bool)
    requires forall x :: conj(x) == (acc(x) && (on ==> p(x)))
    ensures Refine(Filter(s, acc), on, p) == Filter(s, conj)
  {
    if on {
      FilterFuse(s, acc, p, conj);
    } else {
      FilterExt(s, acc, conj);
    }
  }

  /** The first guarded stage of a chain is one filter over "if on, p". */
  lemma RefineFirst<T>(s: seq<T>, on: bool, p: T -> bool, conj: T -> bool)
    requires forall x :: conj(x) == (on ==> p(x))
    ensures Refine(s, on, p) == Filter(s, conj)
  {
    if on {
      FilterExt(s, p, conj);
    } else {
      FilterAll(s, conj);
    }
  }

  /** A handler's whole chain of guarded stages, applied in order. */
  datatype Stage<!T> = Stage(on: bool, test: T -> bool)

  function Chain<T>(s: seq<T>, stages: seq<Stage<T>>): seq<T>
    decreases |stages|
  {
    if stages == [] then s
    else Refine(Chain(s, stages[..|stages| - 1]), stages[|stages| - 1].on, stages[|stages| - 1].test)
  }

  /** An element passes every stage that is switched on. */
  predicate PassesAll<T>(stages: seq<Stage<T>>, x: T) {
    forall k :: 0 <= k < |stages| ==> (stages[k].on ==> stages[k].test(x))
  }

  /** PassesAll over a list of stages, one stage at a time from the front. */
  lemma PassesAllCons<T>(stages: seq<Stage<T>>, x: T)
    requires stages != []
    ensures PassesAll(stages, x) == ((stages[0].on ==> stages[0].test(x)) && PassesAll(stages[1..], x))
  {
    if PassesAll(stages[1..], x) && (stages[0].on ==> stages[0].test(x)) {
      forall k | 0 <= k < |stages|
        ensures stages[k].on ==> stages[k].test(x)
      {
        if k > 0 {
          assert stages[k] == stages[1..][k - 1];
        }
      }
    }
  }

  /** PassesAll over five stages is the conjunction of the five guarded tests. */
  lemma PassesAllFive<T>(a: Stage<T>, b: Stage<T>, c: Stage<T>, d: Stage<T>, e: Stage<T>, x: T)
    ensures PassesAll([a, b, c, d, e], x) ==
      ((a.on ==> a.test(x)) && (b.on ==> b.test(x)) && (c.on ==> c.test(x)) && (d.on ==> d.test(x)) && (e.on ==> e.test(x)))
  {
    var st := [a, b, c, d, e];
    PassesAllCons(st, x);
    PassesAllCons(st[1..], x);
    PassesAllCons(st[2..], x);
    PassesAllCons(st[3..], x);
    PassesAllCons(st[4..], x);
    assert st[5..] == [];
  }

  /** PassesAll over four stages is the conjunction of the four guarded tests. */
  lemma PassesAllFour<T>(a: Stage<T>, b: Stage<T>, c: Stage<T>, d: Stage<T>, x: T)
    ensures PassesAll([a, b, c, d], x) ==
      ((a.on ==> a.test(x)) && (b.on ==> b.test(x)) && (c.on ==> c.test(x)) && (d.on ==> d.test(x)))
  {
    var st := [a, b, c, d];
    PassesAllCons(st, x);
    PassesAllCons(st[1..], x);
    PassesAllCons(st[2..], x);
    PassesAllCons(st[3..], x);
    assert st[4..] == [];
  }

  /** A chain of guarded comprehensions keeps exactly the elements passing every
      switched-on stage, in their original order. */
  lemma {:induction false} ChainIsConjunction<T>(s: seq<T>, stages: seq<Stage<T>>, conj: T -> bool)
    requires forall x :: conj(x) == PassesAll(stages, x)
    ensures Chain(s, stages) == Filter(s, conj)
    decreases |stages|
  {
    if stages == [] {
      FilterAll(s, conj);
    } else {
      var init := stages[..|stages| - 1];
      var last := stages[|stages| - 1];
      var acc := (x: T) => PassesAll(init, x);
      ChainIsConjunction(s, init, acc);
      forall x
        ensures conj(x) == (acc(x) && (last.on ==> last.test(x)))
      {
        assert forall k :: 0 <= k < |init| ==> init[k] == stages[k];
      }
      RefineStep(s, acc, last.on, last.test, conj);
    }
  }

  /** Replacing one element changes the size of a filtered list only by that element. */
  lemma {:induction false} FilterCountUpdate<T>(s: seq<T>, i: nat, x: T, p: T -> bool)
    requires i < |s|
    ensures |Filter(s[i := x], p)| ==
      |Filter(s, p)| - (if p(s[i]) then 1 else 0) + (if p(x) then 1 else 0)
  {
    if i > 0 {
      assert s[i := x][1..] == s[1..][i - 1 := x];
      FilterCountUpdate(s[1..], i - 1, x, p);
    } else {
      assert s[i := x][1..] == s[1..];
    }
  }

  /** `next((i for i, x in enumerate(s) if p(x)), None)`: the first index satisfying p. */
  function FindFirst<T>(s: seq<T>, p: T -> bool): (r: Option<nat>)
    ensures r.Some? ==> r.value < |s| && p(s[r.value])
    ensures r.Some? ==> forall j :: 0 <= j < r.value ==> !p(s[j])
    ensures r.None? <==> forall j :: 0 <= j < |s| ==> !p(s[j])
  {
    if s == [] then None
    else if p(s[0]) then Some(0)
    else match FindFirst(s[1..], p)
      case None => None
      case Some(k) => Some(k + 1)
  }

  /** The first match is decided by the test's values alone: two lists whose
      elements answer the two tests alike have their first match at the same place. */
  lemma FindFirstAgree<T, U>(s: seq<T>, p: T -> bool, t: seq<U>, q: U -> bool)
    requires |s| == |t|
    requires forall i :: 0 <= i < |s| ==> p(s[i]) == q(t[i])
    ensures FindFirst(s, p) == FindFirst(t, q)
  {
    var a, b := FindFirst(s, p), FindFirst(t, q);
    if a.Some? {
      assert q(t[a.value]);
    }
    if b.Some? {
      assert p(s[b.value]);
    }
  }

  /** Appending after a match does not move the first match. */
  lemma FindFirstAppend<T>(s: seq<T>, extra: seq<T>, p: T -> bool)
    requires FindFirst(s, p).Some?
    ensures FindFirst(s + extra, p) == FindFirst(s, p)
  {
    var a := FindFirst(s, p).value;
    assert (s + extra)[a] == s[a];
    assert forall j :: 0 <= j < a ==> (s + extra)[j] == s[j];
  }

  // ---------------------------------------------------------------------
  // Text
  // ---------------------------------------------------------------------

  /** `str.lower()` restricted to ASCII letters. */
  function LowerChar(c: char): char {
    if 'A' <= c <= 'Z' then (c as int + 32) as char else c
  }

  function Lower(s: string): string {
    seq(|s|, i requires 0 <= i < |s| => LowerChar(s[i]))
  }

  /** Python's `needle in hay` on strings. */
  predicate Contains(hay: string, needle: string)
    decreases |hay|
  {
    needle <= hay || (hay != [] && Contains(hay[1..], needle))
  }

  /** An occurrence of the needle at offset i makes the substring test succeed. */
  lemma {:induction false} ContainsAt(hay: string, needle: string, i: nat)
    requires i + |needle| <= |hay| && hay[i..i + |needle|] == needle
    ensures Contains(hay, needle)
    decreases i
  {
    if i == 0 {
      assert needle <= hay;
    } else {
      assert hay[1..][i - 1..i - 1 + |needle|] == hay[i..i + |needle|];
      ContainsAt(hay[1..], needle, i - 1);
    }
  }

  /** Case-insensitive substring test: `needle.lower() in hay.lower()`. */
  predicate ContainsFolded(hay: string, needle: string) {
    Contains(Lower(hay), Lower(needle))
  }

  // ---------------------------------------------------------------------
  // Decimal integers: `str(n)` and `int(s)`
  // ---------------------------------------------------------------------

  predicate IsDigit(c: char) {
    '0' <= c <= '9'
  }

  function DigitChar(d: nat): char
    requires d < 10
  {
    (d + '0' as int) as char
  }

  function DigitValue(c: char): nat
    requires IsDigit(c)
  {
    c as int - '0' as int
  }

  /** `str(n)` for a non-negative integer. */
  function NatToString(n: nat): (s: string)
    ensures s != [] && forall i :: 0 <= i < |s| ==> IsDigit(s[i])
  {
    if n < 10 then [DigitChar(n)] else NatToString(n / 10) + [DigitChar(n % 10)]
  }

  /** `str(i)` for any integer. */
  function IntToString(i: int): string {
    if i < 0 then "-" + NatToString(-i) else NatToString(i)
  }

  predicate AllDigits(s: string) {
    forall i :: 0 <= i < |s| ==> IsDigit(s[i])
  }

  /** The value of a run of decimal digits, most significant first. */
  function DigitsValue(s: string): nat
    requires AllDigits(s)
  {
    if s == [] then 0 else DigitsValue(s[..|s| - 1]) * 10 + DigitValue(s[|s| - 1])
  }

  /** `int(s)` on an optionally signed run of ASCII digits; None where Python raises. */
  function ParseInt(s: string): Option<int> {
    if |s| > 1 && s[0] == '-' && AllDigits(s[1..]) then Some(0 - DigitsValue(s[1..]) as int)
    else if s != [] && AllDigits(s) then Some(DigitsValue(s))
    else None
  }

  lemma {:induction false} NatRoundTrip(n: nat)
    ensures DigitsValue(NatToString(n)) == n
  {
    if n >= 10 {
      var s := NatToString(n);
      assert s[..|s| - 1] == NatToString(n / 10);
      NatRoundTrip(n / 10);
    }
  }

  /** Reading back a printed integer gives the integer: `int(str(i)) == i`. */
  lemma IntRoundTrip(i: int)
    ensures ParseInt(IntToString(i)) == Some(i)
  {
    if i < 0 {
      var s := IntToString(i);
      assert s[1..] == NatToString(-i);
      NatRoundTrip(-i);
    } else {
      var s := NatToString(i);
      if |s| > 1 {
        assert IsDigit(s[0]);
      }
      NatRoundTrip(i);
    }
  }

  /** Python's `str(value)` for the scalar JSON values an identifier can hold. */
  function Render(j: Json): string {
    match j
    case JStr(s) => s
    case JNum(n) => IntToString(n)
    case JBool(b) => if b then "True" else "False"
    case JNull => "None"
    case JArr(_) => ""
    case JObj(_) => ""
  }

  // ---------------------------------------------------------------------
  // Slicing
  // ---------------------------------------------------------------------

  function Min(a: int, b: int): int { if a <= b then a else b }
  function Max(a: int, b: int): int { if a >= b then a else b }

  /** Python's `s[:limit]`, where a negative limit counts from the end. */
  function SlicePrefix<T>(s: seq<T>, limit: int): (r: seq<T>)
    ensures r <= s
    ensures limit >= 0 ==> |r| == Min(limit, |s|)
    ensures limit < 0 ==> |r| == Max(|s| + limit, 0)
  {
    if limit >= 0 then s[..Min(limit, |s|)] else s[..Max(|s| + limit, 0)]
  }
}
