/**
  List-query modifiers (albums.go, `ListQuery`, `PageSize`, `PageToken`,
  `ExcludeNonAppCreatedData`) and the multi-valued query map they fill.

  Each modifier appends one value under its key, as `url.Values.Add` does, so a
  repeated modifier accumulates values instead of replacing them. Rendering the
  map as a query string (sorted, escaped) is library behaviour and is not
  modelled.
 */
module Queries {
  import opened Errors

  /** `url.Values`: each key maps to the values added under it, in order. */
  type Values = map<string, seq<string>>

  datatype ListQuery = PageSize(size: int) | PageToken(token: string) | ExcludeNonAppCreatedData(flag: bool)

  const PageSizeKey := "pageSize"
  const PageTokenKey := "pageToken"
  const ExcludeKey := "excludeNonAppCreatedData"

  // Decimal rendering of integers (`strconv.Itoa`) and its inverse.

  predicate IsDigit(c: char)
  {
    '0' <= c <= '9'
  }

  predicate AllDigits(s: string)
  {
    forall i :: 0 <= i < |s| ==> IsDigit(s[i])
  }

  function DigitChar(d: nat): (c: char)
    requires d < 10
    ensures IsDigit(c) && c as int - '0' as int == d
  {
    ('0' as int + d) as char
  }

  /** The digits of `n`, most significant first, without leading zeros. */
  function Decimal(n: nat): (s: string)
    ensures 1 <= |s| && AllDigits(s)
    ensures s[0] == '0' ==> n == 0 && s == "0"
  {
    if n < 10 then [DigitChar(n)] else Decimal(n / 10) + [DigitChar(n % 10)]
  }

  /** The value of a string of decimal digits. */
  function DigitsValue(s: string): (n: nat)
    requires AllDigits(s)
  {
    if s == [] then 0 else DigitsValue(s[..|s| - 1]) * 10 + (s[|s| - 1] as int - '0' as int)
  }

  function Itoa(n: int): (s: string)
  {
    if n < 0 then "-" + Decimal(-n) else Decimal(n)
  }

  /** `strconv.Atoi`: an optional sign followed by one or more decimal digits. */
  function Atoi(s: string): (r: Option<int>)
  {
    if |s| > 0 && (s[0] == '-' || s[0] == '+') then
      var digits := s[1..];
      if |digits| > 0 && AllDigits(digits) then
        var magnitude: int := DigitsValue(digits);
        Some(if s[0] == '-' then -magnitude else magnitude)
      else None
    else if |s| > 0 && AllDigits(s) then Some(DigitsValue(s))
    else None
  }

  lemma {:induction false} DecimalValue(n: nat)
    ensures DigitsValue(Decimal(n)) == n
  {
    if n >= 10 {
      var s := Decimal(n);
      DecimalValue(n / 10);
      assert s[..|s| - 1] == Decimal(n / 10);
    }
  }

  /** The page-size rendering reads back as the same integer. */
  lemma ItoaRoundTrip(n: int)
    ensures Atoi(Itoa(n)) == Some(n)
  {
    if n < 0 {
      DecimalValue(-n);
      assert Itoa(n)[1..] == Decimal(-n);
    } else {
      DecimalValue(n);
    }
  }

  // Booleans (`strconv.FormatBool`, `strconv.ParseBool`).

  function ParseBool(s: string): (r: Option<bool>)
  {
    if s in {"1", "t", "T", "TRUE", "true", "True"} then Some(true)
    else if s in {"0", "f", "F", "FALSE", "false", "False"} then Some(false)
    else None
  }

  function FormatBool(b: bool): (s: string)
    ensures ParseBool(s) == Some(b)
    ensures s in {"true", "false"}
  {
    if b then "true" else "false"
  }

  // The modifiers.

  function Key(q: ListQuery): (k: string)
  {
    match q
    case PageSize(_) => PageSizeKey
    case PageToken(_) => PageTokenKey
    case ExcludeNonAppCreatedData(_) => ExcludeKey
  }

  function Rendered(q: ListQuery): (s: string)
  {
    match q
    case PageSize(n) => Itoa(n)
    case PageToken(t) => t
    case ExcludeNonAppCreatedData(b) => FormatBool(b)
  }

  /** Each modifier's value reads back as what the caller passed. */
  lemma RenderedReadsBack(q: ListQuery)
    ensures q.PageSize? ==> Key(q) == PageSizeKey && Atoi(Rendered(q)) == Some(q.size)
    ensures q.PageToken? ==> Key(q) == PageTokenKey && Rendered(q) == q.token
    ensures q.ExcludeNonAppCreatedData? ==>
      Key(q) == ExcludeKey && Rendered(q) == (if q.flag then "true" else "false")
  {
    if q.PageSize? {
      ItoaRoundTrip(q.size);
    }
  }

  /** All values under `k`, absent keys reading as no values. */
  function Lookup(v: Values, k: string): (vs: seq<string>)
  {
    if k in v then v[k] else []
  }

  /** `url.Values.Add`: append `x` under `k`, leaving every other key alone. */
  function Add(v: Values, k: string, x: string): (r: Values)
    ensures Lookup(r, k) == Lookup(v, k) + [x]
    ensures forall k' :: k' != k ==> Lookup(r, k') == Lookup(v, k')
    ensures k in r && forall k' :: k' in r <==> k' in v || k' == k
  {
    v[k := Lookup(v, k) + [x]]
  }

  function Apply(v: Values, q: ListQuery): (r: Values)
  {
    Add(v, Key(q), Rendered(q))
  }

  /** Apply the modifiers one after the other, in the order given. */
  function ApplyAll(v: Values, qs: seq<ListQuery>): (r: Values)
    decreases |qs|
  {
    if qs == [] then v else ApplyAll(Apply(v, qs[0]), qs[1..])
  }

  /** Reference: the rendered values of the modifiers with key `k`, in order. */
  function Selected(qs: seq<ListQuery>, k: string): (vs: seq<string>)
  {
    if qs == [] then []
    else Own(qs[0], k) + Selected(qs[1..], k)
  }

  /** The value one modifier contributes under key `k`. */
  function Own(q: ListQuery, k: string): (vs: seq<string>)
  {
    if Key(q) == k then [Rendered(q)] else []
  }

  /** One modifier adds its own value under its own key and nothing else. */
  lemma ApplyOne(v: Values, q: ListQuery, k: string)
    ensures Lookup(Apply(v, q), k) == Lookup(v, k) + Own(q, k)
    ensures k in Apply(v, q) <==> k in v || Own(q, k) != []
  {
  }

  lemma Concatenation<T>(a: seq<T>, b: seq<T>, c: seq<T>)
    ensures a + b + c == a + (b + c)
  {
  }

  lemma {:induction false} ApplyAllAppends(v: Values, qs: seq<ListQuery>, k: string)
    ensures Lookup(ApplyAll(v, qs), k) == Lookup(v, k) + Selected(qs, k)
    decreases |qs|
  {
    if qs != [] {
      var v' := Apply(v, qs[0]);
      var own := Own(qs[0], k);
      var rest := Selected(qs[1..], k);
      ApplyOne(v, qs[0], k);
      ApplyAllAppends(v', qs[1..], k);
      calc {
        Lookup(ApplyAll(v, qs), k);
        Lookup(v', k) + rest;
        Lookup(v, k) + own + rest;
        { Concatenation(Lookup(v, k), own, rest); }
        Lookup(v, k) + (own + rest);
        Lookup(v, k) + Selected(qs, k);
      }
    }
  }

  lemma {:induction false} ApplyAllKeys(v: Values, qs: seq<ListQuery>, k: string)
    ensures k in ApplyAll(v, qs) <==> k in v || Selected(qs, k) != []
    decreases |qs|
  {
    if qs != [] {
      var v' := Apply(v, qs[0]);
      ApplyOne(v, qs[0], k);
      ApplyAllKeys(v', qs[1..], k);
    }
  }

  /**
    The query map a list call sends: under each key, exactly the values of the
    modifiers with that key, in the order supplied; no other keys.
   */
  function QueryValues(qs: seq<ListQuery>): (v: Values)
    ensures forall k :: Lookup(v, k) == Selected(qs, k)
    ensures forall k :: k in v <==> Selected(qs, k) != []
  {
    forall k ensures Lookup(ApplyAll(map[], qs), k) == Selected(qs, k)
      && (k in ApplyAll(map[], qs) <==> Selected(qs, k) != [])
    {
      ApplyAllAppends(map[], qs, k);
      ApplyAllKeys(map[], qs, k);
    }
    ApplyAll(map[], qs)
  }

  /** A repeated page size is sent twice rather than overridden. */
  lemma RepeatedModifierAccumulates(a: int, b: int)
    ensures Lookup(QueryValues([PageSize(a), PageSize(b)]), PageSizeKey) == [Itoa(a), Itoa(b)]
  {
    var qs := [PageSize(a), PageSize(b)];
    assert qs[1..][1..] == [];
    assert Selected(qs[1..], PageSizeKey) == [Itoa(b)];
  }
}
