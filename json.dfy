/** Values as the collection's Python code sees them: the JSON-like data that
    module parameters, request payloads and client-library objects are made
    of, with Python's ordered dictionaries, its `str()` rendering of scalars
    and its exceptions made explicit. */
module Json {

  datatype Option<+T> = None | Some(value: T)

  /** A Python computation that either yields a value or raises. */
  datatype Outcome<+T> = Ok(value: T) | Raises(error: string)

  /** None, bool, int, str, list and dict. Floats are not represented. */
  datatype Json =
    | JNull
    | JBool(b: bool)
    | JInt(i: int)
    | JStr(s: string)
    | JList(items: seq<Json>)
    | JObject(fields: seq<(string, Json)>)

  /** A Python dict: its items in insertion order. */
  type Dict = seq<(string, Json)>

  function Keys(d: Dict): (ks: set<string>)
    decreases |d|
  {
    if d == [] then {} else {d[0].0} + Keys(d[1..])
  }

  predicate UniqueKeys(d: Dict)
    decreases |d|
  {
    d == [] || (d[0].0 !in Keys(d[1..]) && UniqueKeys(d[1..]))
  }

  /** `d[k]` when `k in d`. */
  function Get(d: Dict, k: string): (r: Option<Json>)
    ensures r.Some? <==> k in Keys(d)
    decreases |d|
  {
    if d == [] then None
    else if d[0].0 == k then Some(d[0].1)
    else Get(d[1..], k)
  }

  /** The keys and lookups of a two-entry mapping. */
  lemma PairDict(k1: string, v1: Json, k2: string, v2: Json)
    ensures Keys([(k1, v1), (k2, v2)]) == {k1, k2}
    ensures Get([(k1, v1), (k2, v2)], k1) == Some(v1)
    ensures k2 != k1 ==> Get([(k1, v1), (k2, v2)], k2) == Some(v2)
  {
    assert [(k1, v1), (k2, v2)][1..] == [(k2, v2)];
    assert [(k2, v2)][1..] == [];
    assert Keys([(k2, v2)]) == {k2} + Keys([]);
  }

  /** `d[k] = v`: an existing key keeps its position, a new key goes last. */
  function Put(d: Dict, k: string, v: Json): (r: Dict)
    ensures Keys(r) == Keys(d) + {k}
    decreases |d|
  {
    if d == [] then [(k, v)]
    else if d[0].0 == k then [(k, v)] + d[1..]
    else [d[0]] + Put(d[1..], k, v)
  }

  /** A lookup in a concatenation finds the first part's entry first. */
  lemma {:induction false} GetAppend(d1: Dict, d2: Dict, k: string)
    ensures Get(d1 + d2, k) == if k in Keys(d1) then Get(d1, k) else Get(d2, k)
    ensures Keys(d1 + d2) == Keys(d1) + Keys(d2)
    decreases |d1|
  {
    if d1 == [] {
      assert d1 + d2 == d2;
    } else {
      GetAppend(d1[1..], d2, k);
      assert (d1 + d2)[1..] == d1[1..] + d2;
      assert (d1 + d2)[0] == d1[0];
    }
  }

  /** A new key is appended. */
  lemma {:induction false} PutNew(d: Dict, k: string, v: Json)
    requires k !in Keys(d)
    ensures Put(d, k, v) == d + [(k, v)]
    decreases |d|
  {
    if d != [] {
      PutNew(d[1..], k, v);
      assert d == [d[0]] + d[1..];
    }
  }

  lemma {:induction false} GetPut(d: Dict, k: string, v: Json, k': string)
    ensures Get(Put(d, k, v), k') == if k' == k then Some(v) else Get(d, k')
    decreases |d|
  {
    if d != [] && d[0].0 != k {
      GetPut(d[1..], k, v, k');
    }
  }

  lemma {:induction false} PutKeepsUnique(d: Dict, k: string, v: Json)
    requires UniqueKeys(d)
    ensures UniqueKeys(Put(d, k, v))
    decreases |d|
  {
    if d != [] && d[0].0 != k {
      PutKeepsUnique(d[1..], k, v);
    }
  }

  /** `getattr(obj, k)` on a client-library model: an unset attribute is None. */
  function Attr(d: Dict, k: string): Json {
    match Get(d, k)
    case Some(v) => v
    case None => JNull
  }

  predicate IsDigit(c: char) {
    '0' <= c <= '9'
  }

  /** Python's `str.isdigit()` on ASCII text: non-empty and all digits. */
  predicate IsDigitString(s: string) {
    |s| > 0 && forall i :: 0 <= i < |s| ==> IsDigit(s[i])
  }

  function DigitChar(d: nat): char
    requires d < 10
  {
    ['0', '1', '2', '3', '4', '5', '6', '7', '8', '9'][d]
  }

  /** Decimal text of a natural number, as `str(n)` writes it. */
  function NatToString(n: nat): (s: string)
    decreases n
  {
    if n < 10 then [DigitChar(n)] else NatToString(n / 10) + [DigitChar(n % 10)]
  }

  lemma {:induction false} NatToStringIsDigits(n: nat)
    ensures IsDigitString(NatToString(n))
    ensures |NatToString(n)| > 1 ==> NatToString(n)[0] != '0'
    decreases n
  {
    if n >= 10 {
      NatToStringIsDigits(n / 10);
    }
  }

  function IntToString(i: int): string {
    if i < 0 then "-" + NatToString(-i) else NatToString(i)
  }

  /** `str(x)` for the scalars that reach a filter or a URL; containers are
      rendered as a fixed marker (see README, "Left out"). */
  function PyStr(j: Json): string {
    match j
    case JNull => "None"
    case JBool(b) => if b then "True" else "False"
    case JInt(i) => IntToString(i)
    case JStr(s) => s
    case JList(_) => "[...]"
    case JObject(_) => "{...}"
  }

  /** `sep.join(parts)`. */
  function Join(parts: seq<string>, sep: string): string
    decreases |parts|
  {
    if parts == [] then ""
    else if |parts| == 1 then parts[0]
    else parts[0] + sep + Join(parts[1..], sep)
  }

  lemma JoinTwo(a: string, b: string, sep: string)
    ensures Join([a, b], sep) == a + sep + b
  {
    assert [a, b][1..] == [b];
  }

  predicate IsPrefix(p: string, s: string) {
    |p| <= |s| && s[..|p|] == p
  }

  /** Python's `p in s` on strings. */
  predicate IsSubstring(p: string, s: string)
    decreases |s|
  {
    IsPrefix(p, s) || (s != [] && IsSubstring(p, s[1..]))
  }

  /** `s.split(sep)` for a one-character separator. */
  function Split(s: string, sep: char): (parts: seq<string>)
    ensures |parts| >= 1
    ensures forall i :: 0 <= i < |parts| ==> sep !in parts[i]
    decreases |s|
  {
    if s == [] then [""]
    else
      var rest := Split(s[1..], sep);
      if s[0] == sep then [""] + rest
      else [[s[0]] + rest[0]] + rest[1..]
  }

  function Count(s: string, c: char): nat
    decreases |s|
  {
    if s == [] then 0 else (if s[0] == c then 1 else 0) + Count(s[1..], c)
  }

  lemma {:induction false} SplitCount(s: string, sep: char)
    ensures |Split(s, sep)| == Count(s, sep) + 1
    decreases |s|
  {
    if s != [] {
      SplitCount(s[1..], sep);
    }
  }

  lemma {:induction false} SplitJoin(s: string, sep: char)
    ensures Join(Split(s, sep), [sep]) == s
    decreases |s|
  {
    if s != [] {
      var rest := Split(s[1..], sep);
      SplitJoin(s[1..], sep);
      if s[0] == sep {
        assert Split(s, sep) == [""] + rest;
        assert Join([""] + rest, [sep]) == "" + [sep] + Join(rest, [sep]) by {
          assert ([""] + rest)[1..] == rest;
        }
        assert s == [s[0]] + s[1..];
      } else {
        var parts := [[s[0]] + rest[0]] + rest[1..];
        assert Split(s, sep) == parts;
        if |rest| == 1 {
          assert parts == [[s[0]] + rest[0]];
          assert s == [s[0]] + s[1..];
        } else {
          assert parts[1..] == rest[1..];
          assert Join(rest, [sep]) == rest[0] + [sep] + Join(rest[1..], [sep]);
          assert s == [s[0]] + s[1..];
        }
      }
    }
  }

  lemma {:induction false} SplitAround(x: string, sep: char, y: string)
    requires sep !in x
    ensures Split(x + [sep] + y, sep) == [x] + Split(y, sep)
    decreases |x|
  {
    if x == [] {
      assert [sep] + y == x + [sep] + y;
      assert ([sep] + y)[1..] == y;
    } else {
      SplitAround(x[1..], sep, y);
      assert (x + [sep] + y)[1..] == x[1..] + [sep] + y;
      assert [x[0]] + x[1..] == x;
    }
  }

  lemma {:induction false} SplitNone(x: string, sep: char)
    requires sep !in x
    ensures Split(x, sep) == [x]
    decreases |x|
  {
    if x != [] {
      SplitNone(x[1..], sep);
      assert [x[0]] + x[1..] == x;
    }
  }

  /** `s.replace(a, b)` for single characters. */
  function Replace(s: string, a: char, b: char): (r: string)
    ensures |r| == |s|
    ensures forall i :: 0 <= i < |s| ==> r[i] == if s[i] == a then b else s[i]
  {
    seq(|s|, i requires 0 <= i < |s| => if s[i] == a then b else s[i])
  }

  /** Python truthiness. */
  predicate Truthy(j: Json) {
    match j
    case JNull => false
    case JBool(b) => b
    case JInt(i) => i != 0
    case JStr(s) => s != ""
    case JList(items) => items != []
    case JObject(fs) => fs != []
  }

  /** `k in e` for a string k; None when Python raises (the right operand
      is not a container). */
  function In(k: string, e: Json): Option<bool> {
    match e
    case JObject(fs) => Some(k in Keys(fs))
    case JStr(s) => Some(IsSubstring(k, s))
    case JList(items) => Some(JStr(k) in items)
    case _ => None
  }

  /** `e[k]` for a string k. */
  function Subscript(e: Json, k: string): Outcome<Json> {
    match e
    case JObject(fs) => if k in Keys(fs) then Ok(Get(fs, k).value) else Raises("KeyError: " + k)
    case _ => Raises("TypeError: not subscriptable by a string")
  }

  /** The elements `for x in e` visits; None when e is not iterable. */
  function Iter(e: Json): Option<seq<Json>> {
    match e
    case JList(items) => Some(items)
    case JStr(s) => Some(seq(|s|, i requires 0 <= i < |s| => JStr([s[i]])))
    case JObject(fs) => Some(seq(|fs|, i requires 0 <= i < |fs| => JStr(fs[i].0)))
    case _ => None
  }

  /** A text that lacks the first character of p does not contain p. */
  lemma {:induction false} NotSubstring(p: string, s: string)
    requires |p| > 0 && p[0] !in s
    ensures !IsSubstring(p, s)
    decreases |s|
  {
    if s != [] {
      NotSubstring(p, s[1..]);
    }
  }
}
