/** Values shared by every module of the model: the JSON values that
    persisted records hold, records as plain JavaScript objects, the array
    operations the source applies to record lists (filter, find, findIndex)
    and the decimal rendering of integers used to build ids and labels. */
module Values {

  datatype Option<T> = None | Some(value: T)

  /** A field value as JSON.parse gives it back. `Timestamp(ms)` stands for
      the ISO-8601 text that `new Date(ms).toISOString()` writes; parsing that
      text with `new Date(...)` yields `ms` again. */
  datatype Json = Null | Bool(b: bool) | Num(n: real) | Str(s: string) | Timestamp(ms: int)

  /** A plain object: field name to value. The object spread
      `{...a, ...b}` is the map union `a + b`, in which `b` wins. */
  type Record = map<string, Json>

  /** `r.id === id` for a string `id`: a missing field never matches. */
  predicate HasId(r: Record, id: string) {
    "id" in r && r["id"] == Str(id)
  }

  /** `r.status === status` for a string `status`. */
  predicate HasStatus(r: Record, status: string) {
    "status" in r && r["status"] == Str(status)
  }

  /** A ride the statistics count as active. */
  predicate IsActive(r: Record) {
    HasStatus(r, "pending") || HasStatus(r, "confirmed") || HasStatus(r, "in-progress")
  }

  predicate IsCompleted(r: Record) {
    HasStatus(r, "completed")
  }

  /** What a present key of the browser's key-value store holds: text that
      JSON.parse rejects (the empty string among it), or a parsed list of
      records. An absent key is a key missing from the map. */
  datatype Entry = Corrupt | Parsed(records: seq<Record>)

  // ---------------------------------------------------------------------
  // Array.prototype.filter

  function Filter<T(!new)>(s: seq<T>, p: T -> bool): (r: seq<T>)
    ensures |r| <= |s|
    ensures forall x :: x in r <==> x in s && p(x)
  {
    if s == [] then [] else (if p(s[0]) then [s[0]] else []) + Filter(s[1..], p)
  }

  /** `a` is `b` with some elements dropped and the rest in their order. */
  predicate IsSubsequence<T(==)>(a: seq<T>, b: seq<T>)
    decreases |b|
  {
    a == [] || (b != [] && ((a[0] == b[0] && IsSubsequence(a[1..], b[1..])) || IsSubsequence(a, b[1..])))
  }

  /** A filter keeps the surviving elements in their original order. */
  lemma {:induction false} FilterIsSubsequence<T(!new)>(s: seq<T>, p: T -> bool)
    ensures IsSubsequence(Filter(s, p), s)
  {
    if s != [] {
      var rest := Filter(s[1..], p);
      FilterIsSubsequence(s[1..], p);
      if p(s[0]) {
        assert Filter(s, p) == [s[0]] + rest;
        assert ([s[0]] + rest)[1..] == rest;
      } else {
        assert Filter(s, p) == [] + rest == rest;
      }
    }
  }

  /** Filtering distributes over concatenation: the relative order of the
      kept elements of two parts is that of the parts. */
  lemma {:induction false} FilterConcat<T(!new)>(a: seq<T>, b: seq<T>, p: T -> bool)
    ensures Filter(a + b, p) == Filter(a, p) + Filter(b, p)
  {
    if a == [] {
      assert a + b == b;
    } else {
      var head := if p(a[0]) then [a[0]] else [];
      assert (a + b)[0] == a[0];
      assert (a + b)[1..] == a[1..] + b;
      FilterConcat(a[1..], b, p);
      calc {
        Filter(a + b, p);
        head + Filter(a[1..] + b, p);
        head + (Filter(a[1..], p) + Filter(b, p));
        (head + Filter(a[1..], p)) + Filter(b, p);
      }
    }
  }

  /** A filter keeps every copy of a passing element and no copy of any
      other: it drops nothing it should keep, duplicates included. */
  lemma {:induction false} FilterMultiset<T(!new)>(s: seq<T>, p: T -> bool)
    ensures forall x :: multiset(Filter(s, p))[x] == if p(x) then multiset(s)[x] else 0
  {
    if s != [] {
      FilterMultiset(s[1..], p);
      assert s == [s[0]] + s[1..];
      var head := if p(s[0]) then [s[0]] else [];
      assert Filter(s, p) == head + Filter(s[1..], p);
    }
  }

  /** Filtering twice by the same predicate is filtering once. */
  lemma {:induction false} FilterIdempotent<T(!new)>(s: seq<T>, p: T -> bool)
    ensures Filter(Filter(s, p), p) == Filter(s, p)
  {
    if s != [] {
      FilterIdempotent(s[1..], p);
      var head := if p(s[0]) then [s[0]] else [];
      FilterConcat(head, Filter(s[1..], p), p);
    }
  }

  /** A filter that every element passes returns the whole sequence. */
  lemma {:induction false} FilterKeepsAll<T(!new)>(s: seq<T>, p: T -> bool)
    requires forall i :: 0 <= i < |s| ==> p(s[i])
    ensures Filter(s, p) == s
  {
    if s != [] {
      FilterKeepsAll(s[1..], p);
    }
  }

  /** A filter keeps as many elements as there are exactly when every
      element passes it. */
  lemma {:induction false} FilterKeepsCountIff<T(!new)>(s: seq<T>, p: T -> bool)
    ensures |Filter(s, p)| == |s| <==> forall i :: 0 <= i < |s| ==> p(s[i])
  {
    if s != [] {
      FilterKeepsCountIff(s[1..], p);
      if p(s[0]) && forall i :: 0 <= i < |s[1..]| ==> p(s[1..][i]) {
        assert forall i :: 0 <= i < |s| ==> p(s[i]) by {
          forall i | 0 <= i < |s| ensures p(s[i]) {
            if i > 0 { assert s[i] == s[1..][i - 1]; }
          }
        }
      } else if p(s[0]) {
        var j :| 0 <= j < |s[1..]| && !p(s[1..][j]);
        assert !p(s[j + 1]);
      }
    }
  }

  /** Two filters by predicates no element satisfies together select at most
      |s| elements between them, and exactly |s| when every element passes
      one of them. */
  lemma {:induction false} FilterDisjointCounts<T(!new)>(s: seq<T>, p: T -> bool, q: T -> bool)
    requires forall i :: 0 <= i < |s| ==> !(p(s[i]) && q(s[i]))
    ensures |Filter(s, p)| + |Filter(s, q)| <= |s|
    ensures |Filter(s, p)| + |Filter(s, q)| == |s| <==> forall i :: 0 <= i < |s| ==> p(s[i]) || q(s[i])
  {
    if s != [] {
      FilterDisjointCounts(s[1..], p, q);
      if !(p(s[0]) || q(s[0])) {
        assert |Filter(s, p)| + |Filter(s, q)| < |s|;
      } else if forall i :: 0 <= i < |s[1..]| ==> p(s[1..][i]) || q(s[1..][i]) {
        assert forall i :: 0 <= i < |s| ==> p(s[i]) || q(s[i]) by {
          forall i | 0 <= i < |s| ensures p(s[i]) || q(s[i]) {
            if i > 0 { assert s[i] == s[1..][i - 1]; }
          }
        }
      } else {
        var j :| 0 <= j < |s[1..]| && !(p(s[1..][j]) || q(s[1..][j]));
        assert !(p(s[j + 1]) || q(s[j + 1]));
      }
    }
  }

  // ---------------------------------------------------------------------
  // Array.prototype.findIndex and Array.prototype.find by id

  /** The index of the first record with the given id, or -1. */
  function FindIndex(rs: seq<Record>, id: string): (i: int)
    ensures -1 <= i < |rs|
    ensures i >= 0 ==> HasId(rs[i], id) && forall j :: 0 <= j < i ==> !HasId(rs[j], id)
    ensures i == -1 <==> forall j :: 0 <= j < |rs| ==> !HasId(rs[j], id)
  {
    if rs == [] then -1
    else if HasId(rs[0], id) then 0
    else
      var k := FindIndex(rs[1..], id);
      if k == -1 then -1 else k + 1
  }

  /** `rs.find(r => r.id === id)`: the first record with that id, if any. */
  function FindById(rs: seq<Record>, id: string): (r: Option<Record>)
    ensures r.None? <==> forall j :: 0 <= j < |rs| ==> !HasId(rs[j], id)
    ensures r.Some? ==> exists i :: 0 <= i < |rs| && rs[i] == r.value && HasId(rs[i], id)
                                    && forall j :: 0 <= j < i ==> !HasId(rs[j], id)
  {
    var i := FindIndex(rs, id);
    if i == -1 then None else Some(rs[i])
  }

  /** `rs.filter(r => r.id !== id)` */
  function WithoutId(rs: seq<Record>, id: string): seq<Record> {
    Filter(rs, (r: Record) => !HasId(r, id))
  }

  /** After removing an id, no record carries it, and every other record
      is still there, as many times as before and in its order. */
  lemma WithoutIdRemovesExactly(rs: seq<Record>, id: string)
    ensures FindById(WithoutId(rs, id), id) == None
    ensures forall r :: r in WithoutId(rs, id) <==> r in rs && !HasId(r, id)
    ensures forall r :: multiset(WithoutId(rs, id))[r] == if HasId(r, id) then 0 else multiset(rs)[r]
    ensures IsSubsequence(WithoutId(rs, id), rs)
  {
    FilterIsSubsequence(rs, (r: Record) => !HasId(r, id));
    FilterMultiset(rs, (r: Record) => !HasId(r, id));
    var w := WithoutId(rs, id);
    forall j | 0 <= j < |w| ensures !HasId(w[j], id) {
      assert w[j] in w;
    }
  }

  /** Removing an id twice is removing it once. */
  lemma WithoutIdIdempotent(rs: seq<Record>, id: string)
    ensures WithoutId(WithoutId(rs, id), id) == WithoutId(rs, id)
  {
    FilterIdempotent(rs, (r: Record) => !HasId(r, id));
  }

  /** Removing an id no record carries changes nothing. */
  lemma WithoutAbsentId(rs: seq<Record>, id: string)
    requires FindById(rs, id) == None
    ensures WithoutId(rs, id) == rs
  {
    FilterKeepsAll(rs, (r: Record) => !HasId(r, id));
  }

  // ---------------------------------------------------------------------
  // Number.prototype.toString for integers, in base 10

  function DigitChar(d: nat): (c: char)
    requires d < 10
    ensures '0' <= c <= '9' && (c as int) - ('0' as int) == d
  {
    "0123456789"[d]
  }

  predicate AllDigits(s: string) {
    forall i :: 0 <= i < |s| ==> '0' <= s[i] <= '9'
  }

  /** The decimal digits of `n`, without leading zeros. */
  function NatToString(n: nat): (s: string)
    ensures |s| >= 1 && AllDigits(s)
    ensures (|s| == 1) == (n < 10)
    ensures |s| > 1 ==> s[0] != '0'
  {
    if n < 10 then [DigitChar(n)] else NatToString(n / 10) + [DigitChar(n % 10)]
  }

  /** `String(i)` for an integer `i` of ordinary size. */
  function IntToString(i: int): (s: string)
    ensures |s| >= 1
    ensures (s[0] == '-') == (i < 0)
  {
    if i < 0 then "-" + NatToString(-i) else NatToString(i)
  }

  /** The number an all-digit string denotes (`parseInt(s, 10)`). */
  function DigitsValue(s: string): nat
    requires AllDigits(s)
  {
    if s == [] then 0 else DigitsValue(s[..|s| - 1]) * 10 + ((s[|s| - 1] as int) - ('0' as int))
  }

  /** Reading back the digits that NatToString writes gives the number. */
  lemma {:induction false} NatToStringRoundTrip(n: nat)
    ensures DigitsValue(NatToString(n)) == n
  {
    if n >= 10 {
      NatToStringRoundTrip(n / 10);
      var s := NatToString(n);
      assert s[..|s| - 1] == NatToString(n / 10);
    }
  }

  /** Distinct naturals have distinct digit strings. */
  lemma NatToStringInjective(a: nat, b: nat)
    requires NatToString(a) == NatToString(b)
    ensures a == b
  {
    NatToStringRoundTrip(a);
    NatToStringRoundTrip(b);
  }

  /** Distinct integers have distinct decimal renderings. */
  lemma IntToStringInjective(a: int, b: int)
    requires IntToString(a) == IntToString(b)
    ensures a == b
  {
    var s := IntToString(a);
    if a < 0 {
      assert b < 0;
      assert s == "-" + NatToString(-a) && s == "-" + NatToString(-b);
      assert s[1..] == NatToString(-a);
      assert s[1..] == NatToString(-b);
      NatToStringInjective(-a, -b);
    } else {
      assert b >= 0;
      NatToStringInjective(a, b);
    }
  }
}
