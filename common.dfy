/**
 * Values and string operations shared by the views: an Option/Result pair for
 * nullable fields and raised exceptions, and the few Python string idioms the
 * views rely on (`s.split(sep)[-1]`, `s.split(sep)[0]`, `sep.join(parts)`,
 * `s.replace(p, '')`, `list.reverse()`).
 */
module Common {

  datatype Option<+T> = None | Some(value: T)

  datatype Result<+T, +E> = Ok(value: T) | Err(error: E)

  /** Python truthiness of an optional text column: None and '' are false. */
  predicate TruthyText(s: Option<string>)
  {
    s.Some? && s.value != ""
  }

  /** Python truthiness of an optional integer id: None and 0 are false. */
  predicate TruthyId(id: Option<int>)
  {
    id.Some? && id.value != 0
  }

  function Reverse<T>(s: seq<T>): (r: seq<T>)
    ensures |r| == |s|
    ensures forall i :: 0 <= i < |s| ==> r[i] == s[|s| - 1 - i]
  {
    if s == [] then [] else Reverse(s[1..]) + [s[0]]
  }

  lemma {:induction false} ReverseAppend<T>(a: seq<T>, b: seq<T>)
    ensures Reverse(a + b) == Reverse(b) + Reverse(a)
  {
    var r, q := Reverse(a + b), Reverse(b) + Reverse(a);
    assert |r| == |q|;
    forall i | 0 <= i < |r| ensures r[i] == q[i] {
      if i < |b| {
        assert r[i] == (a + b)[|a| + |b| - 1 - i] == b[|b| - 1 - i];
      } else {
        assert r[i] == (a + b)[|a| + |b| - 1 - i] == a[|a| + |b| - 1 - i];
      }
    }
  }

  /** `sep.join(parts)` */
  function Join(sep: string, parts: seq<string>): (r: string)
    ensures parts == [] ==> r == ""
    ensures |parts| == 1 ==> r == parts[0]
    ensures parts != [] ==> |parts[0]| <= |r| && r[..|parts[0]|] == parts[0]
    ensures parts != [] ==> |parts[|parts| - 1]| <= |r| && r[|r| - |parts[|parts| - 1]|..] == parts[|parts| - 1]
  {
    if parts == [] then ""
    else if |parts| == 1 then parts[0]
    else parts[0] + sep + Join(sep, parts[1..])
  }

  /** `s.split(sep)[-1]`: everything after the last `sep`, or all of `s`. */
  function LastSegment(s: string, sep: char): (r: string)
    ensures |r| <= |s| && r == s[|s| - |r|..]
    ensures sep !in r
    ensures |r| < |s| ==> s[|s| - |r| - 1] == sep
  {
    if s == [] then ""
    else if s[|s| - 1] == sep then ""
    else LastSegment(s[..|s| - 1], sep) + [s[|s| - 1]]
  }

  /** The last segment of `dir` + `sep` + `name` is `name` when `name` holds no `sep`. */
  lemma {:induction false} LastSegmentOfPath(dir: string, sep: char, name: string)
    requires sep !in name
    ensures LastSegment(dir + [sep] + name, sep) == name
    decreases |name|
  {
    if name != [] {
      var init := name[..|name| - 1];
      assert (dir + [sep] + name)[..|dir + [sep] + name| - 1] == dir + [sep] + init;
      assert sep !in init by {
        assert forall x :: x in init ==> x in name;
      }
      LastSegmentOfPath(dir, sep, init);
      assert init + [name[|name| - 1]] == name;
    }
  }

  /** `s.split(sep)[0]`: everything before the first `sep`, or all of `s`. */
  function FirstSegment(s: string, sep: char): (r: string)
    ensures |r| <= |s| && r == s[..|r|]
    ensures sep !in r
    ensures |r| < |s| ==> s[|r|] == sep
  {
    if s == [] then ""
    else if s[0] == sep then ""
    else [s[0]] + FirstSegment(s[1..], sep)
  }

  /** `s` holds `p` starting at index `i`. */
  predicate OccursAt(s: string, p: string, i: nat)
  {
    i + |p| <= |s| && s[i..i + |p|] == p
  }

  /**
   * `s.replace(p, '')` for a non-empty `p`: scans left to right and drops
   * every non-overlapping occurrence of `p`; a text with no occurrence of
   * `p` is left as it is.
   */
  function RemoveAll(s: string, p: string): (r: string)
    requires p != ""
    ensures |r| <= |s|
    ensures (forall i: nat :: !OccursAt(s, p, i)) ==> r == s
    decreases |s|
  {
    if |s| < |p| then s
    else if s[..|p|] == p then
      assert OccursAt(s, p, 0) by { assert s[0..|p|] == s[..|p|]; }
      RemoveAll(s[|p|..], p)
    else
      assert (forall i: nat :: !OccursAt(s, p, i)) ==> (forall i: nat :: !OccursAt(s[1..], p, i)) by {
        if forall i: nat :: !OccursAt(s, p, i) {
          forall i: nat ensures !OccursAt(s[1..], p, i) {
            assert !OccursAt(s, p, i + 1);
            if i + |p| <= |s[1..]| {
              assert s[1..][i..i + |p|] == s[i + 1..i + 1 + |p|];
            }
          }
        }
      }
      assert [s[0]] + s[1..] == s;
      [s[0]] + RemoveAll(s[1..], p)
  }

  /** No value occurs twice in `s`. */
  predicate NoRepeats<T(==)>(s: seq<T>)
  {
    forall i, j :: 0 <= i < j < |s| ==> s[i] != s[j]
  }

  /** The distinct elements of `s`, each once (at its last occurrence). */
  function Distinct<T(==)>(s: seq<T>): (r: seq<T>)
    ensures forall x :: x in r ==> x in s
    ensures forall x :: x in s ==> x in r
    ensures NoRepeats(r)
  {
    if s == [] then []
    else
      var rest := Distinct(s[1..]);
      if s[0] in rest then rest else [s[0]] + rest
  }

  /** `q` lists each distinct element of `s` exactly once, in some order (iterating `set(s)`). */
  predicate IsSetOrder<T(==)>(s: seq<T>, q: seq<T>)
  {
    multiset(q) == multiset(Distinct(s))
  }

  /** A sequence without repeats holds each value at most once. */
  lemma {:induction false} NoRepeatsMultiplicity<T>(q: seq<T>, x: T)
    requires NoRepeats(q)
    ensures multiset(q)[x] <= 1
  {
    if q != [] {
      assert q == [q[0]] + q[1..];
      assert NoRepeats(q[1..]) by {
        forall i, j | 0 <= i < j < |q[1..]| ensures q[1..][i] != q[1..][j] {
          assert q[1..][i] == q[i + 1] && q[1..][j] == q[j + 1];
        }
      }
      NoRepeatsMultiplicity(q[1..], x);
      if q[0] == x {
        assert x !in q[1..] by {
          forall j | 0 <= j < |q[1..]| ensures q[1..][j] != x {
            assert q[1..][j] == q[j + 1];
          }
        }
      }
    }
  }

  /** A value at two positions is counted at least twice. */
  lemma RepeatMultiplicity<T>(q: seq<T>, i: int, j: int)
    requires 0 <= i < j < |q| && q[i] == q[j]
    ensures multiset(q)[q[i]] >= 2
  {
    assert q == q[..i] + [q[i]] + q[i + 1..j] + [q[j]] + q[j + 1..];
  }

  /**
   * Iterating `set(s)`: every element of `s` comes out once, and nothing
   * else comes out.
   */
  lemma SetOrderFacts<T>(s: seq<T>, q: seq<T>)
    requires IsSetOrder(s, q)
    ensures NoRepeats(q)
    ensures forall x :: x in q <==> x in s
  {
    forall i, j | 0 <= i < j < |q| ensures q[i] != q[j] {
      if q[i] == q[j] {
        RepeatMultiplicity(q, i, j);
        NoRepeatsMultiplicity(Distinct(s), q[i]);
        assert false;
      }
    }
    forall x ensures x in q <==> x in s {
      assert x in q <==> x in multiset(q);
      assert x in Distinct(s) <==> x in multiset(Distinct(s));
    }
  }

  /** Copies of one value have that value as their only distinct element. */
  lemma {:induction false} DistinctOfCopies<T>(s: seq<T>, x: T)
    requires s != [] && forall i :: 0 <= i < |s| ==> s[i] == x
    ensures Distinct(s) == [x]
  {
    if |s| > 1 {
      DistinctOfCopies(s[1..], x);
    }
  }

  /** Iterating the set of copies of one value yields that value alone. */
  lemma SetOrderOfCopies<T>(s: seq<T>, q: seq<T>, x: T)
    requires s != [] && forall i :: 0 <= i < |s| ==> s[i] == x
    requires IsSetOrder(s, q)
    ensures q == [x]
  {
    DistinctOfCopies(s, x);
    assert |q| == |multiset(q)| == 1;
    assert q[0] in multiset(q);
  }
}
