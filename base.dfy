/** Small shared vocabulary: optional values (Kotlin's nullable types), the JVM `Long`
    and its wrapping subtraction, digits, and substring containment (`String.contains`). */
module Base {

  /** A nullable value: `None` stands for Kotlin's `null`. */
  datatype Option<+T> = None | Some(value: T) {
    /** Kotlin's elvis operator `x ?: default`. */
    function GetOr(default: T): T {
      if Some? then value else default
    }
  }

  /** The first present value in `ys` from position `k` on. */
  function FirstSome<T>(ys: seq<Option<T>>, k: nat): Option<T>
    requires k <= |ys|
    decreases |ys| - k
  {
    if k == |ys| then None else if ys[k].Some? then ys[k] else FirstSome(ys, k + 1)
  }

  /** `FirstSome` finds nothing exactly when every value from `k` on is absent, and what it
      finds is a value of `ys` with only absent values before it. */
  lemma {:induction false} FirstSomeSpec<T>(ys: seq<Option<T>>, k: nat)
    requires k <= |ys|
    ensures FirstSome(ys, k).None? <==> forall j :: k <= j < |ys| ==> ys[j].None?
    ensures FirstSome(ys, k).Some? ==>
              (exists j :: k <= j < |ys| && ys[j] == FirstSome(ys, k) &&
                 (forall i :: k <= i < j ==> ys[i].None?))
    decreases |ys| - k
  {
    if k < |ys| {
      FirstSomeSpec(ys, k + 1);
      if ys[k].Some? {
        assert ys[k] == FirstSome(ys, k);
      } else if FirstSome(ys, k + 1).Some? {
        var j :| k + 1 <= j < |ys| && ys[j] == FirstSome(ys, k + 1) &&
                 (forall i :: k + 1 <= i < j ==> ys[i].None?);
        assert forall i :: k <= i < j ==> ys[i].None?;
      }
    }
  }

  /** One step of `FirstSome`: a present value at `k` is the answer, an absent one defers
      to the rest. */
  lemma FirstSomeStep<T>(ys: seq<Option<T>>, k: nat)
    requires k < |ys|
    ensures ys[k].Some? ==> FirstSome(ys, k) == ys[k]
    ensures ys[k].None? ==> FirstSome(ys, k) == FirstSome(ys, k + 1)
  {
  }

  const LongModulus: int := 0x1_0000_0000_0000_0000

  /** A JVM `Long`: a 64-bit two's-complement integer. */
  type Long = x: int | -0x8000_0000_0000_0000 <= x < 0x8000_0000_0000_0000

  /** `a - b` on JVM `Long`s: the exact difference, wrapped into 64 bits. */
  function LongSub(a: Long, b: Long): (r: Long)
    ensures (r - (a - b)) % LongModulus == 0
    ensures -0x8000_0000_0000_0000 <= a - b < 0x8000_0000_0000_0000 ==> r == a - b
  {
    var d := (a - b) % LongModulus;
    if d >= 0x8000_0000_0000_0000 then d - LongModulus else d
  }

  /** For two clock readings that are not negative the subtraction never wraps. */
  lemma ClockDifferenceExact(a: Long, b: Long)
    requires 0 <= a && 0 <= b
    ensures LongSub(a, b) == a - b
  {
  }

  predicate IsDigit(c: char) {
    '0' <= c <= '9'
  }

  /** `sub` occurs in `s` starting at index `k`. */
  predicate OccursAt(s: string, sub: string, k: int) {
    0 <= k && k + |sub| <= |s| && s[k..k + |sub|] == sub
  }

  /** Kotlin's `s.contains(sub)`. */
  predicate Contains(s: string, sub: string) {
    exists k :: 0 <= k <= |s| - |sub| && OccursAt(s, sub, k)
  }

  lemma ContainsSelf(s: string)
    ensures Contains(s, s)
  {
    assert OccursAt(s, s, 0);
  }

  /** A text contains every text that its parts contain. */
  lemma ContainsInAppend(a: string, b: string, sub: string)
    requires Contains(a, sub) || Contains(b, sub)
    ensures Contains(a + b, sub)
  {
    if Contains(a, sub) {
      var k :| 0 <= k <= |a| - |sub| && OccursAt(a, sub, k);
      assert (a + b)[k..k + |sub|] == a[k..k + |sub|];
      assert OccursAt(a + b, sub, k);
    } else {
      var k :| 0 <= k <= |b| - |sub| && OccursAt(b, sub, k);
      assert (a + b)[|a| + k..|a| + k + |sub|] == b[k..k + |sub|];
      assert OccursAt(a + b, sub, |a| + k);
    }
  }

  lemma ContainsTransitive(a: string, b: string, c: string)
    requires Contains(a, b) && Contains(b, c)
    ensures Contains(a, c)
  {
    var i :| 0 <= i <= |a| - |b| && OccursAt(a, b, i);
    var j :| 0 <= j <= |b| - |c| && OccursAt(b, c, j);
    assert a[i..i + |b|] == b;
    forall m | 0 <= m < |c|
      ensures a[i + j..i + j + |c|][m] == c[m]
    {
      assert a[i + j + m] == a[i..i + |b|][j + m] == b[j + m];
      assert b[j..j + |c|][m] == c[m];
    }
    assert OccursAt(a, c, i + j);
  }

  /** Nothing longer than a text occurs in it. */
  lemma NotContainsLonger(s: string, sub: string)
    requires |s| < |sub|
    ensures !Contains(s, sub)
  {
  }

  /** A text does not contain `sub` when one of the characters of `sub` is nowhere in it. */
  lemma NotContainsAbsentChar(s: string, sub: string, k: nat)
    requires k < |sub| && forall i :: 0 <= i < |s| ==> s[i] != sub[k]
    ensures !Contains(s, sub)
  {
    forall j | 0 <= j <= |s| - |sub|
      ensures !OccursAt(s, sub, j)
    {
      assert s[j..j + |sub|][k] == s[j + k];
    }
  }
}
